/** Packet signatures (agent_auth.py). HMAC-SHA256 (RFC 2104, section 2) is an uninterpreted function:
    all that is used is that its hex digest is 64 lower-case hex digits. */
module PacketAuth {
  import opened Wrappers
  import opened JsonText

  type Mac = (Bytes, Bytes) -> Bytes

  const SIG_OPEN: Bytes := [0x22, 0x73, 0x69, 0x67, 0x22, 0x3A, 0x22]   // "sig":"
  const SIG_CLOSE: Bytes := [0x22, 0x7D]                                // "}
  const COMMA: byte := 0x2C
  const OPEN_BRACE: byte := 0x7B
  const CLOSE_BRACE: byte := 0x7D
  const DIGEST := 64
  const SIG_RESERVE := 80

  predicate IsSpace(b: byte) { 9 <= b <= 13 || b == 32 }

  predicate IsHex(b: byte) { 0x30 <= b <= 0x39 || 0x61 <= b <= 0x66 }

  predicate SpaceFrom(s: Bytes, n: nat) { forall i :: n <= i < |s| ==> IsSpace(s[i]) }

  predicate HexDigest(s: Bytes) { |s| == DIGEST && forall i :: 0 <= i < |s| ==> IsHex(s[i]) }

  ghost predicate Digests(mac: Mac) {
    forall key, payload :: HexDigest(mac(key, payload))
  }

  /** bytes.rstrip() */
  function RStrip(s: Bytes): (r: Bytes)
    ensures r <= s && SpaceFrom(s, |r|) && (r == [] || !IsSpace(r[|r| - 1]))
  {
    if s == [] || !IsSpace(s[|s| - 1]) then s else RStrip(s[..|s| - 1])
  }

  predicate EndsWith(s: Bytes, b: byte) { s != [] && s[|s| - 1] == b }

  /** head, the separator, and the member holding the digest of the bytes head closes with }. */
  function Closed(mac: Mac, key: Bytes, head: Bytes, comma: bool): Bytes {
    head + Separator(comma) + SIG_OPEN + mac(key, head + [CLOSE_BRACE]) + SIG_CLOSE
  }

  function Separator(comma: bool): Bytes { if comma then [COMMA] else [] }

  /** `sign`; Err = the payload is not a JSON object. */
  function Sign(mac: Mac, payload: Bytes, key: Option<Bytes>): Result<Bytes, ()> {
    if key.None? || key.value == [] then Ok(payload) else
      var body := RStrip(payload);
      if !EndsWith(body, CLOSE_BRACE) then Err(()) else
        var head := body[..|body| - 1];
        var sep := if EndsWith(RStrip(head), OPEN_BRACE) then [] else [COMMA];
        Ok(head + sep + SIG_OPEN + mac(key.value, body) + SIG_CLOSE)
  }

  /** The signature pattern without its optional comma, from q to the end of raw. */
  predicate SuffixAt(raw: Bytes, q: nat) {
    && q + |SIG_OPEN| + DIGEST + |SIG_CLOSE| <= |raw|
    && raw[q..q + |SIG_OPEN|] == SIG_OPEN
    && HexDigest(raw[q + |SIG_OPEN|..q + |SIG_OPEN| + DIGEST])
    && raw[q + |SIG_OPEN| + DIGEST..q + |SIG_OPEN| + DIGEST + |SIG_CLOSE|] == SIG_CLOSE
    && SpaceFrom(raw, q + |SIG_OPEN| + DIGEST + |SIG_CLOSE|)
  }

  /** Where the pattern's `"sig"` stands when the pattern is tried at p: after the comma if there is one. */
  function AfterComma(raw: Bytes, p: nat): nat {
    if p < |raw| && raw[p] == COMMA then p + 1 else p
  }

  /** re.search: the first position where the pattern matches. */
  function Search(raw: Bytes, from: nat): (p: Option<nat>)
    ensures p.Some? ==> from <= p.value < |raw| && SuffixAt(raw, AfterComma(raw, p.value))
    ensures p.Some? ==> forall k: nat :: from <= k < p.value ==> !SuffixAt(raw, AfterComma(raw, k))
    ensures p.None? ==> forall k: nat :: from <= k ==> !SuffixAt(raw, AfterComma(raw, k))
    decreases |raw| - from
  {
    if from >= |raw| then None
    else if SuffixAt(raw, AfterComma(raw, from)) then Some(from)
    else Search(raw, from + 1)
  }

  datatype Verdict = Accepted | Unsigned | Bad

  function Verify(mac: Mac, raw: Bytes, key: Bytes): Verdict {
    match Search(raw, 0)
    case None => Unsigned
    case Some(p) =>
      var q := AfterComma(raw, p) + |SIG_OPEN|;
      if mac(key, raw[..p] + [CLOSE_BRACE]) == raw[q..q + DIGEST] then Accepted else Bad
  }

  // ------------------------------------------------------------------
  // verify undoes sign
  // ------------------------------------------------------------------

  lemma SuffixEnd(raw: Bytes, q: nat)
    requires SuffixAt(raw, q)
    ensures raw[q + |SIG_OPEN| + DIGEST + |SIG_CLOSE| - 1] == CLOSE_BRACE && raw[q] == SIG_OPEN[0]
  {
  }

  /** The pattern can only end at the last byte that is not white space: it fits in one place. */
  lemma SuffixUnique(raw: Bytes, q1: nat, q2: nat)
    requires SuffixAt(raw, q1) && SuffixAt(raw, q2)
    ensures q1 == q2
  {
    SuffixEnd(raw, q1);
    SuffixEnd(raw, q2);
  }

  lemma SuffixThere(pre: Bytes, digest: Bytes, spaces: Bytes)
    requires HexDigest(digest) && SpaceFrom(spaces, 0)
    ensures var raw := pre + SIG_OPEN + digest + SIG_CLOSE + spaces;
            && SuffixAt(raw, |pre|)
            && raw[|pre| + |SIG_OPEN|..|pre| + |SIG_OPEN| + DIGEST] == digest
  {
  }

  /** The leftmost match starts at the comma of the only suffix there is. */
  lemma SearchFinds(raw: Bytes, p: nat)
    requires p < |raw| && SuffixAt(raw, AfterComma(raw, p))
    requires p > 0 && raw[p] != COMMA ==> raw[p - 1] != COMMA
    ensures Search(raw, 0) == Some(p)
  {
    var found := Search(raw, 0).value;
    SuffixUnique(raw, AfterComma(raw, p), AfterComma(raw, found));
    SuffixEnd(raw, AfterComma(raw, p));
  }

  /** Where the parts of a closed packet stand. */
  lemma ClosedParts(mac: Mac, key: Bytes, head: Bytes, comma: bool, spaces: Bytes)
    requires Digests(mac) && SpaceFrom(spaces, 0) && (!comma ==> !EndsWith(head, COMMA))
    ensures var raw := Closed(mac, key, head, comma) + spaces; var q := |head + Separator(comma)|;
            && |head| < |raw| && raw[..|head|] == head && AfterComma(raw, |head|) == q && SuffixAt(raw, q)
            && raw[q + |SIG_OPEN|..q + |SIG_OPEN| + DIGEST] == mac(key, head + [CLOSE_BRACE])
            && (|head| > 0 && raw[|head|] != COMMA ==> raw[|head| - 1] != COMMA)
  {
    var pre, digest := head + Separator(comma), mac(key, head + [CLOSE_BRACE]);
    var raw := pre + SIG_OPEN + digest + SIG_CLOSE + spaces;
    assert raw == Closed(mac, key, head, comma) + spaces;
    SuffixThere(pre, digest, spaces);
    SuffixEnd(raw, |pre|);
    assert comma ==> raw[|head|] == COMMA;
    assert head != [] ==> raw[|head| - 1] == head[|head| - 1];
    assert raw[..|head|] == head;
  }

  /** Whatever the head holds (even a "sig" member of its own), the bytes checked are the head closed with }. */
  lemma ClosedVerifies(mac: Mac, key: Bytes, head: Bytes, comma: bool, spaces: Bytes)
    requires Digests(mac) && SpaceFrom(spaces, 0) && (!comma ==> !EndsWith(head, COMMA))
    ensures Search(Closed(mac, key, head, comma) + spaces, 0) == Some(|head|)
    ensures Verify(mac, Closed(mac, key, head, comma) + spaces, key) == Accepted
  {
    ClosedParts(mac, key, head, comma, spaces);
    SearchFinds(Closed(mac, key, head, comma) + spaces, |head|);
  }

  lemma RStripHead(head: Bytes)
    requires EndsWith(RStrip(head), OPEN_BRACE)
    ensures !EndsWith(head, COMMA)
  {
  }

  /** Signing closes the payload's head. */
  lemma SignCloses(mac: Mac, payload: Bytes, key: Bytes)
    requires key != [] && EndsWith(RStrip(payload), CLOSE_BRACE)
    ensures var body := RStrip(payload); var head := body[..|body| - 1];
            var comma := !EndsWith(RStrip(head), OPEN_BRACE);
            && head + [CLOSE_BRACE] == body && (!comma ==> !EndsWith(head, COMMA))
            && Sign(mac, payload, Some(key)) == Ok(Closed(mac, key, head, comma))
  {
    var body := RStrip(payload);
    var head := body[..|body| - 1];
    assert head + [CLOSE_BRACE] == body;
    if EndsWith(RStrip(head), OPEN_BRACE) {
      RStripHead(head);
    }
  }

  /** For every payload that ends in } once trimmed, and any white space behind the signed packet: what is
      checked is exactly what was signed. */
  lemma VerifyUndoesSign(mac: Mac, payload: Bytes, key: Bytes, spaces: Bytes)
    requires Digests(mac) && key != [] && SpaceFrom(spaces, 0) && EndsWith(RStrip(payload), CLOSE_BRACE)
    ensures var signed, body := Sign(mac, payload, Some(key)), RStrip(payload);
            && signed.Ok? && Verify(mac, signed.value + spaces, key) == Accepted
            && Search(signed.value + spaces, 0) == Some(|body| - 1)
            && |body| <= |signed.value| <= |body| + |SIG_OPEN| + DIGEST + |SIG_CLOSE|
            && signed.value[..|body| - 1] + [CLOSE_BRACE] == body
  {
    var body := RStrip(payload);
    var head := body[..|body| - 1];
    var comma := !EndsWith(RStrip(head), OPEN_BRACE);
    SignCloses(mac, payload, key);
    ClosedUndone(mac, key, head, comma, spaces);
  }

  /** The signature follows a comma, but for an object without members. */
  lemma CommaPlaced(mac: Mac, payload: Bytes, key: Bytes)
    requires Digests(mac) && key != [] && EndsWith(RStrip(payload), CLOSE_BRACE)
    ensures var signed, body := Sign(mac, payload, Some(key)), RStrip(payload);
            && signed.Ok? && |signed.value| >= |body|
            && (signed.value[|body| - 1] == 0x2C <==> !EndsWith(RStrip(body[..|body| - 1]), 0x7B))
  {
    var body := RStrip(payload);
    var head := body[..|body| - 1];
    SignCloses(mac, payload, key);
    ClosedHead(mac, key, head, !EndsWith(RStrip(head), OPEN_BRACE));
  }

  lemma ClosedUndone(mac: Mac, key: Bytes, head: Bytes, comma: bool, spaces: Bytes)
    requires Digests(mac) && SpaceFrom(spaces, 0) && (!comma ==> !EndsWith(head, COMMA))
    ensures var signed := Closed(mac, key, head, comma);
            && Verify(mac, signed + spaces, key) == Accepted && Search(signed + spaces, 0) == Some(|head|)
            && |head| < |signed| <= |head| + 1 + |SIG_OPEN| + DIGEST + |SIG_CLOSE| && signed[..|head|] == head
  {
    ClosedVerifies(mac, key, head, comma, spaces);
    ClosedHead(mac, key, head, comma);
  }

  lemma ClosedHead(mac: Mac, key: Bytes, head: Bytes, comma: bool)
    requires Digests(mac)
    ensures var c := Closed(mac, key, head, comma);
            && |c| == |head| + |Separator(comma)| + |SIG_OPEN| + DIGEST + |SIG_CLOSE| && c[..|head|] == head
            && (c[|head|] == COMMA <==> comma)
  {
  }

  /** Two payloads with the same signed bytes differ in trailing white space only. */
  lemma SignInjective(mac: Mac, p1: Bytes, p2: Bytes, key: Bytes)
    requires Digests(mac) && key != []
    requires EndsWith(RStrip(p1), CLOSE_BRACE) && EndsWith(RStrip(p2), CLOSE_BRACE)
    requires Sign(mac, p1, Some(key)) == Sign(mac, p2, Some(key))
    ensures RStrip(p1) == RStrip(p2)
  {
    VerifyUndoesSign(mac, p1, key, []);
    VerifyUndoesSign(mac, p2, key, []);
  }

  /** Some bytes, an optional comma and the signature member holding the digest of those bytes closed with }. */
  ghost predicate SignedForm(mac: Mac, body: Bytes, key: Bytes) {
    exists head: Bytes, comma: bool :: (!comma ==> !EndsWith(head, COMMA)) && body == Closed(mac, key, head, comma)
  }

  lemma AcceptedHasForm(mac: Mac, raw: Bytes, key: Bytes)
    requires Digests(mac) && Verify(mac, raw, key) == Accepted
    ensures SignedForm(mac, RStrip(raw), key)
  {
    var p := Search(raw, 0).value;
    AcceptedClosed(mac, raw, key, p);
    assert RStrip(raw) == Closed(mac, key, raw[..p], raw[p] == COMMA);
  }

  lemma FormVerifies(mac: Mac, body: Bytes, key: Bytes, spaces: Bytes)
    requires Digests(mac) && SignedForm(mac, body, key) && SpaceFrom(spaces, 0)
    ensures Verify(mac, body + spaces, key) == Accepted
  {
    var head: Bytes, comma: bool :| (!comma ==> !EndsWith(head, COMMA)) && body == Closed(mac, key, head, comma);
    ClosedVerifies(mac, key, head, comma, spaces);
  }

  lemma Trimmed(raw: Bytes) returns (body: Bytes, spaces: Bytes)
    ensures body == RStrip(raw) && raw == body + spaces && SpaceFrom(spaces, 0)
  {
    body := RStrip(raw);
    spaces := raw[|body|..];
  }

  lemma FormAccepted(mac: Mac, raw: Bytes, key: Bytes)
    requires Digests(mac) && SignedForm(mac, RStrip(raw), key)
    ensures Verify(mac, raw, key) == Accepted
  {
    var body, spaces := Trimmed(raw);
    FormVerifies(mac, body, key, spaces);
  }

  /** A packet is accepted exactly when, trimmed, it has that form. */
  lemma AcceptedMeans(mac: Mac, raw: Bytes, key: Bytes)
    requires Digests(mac)
    ensures Verify(mac, raw, key) == Accepted <==> SignedForm(mac, RStrip(raw), key)
  {
    if Verify(mac, raw, key) == Accepted {
      AcceptedHasForm(mac, raw, key);
    }
    if SignedForm(mac, RStrip(raw), key) {
      FormAccepted(mac, raw, key);
    }
  }

  lemma AcceptedClosed(mac: Mac, raw: Bytes, key: Bytes, p: nat)
    requires Digests(mac) && Verify(mac, raw, key) == Accepted && Search(raw, 0) == Some(p)
    ensures var comma := raw[p] == COMMA;
            (!comma ==> !EndsWith(raw[..p], COMMA)) && RStrip(raw) == Closed(mac, key, raw[..p], comma)
  {
    var q := AfterComma(raw, p);
    var n := q + |SIG_OPEN| + DIGEST + |SIG_CLOSE|;
    SuffixEnd(raw, q);
    TrimAt(raw, n);
    SuffixClosed(raw, p);
    NoCommaLeft(raw, p);
  }

  lemma NoCommaLeft(raw: Bytes, p: nat)
    requires Search(raw, 0) == Some(p)
    ensures raw[p] != COMMA ==> !EndsWith(raw[..p], COMMA)
  {
    assert p > 0 ==> AfterComma(raw, p - 1) == if raw[p - 1] == COMMA then p else p - 1;
  }

  /** The trimmed bytes, part by part. */
  lemma SuffixClosed(raw: Bytes, p: nat)
    requires p < |raw| && SuffixAt(raw, AfterComma(raw, p))
    ensures var q := AfterComma(raw, p); var a, b := q + |SIG_OPEN|, q + |SIG_OPEN| + DIGEST;
            raw[..b + |SIG_CLOSE|] == raw[..p] + Separator(raw[p] == COMMA) + SIG_OPEN + raw[a..b] + SIG_CLOSE
  {
    var q := AfterComma(raw, p);
    Glue(raw, p, q);
    Glue(raw, q, q + |SIG_OPEN|);
    Glue(raw, q + |SIG_OPEN|, q + |SIG_OPEN| + DIGEST);
    Glue(raw, q + |SIG_OPEN| + DIGEST, q + |SIG_OPEN| + DIGEST + |SIG_CLOSE|);
    assert raw[p..q] == Separator(raw[p] == COMMA);
  }

  lemma Glue(raw: Bytes, i: nat, j: nat)
    requires i <= j <= |raw|
    ensures raw[..j] == raw[..i] + raw[i..j]
  {
  }

  lemma TrimAt(raw: Bytes, n: nat)
    requires 0 < n <= |raw| && SpaceFrom(raw, n) && !IsSpace(raw[n - 1])
    ensures RStrip(raw) == raw[..n]
  {
  }

  // ------------------------------------------------------------------
  // Unsigned packets
  // ------------------------------------------------------------------

  /** The bytes end with `"sig":"`, 64 digits of 0-9 and a-f, `"}` and spaces, tabs or line breaks. */
  ghost predicate EndsSigned(raw: Bytes) {
    exists pre: Bytes, digest: Bytes, spaces: Bytes :: SignedEnd(raw, pre, digest, spaces)
  }

  predicate SignedEnd(raw: Bytes, pre: Bytes, digest: Bytes, spaces: Bytes) {
    && raw == pre + [0x22, 0x73, 0x69, 0x67, 0x22, 0x3A, 0x22] + digest + [0x22, 0x7D] + spaces
    && |digest| == 64
    && (forall i :: 0 <= i < 64 ==> 0x30 <= digest[i] <= 0x39 || 0x61 <= digest[i] <= 0x66)
    && (forall i :: 0 <= i < |spaces| ==> spaces[i] in [9, 10, 11, 12, 13, 32])
  }

  /** A packet is unsigned exactly if it does not end that way, wherever else it holds such a member. */
  lemma UnsignedMeans(mac: Mac, raw: Bytes, key: Bytes)
    ensures Verify(mac, raw, key) == Unsigned <==> !EndsSigned(raw)
  {
    var found := Search(raw, 0);
    if found.Some? {
      SuffixEnds(raw, AfterComma(raw, found.value));
    }
    if EndsSigned(raw) {
      var pre, digest, spaces :| SignedEnd(raw, pre, digest, spaces);
      assert raw == pre + SIG_OPEN + digest + SIG_CLOSE + spaces;
      SuffixThere(pre, digest, spaces);
      assert AfterComma(raw, |pre|) == |pre|;
    }
  }

  lemma SuffixEnds(raw: Bytes, q: nat)
    requires SuffixAt(raw, q)
    ensures EndsSigned(raw)
  {
    var a, b := q + |SIG_OPEN|, q + |SIG_OPEN| + DIGEST;
    var n := b + |SIG_CLOSE|;
    Glue(raw, q, a);
    Glue(raw, a, b);
    Glue(raw, b, n);
    assert raw == raw[..n] + raw[n..];
    assert SignedEnd(raw, raw[..q], raw[a..b], raw[n..]);
  }
}
