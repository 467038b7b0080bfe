/** What a receiver gets from a G-code datagram, signed or not, by the names of its fields; and programs sent and
    received as bytes (agent_gcode.py, agent_auth.py, examples/udp_receiver.py). */
module GcodeWire {
  import opened Wrappers
  import opened JsonText
  import opened JsonObject
  import opened PacketAuth
  import opened GcodeSplit
  import opened GcodePacket
  import opened GcodeReceive

  // ------------------------------------------------------------------
  // Reading fields by name
  // ------------------------------------------------------------------

  function TextUnder(ms: seq<Member>, key: string): Option<string> {
    match Lookup(ms, key)
    case Some(Quoted(s)) => Some(s)
    case _ => None
  }

  function NumberUnder(ms: seq<Member>, key: string): Option<nat> {
    match Lookup(ms, key)
    case Some(Whole(n)) => Some(n)
    case _ => None
  }

  /** All that a G-code packet says; None if the object is none, or lacks a field. */
  function ReadAll(ms: seq<Member>): Option<Chunk> {
    var proto, ts := NumberUnder(ms, "proto"), NumberUnder(ms, "ts");
    var machine, sha256 := TextUnder(ms, "machine_name"), TextUnder(ms, "content_sha256");
    var size, modified := NumberUnder(ms, "file_size"), NumberUnder(ms, "file_modified_ms");
    var piece := ReadPiece(ms);
    if proto.None? || ts.None? || machine.None? || sha256.None? || size.None? || modified.None? || piece.None? then None
    else
      var p := piece.value;
      Some(p.(ts := ts.value, head := Head(proto.value, machine.value, p.head.fileName, size.value, modified.value,
                                           sha256.value)))
  }

  /** What the example receiver looks at: the file's name, the piece and its place. */
  function ReadPiece(ms: seq<Member>): Option<Chunk> {
    var name, content := TextUnder(ms, "file_name"), TextUnder(ms, "content");
    var index, total := NumberUnder(ms, "chunk_index"), NumberUnder(ms, "total_chunks");
    if TextUnder(ms, "type") != Some("gcode_file") || name.None? || content.None? || index.None? || total.None?
    then None
    else Some(Chunk(Head(0, "", name.value, 0, 0, ""), 0, index.value, total.value, content.value))
  }

  function Received(datagram: Bytes): Option<Chunk> {
    match Loads(datagram)
    case None => None
    case Some(ms) => ReadPiece(ms)
  }

  /** The piece without what the receiver does not look at. */
  function Seen(c: Chunk): Chunk { Chunk(Head(0, "", c.head.fileName, 0, 0, ""), 0, c.index, c.total, c.content) }

  /** A name that is there last at i leads to the value there. */
  lemma {:induction false} LookupAt(ms: seq<Member>, i: nat)
    requires i < |ms| && forall k :: i < k < |ms| ==> ms[k].key != ms[i].key
    ensures Lookup(ms, ms[i].key) == Some(ms[i].value)
    decreases ms
  {
    if i < |ms| - 1 {
      LookupAt(ms[..|ms| - 1], i);
    }
  }

  /** A signature, if any, after the members of a packet. */
  predicate IsSignature(more: seq<Member>) { more == [] || (|more| == 1 && more[0].key == "sig") }

  /** No two members have the same name. */
  lemma NamesDiffer(c: Chunk, more: seq<Member>, i: nat, k: nat)
    requires IsSignature(more) && i < k < |MembersOf(c) + more|
    ensures (MembersOf(c) + more)[i].key != (MembersOf(c) + more)[k].key
  {
    assert "machine_name"[0] != "total_chunks"[0] && "file_name"[5] != "file_size"[5];
  }

  lemma PacketLookup(c: Chunk, more: seq<Member>, i: nat)
    requires IsSignature(more) && i < 11
    ensures var ms := MembersOf(c); Lookup(ms + more, ms[i].key) == Some(ms[i].value)
  {
    var all := MembersOf(c) + more;
    forall k | i < k < |all| ensures all[k].key != all[i].key {
      NamesDiffer(c, more, i, k);
    }
    LookupAt(all, i);
  }

  lemma PieceRead(c: Chunk, more: seq<Member>)
    requires IsSignature(more)
    ensures ReadPiece(MembersOf(c) + more) == Some(Seen(c))
  {
    PacketLookup(c, more, 0);
    PacketLookup(c, more, 4);
    PacketLookup(c, more, 8);
    PacketLookup(c, more, 9);
    PacketLookup(c, more, 10);
  }

  /** Every field is found under its own name, with or without a signature behind it. */
  lemma FieldsRead(c: Chunk, more: seq<Member>)
    requires IsSignature(more)
    ensures ReadPiece(MembersOf(c) + more) == Some(Seen(c)) && ReadAll(MembersOf(c) + more) == Some(c)
  {
    PieceRead(c, more);
    PacketLookup(c, more, 1);
    PacketLookup(c, more, 2);
    PacketLookup(c, more, 3);
    PacketLookup(c, more, 5);
    PacketLookup(c, more, 6);
    PacketLookup(c, more, 7);
  }

  /** An unsigned packet read again. */
  lemma PlainRead(c: Chunk)
    ensures Loads(Wire(c)) == Some(MembersOf(c))
  {
    LoadsDumps(MembersOf(c));
  }

  // ------------------------------------------------------------------
  // Signed packets
  // ------------------------------------------------------------------

  /** The datagram of a packet: signed if there is a key. */
  function Datagram(mac: Mac, key: Option<Bytes>, c: Chunk): Bytes {
    match Sign(mac, Wire(c), key)
    case Ok(signed) => signed
    case Err(_) => []
  }

  function TextOf(digest: Bytes): string
    requires HexDigest(digest)
  {
    seq(|digest|, i requires 0 <= i < |digest| => digest[i] as int as char)
  }

  predicate Plain(s: string) { forall i :: 0 <= i < |s| ==> 32 < s[i] as int < 0x80 && s[i] != '\"' && s[i] != '\\' }

  lemma {:induction false} PlainEscapes(s: string)
    requires Plain(s)
    ensures EscapeAll(s) == s
  {
    if s != "" {
      PlainEscapes(s[1..]);
      assert s == [s[0]] + s[1..];
    }
  }

  lemma {:induction false} AsciiEncodes(s: string)
    requires forall i :: 0 <= i < |s| ==> s[i] as int < 0x80
    ensures |Encode(s)| == |s| && forall i :: 0 <= i < |s| ==> Encode(s)[i] as int == s[i] as int
  {
    if s != "" {
      AsciiEncodes(s[1..]);
      assert Encode(s) == [s[0] as int as byte] + Encode(s[1..]);
      forall i | 0 <= i < |s| ensures Encode(s)[i] as int == s[i] as int {
        assert i > 0 ==> Encode(s)[i] == Encode(s[1..])[i - 1];
      }
    }
  }

  /** The text a signature puts in place of the closing brace. */
  function Ending(digest: string): string { ",\"sig\":\"" + digest + "\"}" }

  lemma EndingBytes(digest: Bytes)
    requires HexDigest(digest)
    ensures Encode(Ending(TextOf(digest))) == [COMMA] + SIG_OPEN + digest + SIG_CLOSE
  {
    var text := TextOf(digest);
    AsciiEncodes(Ending(text));
    assert |Ending(text)| == 8 + DIGEST + 2;
  }

  lemma TightColon(shown: string)
    requires shown != "" && !IsSpaceChar(shown[0])
    ensures var colon := ":" + shown;
            SkipSpace(colon) == colon && colon[0] == ':' && SkipSpace(colon[1..]) == shown
  {
    AfterFirst(':', shown);
    SkipNothing(":" + shown);
    SkipNothing(shown);
  }

  predicate IsSpaceChar(c: char) { JsonObject.IsSpace(c) }

  lemma SignatureMember(digest: string)
    requires Plain(digest)
    ensures ReadMember(Dumps("sig") + (":" + (Dumps(digest) + "}"))) == Some((Member("sig", Quoted(digest)), "}"))
  {
    var shown := Dumps(digest) + "}";
    DumpsRead("sig", ":" + shown);
    ValueRead(Quoted(digest), "}");
    TightColon(shown);
  }

  lemma PlainDumps(s: string)
    requires Plain(s)
    ensures Dumps(s) == "\"" + s + "\""
  {
    PlainEscapes(s);
  }

  lemma EndingShape(digest: string)
    requires Plain(digest)
    ensures Ending(digest) == "," + (Dumps("sig") + (":" + (Dumps(digest) + "}")))
  {
    PlainDumps(digest);
    PlainDumps("sig");
    SigParts(digest, Dumps("sig"), Dumps(digest));
  }

  lemma SigParts(digest: string, name: string, shown: string)
    requires name == "\"" + "sig" + "\"" && shown == "\"" + digest + "\""
    ensures Ending(digest) == "," + (name + (":" + (shown + "}")))
  {
    assert ",\"sig\":\"" == "," + name + ":" + "\"";
    assert "\"}" == "\"" + "}";
  }

  lemma TightComma(t: string)
    requires t != "" && t[0] == '\"'
    ensures Ends("," + t) && ReadMore("," + t) == ReadMembers(t)
  {
    AfterFirst(',', t);
    SkipNothing("," + t);
    SkipNothing(t);
  }

  lemma LastMember(t: string, m: Member)
    requires ReadMember(t) == Some((m, "}"))
    ensures ReadMembers(t) == Some([m])
  {
    BraceEnds();
    assert [m] + [] == [m];
  }

  lemma EndingRead(digest: string)
    requires Plain(digest)
    ensures Ends(Ending(digest)) && ReadMore(Ending(digest)) == Some([Member("sig", Quoted(digest))])
  {
    var t := Dumps("sig") + (":" + (Dumps(digest) + "}"));
    EndingShape(digest);
    SignatureMember(digest);
    TightComma(t);
    LastMember(t, Member("sig", Quoted(digest)));
  }

  lemma BraceEnds()
    ensures ReadMore("}") == Some([])
  {
    assert "}"[1..] == "";
  }

  /** The text of a packet up to its closing brace. */
  function Front(c: Chunk): string { "{" + DumpsMembers(MembersOf(c)) }

  lemma {:induction false} MoreEndsInQuote(ms: seq<Member>)
    requires ms != [] && ms[|ms| - 1].value.Quoted?
    ensures var t := DumpsMore(ms); t != "" && t[|t| - 1] == '\"'
  {
    var m := ms[0];
    if |ms| > 1 {
      MoreEndsInQuote(ms[1..]);
    } else {
      assert DumpsMore(ms[1..]) == "" && Dumps(m.value.s)[|Dumps(m.value.s)| - 1] == '\"';
    }
  }

  lemma FrontEnds(c: Chunk)
    ensures var t := Front(c); t != "" && t[|t| - 1] == '\"'
  {
    var ms := MembersOf(c);
    MoreEndsInQuote(ms[1..]);
  }

  lemma EncodeEnds(t: string)
    requires t != "" && t[|t| - 1] == '\"'
    ensures var b := Encode(t); b != [] && b[|b| - 1] == 0x22
  {
    var init, last := t[..|t| - 1], t[|t| - 1..];
    assert t == init + last;
    EncodeConcat(init, last);
    AsciiEncodes(last);
  }

  lemma BraceByte()
    ensures Encode("}") == [CLOSE_BRACE]
  {
    AsciiEncodes("}");
  }

  lemma HexIsPlain(digest: Bytes)
    requires HexDigest(digest)
    ensures Plain(TextOf(digest))
  {
  }

  lemma FrontBytes(c: Chunk)
    ensures var front := Encode(Front(c));
            Wire(c) == front + [CLOSE_BRACE] && front != [] && front[|front| - 1] == 0x22
  {
    EncodeConcat(Front(c), "}");
    BraceByte();
    FrontEnds(c);
    EncodeEnds(Front(c));
  }

  /** What signing does to an object that does not end in an opening brace or white space. */
  lemma SignForm(mac: Mac, key: Bytes, front: Bytes)
    requires key != [] && front != [] && front[|front| - 1] == 0x22
    ensures Sign(mac, front + [CLOSE_BRACE], Some(key))
         == Ok(front + ([COMMA] + SIG_OPEN + mac(key, front + [CLOSE_BRACE]) + SIG_CLOSE))
  {
    var payload := front + [CLOSE_BRACE];
    assert RStrip(payload) == payload && payload[..|payload| - 1] == front;
    assert RStrip(front) == front && !PacketAuth.EndsWith(front, OPEN_BRACE);
    Signed(front, mac(key, payload));
  }

  lemma Signed(front: Bytes, digest: Bytes)
    ensures front + [COMMA] + SIG_OPEN + digest + SIG_CLOSE == front + ([COMMA] + SIG_OPEN + digest + SIG_CLOSE)
  {
  }

  /** A signed packet is its text with the signature as one more member. */
  lemma SignedText(mac: Mac, key: Bytes, c: Chunk)
    requires Digests(mac) && key != []
    ensures var digest := mac(key, Wire(c));
            HexDigest(digest) && Datagram(mac, Some(key), c) == Encode(Front(c) + Ending(TextOf(digest)))
  {
    var digest := mac(key, Wire(c));
    FrontBytes(c);
    SignForm(mac, key, Encode(Front(c)));
    EndingBytes(digest);
    EncodeConcat(Front(c), Ending(TextOf(digest)));
  }

  lemma SignedLoads(c: Chunk, digest: string)
    requires Plain(digest)
    ensures Loads(Encode(Front(c) + Ending(digest))) == Some(MembersOf(c) + [Member("sig", Quoted(digest))])
  {
    DecodeEncode(Front(c) + Ending(digest));
    EndingRead(digest);
    ObjectRead(MembersOf(c), Ending(digest));
  }

  /** Reading undoes writing and signing: the members of the packet, and maybe a signature. */
  lemma DatagramLoads(mac: Mac, key: Option<Bytes>, c: Chunk) returns (more: seq<Member>)
    requires Digests(mac)
    ensures IsSignature(more) && Loads(Datagram(mac, key, c)) == Some(MembersOf(c) + more)
  {
    if key.None? || key.value == [] {
      more := [];
      PlainRead(c);
      Nothing(MembersOf(c));
    } else {
      var digest := mac(key.value, Wire(c));
      SignedText(mac, key.value, c);
      HexIsPlain(digest);
      SignedLoads(c, TextOf(digest));
      more := [Member("sig", Quoted(TextOf(digest)))];
    }
  }

  lemma Nothing(ms: seq<Member>)
    ensures ms + [] == ms
  {
  }

  /** A packet read from its datagram is the packet written: every field has the value sent under its own name. */
  lemma PacketRead(mac: Mac, key: Option<Bytes>, c: Chunk)
    requires Digests(mac)
    ensures var ms := Loads(Datagram(mac, key, c));
            && ms.Some? && ReadAll(ms.value) == Some(c)
            && Lookup(ms.value, "file_name") == Some(Quoted(c.head.fileName))
            && Lookup(ms.value, "chunk_index") == Some(Whole(c.index))
            && Lookup(ms.value, "total_chunks") == Some(Whole(c.total))
            && Lookup(ms.value, "content") == Some(Quoted(c.content))
            && Lookup(ms.value, "content_sha256") == Some(Quoted(c.head.sha256))
    ensures Received(Datagram(mac, key, c)) == Some(Seen(c))
  {
    var more := DatagramLoads(mac, key, c);
    FieldsRead(c, more);
    PacketLookup(c, more, 4);
    PacketLookup(c, more, 7);
    PacketLookup(c, more, 8);
    PacketLookup(c, more, 9);
    PacketLookup(c, more, 10);
  }

  // ------------------------------------------------------------------
  // Programs, as bytes
  // ------------------------------------------------------------------

  /** The pieces read from datagrams, in order; other datagrams bring none. */
  function Pieces(datagrams: seq<Bytes>): seq<Chunk> {
    if datagrams == [] then [] else
      var n := |datagrams| - 1;
      Pieces(datagrams[..n]) + PieceIn(datagrams[n])
  }

  function PieceIn(d: Bytes): seq<Chunk> {
    match Received(d)
    case Some(c) => [c]
    case None => []
  }

  lemma PieceInIs(d: Bytes, c: Chunk)
    ensures c in PieceIn(d) <==> Received(d) == Some(c)
  {
  }

  lemma PiecesMore(datagrams: seq<Bytes>, d: Bytes, c: Chunk)
    ensures c in Pieces(datagrams + [d]) <==> c in Pieces(datagrams) || Received(d) == Some(c)
  {
    assert (datagrams + [d])[..|datagrams|] == datagrams;
    PieceInIs(d, c);
  }

  ghost predicate Brought(datagrams: seq<Bytes>, c: Chunk) {
    exists i :: 0 <= i < |datagrams| && Received(datagrams[i]) == Some(c)
  }

  lemma BroughtMore(datagrams: seq<Bytes>, d: Bytes, c: Chunk)
    ensures Brought(datagrams + [d], c) <==> Brought(datagrams, c) || Received(d) == Some(c)
  {
    var more := datagrams + [d];
    if i :| 0 <= i < |datagrams| && Received(datagrams[i]) == Some(c) {
      assert more[i] == datagrams[i];
    }
    assert more[|datagrams|] == d;
  }

  lemma {:induction false} PiecesAre(datagrams: seq<Bytes>, c: Chunk)
    ensures c in Pieces(datagrams) <==> Brought(datagrams, c)
  {
    if datagrams != [] {
      var init, last := datagrams[..|datagrams| - 1], datagrams[|datagrams| - 1];
      assert datagrams == init + [last];
      PiecesAre(init, c);
      BroughtMore(init, last, c);
      PiecesMore(init, last, c);
    }
  }

  /** The datagrams of every sending, and what is read from each. */
  ghost predicate ReadAs(wire: seq<seq<Bytes>>, sent: seq<seq<Chunk>>) {
    |wire| == |sent| && forall k :: 0 <= k < |sent| ==> SendingRead(wire[k], sent[k])
  }

  ghost predicate SendingRead(wire: seq<Bytes>, packets: seq<Chunk>) {
    |wire| == |packets| && forall x :: 0 <= x < |wire| ==> Received(wire[x]) == Some(Seen(packets[x]))
  }

  ghost predicate IsSent(wire: seq<seq<Bytes>>, d: Bytes) {
    exists k :: 0 <= k < |wire| && d in wire[k]
  }

  /** Whatever arrives is the sender's, or of another file, or no G-code packet. */
  ghost predicate OthersApart(wire: seq<seq<Bytes>>, name: string, arrivals: seq<Bytes>) {
    forall i :: 0 <= i < |arrivals| ==>
      IsSent(wire, arrivals[i]) || Received(arrivals[i]).None? || Received(arrivals[i]).value.head.fileName != name
  }

  ghost predicate DatagramArrives(wire: seq<seq<Bytes>>, arrivals: seq<Bytes>, x: nat) {
    exists k :: 0 <= k < |wire| && x < |wire[k]| && wire[k][x] in arrivals
  }

  ghost predicate AllDatagramsArrive(wire: seq<seq<Bytes>>, arrivals: seq<Bytes>, n: nat) {
    forall x: nat :: x < n ==> DatagramArrives(wire, arrivals, x)
  }

  lemma PieceVersion(wire: seq<seq<Bytes>>, sent: seq<seq<Chunk>>, name: string, pieces: seq<string>, d: Bytes)
    requires ReadAs(wire, sent) && Sendings(sent, name, pieces) && IsSent(wire, d)
    ensures Received(d).Some? && OfVersion(Received(d).value, pieces)
  {
    var k :| 0 <= k < |wire| && d in wire[k];
    var x :| 0 <= x < |wire[k]| && wire[k][x] == d;
    assert SendingRead(wire[k], sent[k]);
    SendingPiece(sent[k], name, pieces, x);
  }

  lemma WireVersion(wire: seq<seq<Bytes>>, sent: seq<seq<Chunk>>, name: string, pieces: seq<string>,
                    arrivals: seq<Bytes>)
    requires ReadAs(wire, sent) && Sendings(sent, name, pieces) && OthersApart(wire, name, arrivals)
    ensures OneVersion(Pieces(arrivals), name, pieces)
  {
    var chunks := Pieces(arrivals);
    forall j | 0 <= j < |chunks| && chunks[j].head.fileName == name ensures OfVersion(chunks[j], pieces) {
      assert chunks[j] in chunks;
      PiecesAre(arrivals, chunks[j]);
      var i :| 0 <= i < |arrivals| && Received(arrivals[i]) == Some(chunks[j]);
      PieceVersion(wire, sent, name, pieces, arrivals[i]);
    }
  }

  lemma WirePiece(wire: seq<seq<Bytes>>, sent: seq<seq<Chunk>>, name: string, pieces: seq<string>,
                  arrivals: seq<Bytes>, x: nat)
    requires ReadAs(wire, sent) && Sendings(sent, name, pieces) && DatagramArrives(wire, arrivals, x)
    ensures x in Arrived(Pieces(arrivals), name)
  {
    var k :| 0 <= k < |wire| && x < |wire[k]| && wire[k][x] in arrivals;
    assert SendingRead(wire[k], sent[k]);
    var c := Seen(sent[k][x]);
    SendingPiece(sent[k], name, pieces, x);
    var i :| 0 <= i < |arrivals| && arrivals[i] == wire[k][x];
    PiecesAre(arrivals, c);
    var j :| 0 <= j < |Pieces(arrivals)| && Pieces(arrivals)[j] == c;
  }

  lemma AllNumbers(packets: seq<Chunk>, name: string, pieces: seq<string>)
    requires OneVersion(packets, name, pieces) && forall x: nat :: x < |pieces| ==> x in Arrived(packets, name)
    ensures Arrived(packets, name) == Numbers(|pieces|)
  {
  }

  lemma WireComplete(wire: seq<seq<Bytes>>, sent: seq<seq<Chunk>>, name: string, pieces: seq<string>,
                     arrivals: seq<Bytes>)
    requires ReadAs(wire, sent) && Sendings(sent, name, pieces) && OneVersion(Pieces(arrivals), name, pieces)
    requires AllDatagramsArrive(wire, arrivals, |pieces|)
    ensures Arrived(Pieces(arrivals), name) == Numbers(|pieces|)
  {
    forall x: nat | x < |pieces| ensures x in Arrived(Pieces(arrivals), name) {
      WirePiece(wire, sent, name, pieces, arrivals, x);
    }
    AllNumbers(Pieces(arrivals), name, pieces);
  }

  /** The datagrams of every sending are its packets, written and, with a key, signed. */
  ghost predicate Written(mac: Mac, key: Option<Bytes>, wire: seq<seq<Bytes>>, sent: seq<seq<Chunk>>) {
    |wire| == |sent| && forall k :: 0 <= k < |sent| ==> SendingWritten(mac, key, wire[k], sent[k])
  }

  ghost predicate SendingWritten(mac: Mac, key: Option<Bytes>, wire: seq<Bytes>, packets: seq<Chunk>) {
    |wire| == |packets| && forall x :: 0 <= x < |wire| ==> wire[x] == Datagram(mac, key, packets[x])
  }

  lemma WrittenRead(mac: Mac, key: Option<Bytes>, wire: seq<seq<Bytes>>, sent: seq<seq<Chunk>>)
    requires Digests(mac) && Written(mac, key, wire, sent)
    ensures ReadAs(wire, sent)
  {
    forall k | 0 <= k < |sent| ensures SendingRead(wire[k], sent[k]) {
      assert SendingWritten(mac, key, wire[k], sent[k]);
      forall x | 0 <= x < |wire[k]| ensures Received(wire[k][x]) == Some(Seen(sent[k][x])) {
        PacketRead(mac, key, sent[k][x]);
      }
    }
  }

  /** From text to text over bytes: datagrams of a program, signed or not, from however many sendings, in any order,
      repeated and among others. Once every piece has come, what has come out is exactly the content, and nothing else
      ever does. */
  lemma DatagramsDelivered(mac: Mac, key: Option<Bytes>, wire: seq<seq<Bytes>>, sent: seq<seq<Chunk>>, name: string,
                           pieces: seq<string>, arrivals: seq<Bytes>, buffers: Buffers)
    requires Digests(mac) && Written(mac, key, wire, sent) && Sendings(sent, name, pieces) && pieces != []
    requires Pure(buffers, name, pieces) && OthersApart(wire, name, arrivals)
    requires AllDatagramsArrive(wire, arrivals, |pieces|)
    ensures exists k :: 0 <= k < |Pieces(arrivals)| && CompletesAt(buffers, Pieces(arrivals), name, pieces, k)
    ensures forall j :: 0 <= j < |Pieces(arrivals)| && Pieces(arrivals)[j].head.fileName == name ==>
              Sound(OutcomeAt(buffers, Pieces(arrivals), j), pieces)
  {
    var chunks := Pieces(arrivals);
    WrittenRead(mac, key, wire, sent);
    WireVersion(wire, sent, name, pieces, arrivals);
    WireComplete(wire, sent, name, pieces, arrivals);
    RebuildsContent(buffers, chunks, name, pieces);
    forall j | 0 <= j < |chunks| && chunks[j].head.fileName == name
      ensures Sound(OutcomeAt(buffers, chunks, j), pieces)
    {
      NeverWrong(buffers, chunks, name, pieces, j);
    }
  }
}
