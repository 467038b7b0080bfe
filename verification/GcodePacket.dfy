/** The packets of one program (agent_gcode.py, `_pieces` and `_encode`) and their size on the wire. */
module GcodePacket {
  import opened Wrappers
  import opened JsonText
  import opened JsonObject
  import opened GcodeSplit
  import opened PacketAuth

  const MAX_PACKET_BYTES := 1400

  /** What is the same in every packet of one program. */
  datatype Head = Head(
    proto: nat, machineName: string, fileName: string, fileSize: nat, modifiedMs: nat, sha256: string)

  datatype Chunk = Chunk(head: Head, ts: nat, index: nat, total: nat, content: string)

  /** What is in every packet of a program before the time stamp, and between it and the counters. */
  function Opening(h: Head): seq<Member> {
    [Member("type", Quoted("gcode_file")), Member("proto", Whole(h.proto))]
  }

  function Names(h: Head): seq<Member> {
    [Member("machine_name", Quoted(h.machineName)), Member("file_name", Quoted(h.fileName)),
     Member("file_size", Whole(h.fileSize)), Member("file_modified_ms", Whole(h.modifiedMs)),
     Member("content_sha256", Quoted(h.sha256))]
  }

  function Counters(c: Chunk): seq<Member> {
    [Member("chunk_index", Whole(c.index)), Member("total_chunks", Whole(c.total)),
     Member("content", Quoted(c.content))]
  }

  /** The members of one packet, in order. */
  function MembersOf(c: Chunk): seq<Member> {
    Opening(c.head) + [Member("ts", Whole(c.ts))] + Names(c.head) + Counters(c)
  }

  /** json.dumps of one packet. */
  function Text(c: Chunk): string { DumpsObject(MembersOf(c)) }

  function Wire(c: Chunk): Bytes { Encode(Text(c)) }

  /** Everything but the piece, with two five-digit counters and room for a longer time stamp and a signature. */
  function Overhead(h: Head): nat {
    |Wire(Chunk(h, 0, 99999, 99999, ""))| + 16 + SIG_RESERVE
  }

  function Budget(h: Head): int {
    if MAX_PACKET_BYTES - Overhead(h) > MIN_BUDGET then MAX_PACKET_BYTES - Overhead(h) else MIN_BUDGET
  }

  /** One packet a piece, in order, each stamped with the clock of its moment. */
  ghost predicate Chunked(packets: seq<Chunk>, h: Head, pieces: seq<string>, clock: seq<nat>) {
    && |packets| == |pieces| <= |clock|
    && forall i {:trigger packets[i]} :: 0 <= i < |packets| ==> packets[i] == Chunk(h, clock[i], i, |pieces|, pieces[i])
  }

  /** `_encode` */
  method Packets(h: Head, pieces: seq<string>, clock: seq<nat>) returns (packets: seq<Chunk>)
    requires |clock| >= |pieces|
    ensures Chunked(packets, h, pieces, clock)
  {
    packets := [];
    for i := 0 to |pieces|
      invariant |packets| == i
      invariant forall k {:trigger packets[k]} :: 0 <= k < i ==>
                  packets[k] == Chunk(h, clock[k], k, |pieces|, pieces[k])
    {
      packets := packets + [Chunk(h, clock[i], i, |pieces|, pieces[i])];
    }
  }

  function Pow10(k: nat): nat { if k == 0 then 1 else 10 * Pow10(k - 1) }

  lemma {:induction false} DigitsSize(n: nat, k: nat)
    requires 1 <= k && n < Pow10(k)
    ensures 1 <= Size(Digits(n)) <= k
  {
    if n >= 10 {
      DigitsSize(n / 10, k - 1);
      SizeConcat(Digits(n / 10), [HexDigit(n % 10)]);
      AsciiSize([HexDigit(n % 10)]);
    } else {
      AsciiSize([HexDigit(n)]);
    }
  }

  // ------------------------------------------------------------------
  // The size on the wire
  // ------------------------------------------------------------------

  /** The bytes of the keys and of all punctuation, and those of the values. */
  function KeysSize(ms: seq<Member>): nat {
    if ms == [] then 0 else Size(Dumps(ms[0].key)) + 4 + KeysSize(ms[1..])
  }

  function ValuesSize(ms: seq<Member>): nat {
    if ms == [] then 0 else Size(Shown(ms[0].value)) + ValuesSize(ms[1..])
  }

  lemma MemberSize(m: Member)
    ensures Size(DumpsMember(m)) == Size(Dumps(m.key)) + 2 + Size(Shown(m.value))
  {
    AsciiSize(": ");
    SizeConcat(Dumps(m.key) + ": ", Shown(m.value));
    SizeConcat(Dumps(m.key), ": ");
  }

  lemma {:induction false} MoreSize(ms: seq<Member>)
    ensures Size(DumpsMore(ms)) == KeysSize(ms) + ValuesSize(ms)
  {
    if ms != [] {
      AsciiSize(", ");
      SizeConcat(", " + DumpsMember(ms[0]), DumpsMore(ms[1..]));
      SizeConcat(", ", DumpsMember(ms[0]));
      MemberSize(ms[0]);
      MoreSize(ms[1..]);
    }
  }

  lemma ObjectSize(ms: seq<Member>)
    requires ms != []
    ensures Size(DumpsObject(ms)) == KeysSize(ms) + ValuesSize(ms)
  {
    AsciiSize("{");
    AsciiSize("}");
    SizeConcat("{" + DumpsMembers(ms), "}");
    SizeConcat("{", DumpsMembers(ms));
    SizeConcat(DumpsMember(ms[0]), DumpsMore(ms[1..]));
    MemberSize(ms[0]);
    MoreSize(ms[1..]);
  }

  lemma {:induction false} ValuesConcat(a: seq<Member>, b: seq<Member>)
    ensures ValuesSize(a + b) == ValuesSize(a) + ValuesSize(b)
  {
    if a == [] {
      assert a + b == b;
    } else {
      assert (a + b)[1..] == a[1..] + b;
      ValuesConcat(a[1..], b);
    }
  }

  lemma {:induction false} SameKeysSize(a: seq<Member>, b: seq<Member>)
    requires |a| == |b| && forall i :: 0 <= i < |a| ==> a[i].key == b[i].key
    ensures KeysSize(a) == KeysSize(b)
  {
    if a != [] {
      SameKeysSize(a[1..], b[1..]);
    }
  }

  /** What varies from packet to packet of one program. */
  function Variable(c: Chunk): nat {
    Size(Digits(c.ts)) + Size(Digits(c.index)) + Size(Digits(c.total)) + Size(Dumps(c.content))
  }

  function Fixed(h: Head): nat {
    KeysSize(MembersOf(Chunk(h, 0, 0, 0, ""))) + ValuesSize(Opening(h)) + ValuesSize(Names(h))
  }

  lemma ValuesParts(a: seq<Member>, b: seq<Member>, c: seq<Member>, d: seq<Member>)
    ensures ValuesSize(a + b + c + d) == ValuesSize(a) + ValuesSize(b) + ValuesSize(c) + ValuesSize(d)
  {
    ValuesConcat(a + b + c, d);
    ValuesConcat(a + b, c);
    ValuesConcat(a, b);
  }

  lemma OneValue(m: Member)
    ensures ValuesSize([m]) == Size(Shown(m.value))
  {
  }

  lemma CountersSize(c: Chunk)
    ensures ValuesSize(Counters(c)) == Size(Digits(c.index)) + Size(Digits(c.total)) + Size(Dumps(c.content))
  {
    var ms := Counters(c);
    assert ms == [] + [ms[0]] + [ms[1]] + [ms[2]];
    ValuesParts([], [ms[0]], [ms[1]], [ms[2]]);
    OneValue(ms[0]);
    OneValue(ms[1]);
    OneValue(ms[2]);
  }

  lemma KeysFixed(c: Chunk)
    ensures KeysSize(MembersOf(c)) == KeysSize(MembersOf(Chunk(c.head, 0, 0, 0, "")))
  {
    SameKeysSize(MembersOf(c), MembersOf(Chunk(c.head, 0, 0, 0, "")));
  }

  lemma WireSize(c: Chunk)
    ensures |Wire(c)| == Fixed(c.head) + Variable(c)
  {
    EncodeSize(Text(c));
    ObjectSize(MembersOf(c));
    KeysFixed(c);
    ValuesParts(Opening(c.head), [Member("ts", Whole(c.ts))], Names(c.head), Counters(c));
    OneValue(Member("ts", Whole(c.ts)));
    CountersSize(c);
  }

  lemma WireIsObject(c: Chunk)
    ensures EndsWith(Wire(c), CLOSE_BRACE) && RStrip(Wire(c)) == Wire(c)
  {
    ObjectCloses(MembersOf(c));
    ClosedTrimmed(Wire(c));
  }

  lemma ObjectCloses(ms: seq<Member>)
    ensures EndsWith(Encode(DumpsObject(ms)), CLOSE_BRACE)
  {
    ClosesWithBrace("{" + DumpsMembers(ms));
  }

  lemma ClosedTrimmed(b: Bytes)
    requires EndsWith(b, CLOSE_BRACE)
    ensures RStrip(b) == b
  {
  }

  lemma ClosesWithBrace(s: string)
    ensures EndsWith(Encode(s + "}"), CLOSE_BRACE)
  {
    EncodeConcat(s, "}");
    assert "}"[1..] == "";
    assert Encode("}") == Utf8('}') + Encode("");
  }

  /** The budget is as large as it can be: a packet with five-digit counters and a one-digit time stamp whose piece uses
      all of it leaves just the room kept for a longer time stamp and a signature. (The quotes of the empty piece are
      counted twice.) */
  lemma BudgetTight(c: Chunk)
    requires 1400 - Overhead(c.head) >= 64 && Size(Dumps(c.content)) == Budget(c.head)
    requires c.ts < 10 && Size(Digits(c.index)) == 5 && Size(Digits(c.total)) == 5
    ensures |Wire(c)| + 16 + 80 + 2 == 1400
  {
    var blank := Chunk(c.head, 0, 99999, 99999, "");
    WireSize(c);
    WireSize(blank);
    BlankSize(blank);
    assert Pow10(1) == 10;
    DigitsSize(c.ts, 1);
  }

  /** And never below 64, however long the names. */
  lemma BudgetFloor(h: Head)
    ensures Budget(h) >= 64 && (1400 - Overhead(h) < 64 ==> Budget(h) == 64)
  {
  }

  predicate SignedWithin(mac: Mac, key: Bytes, c: Chunk) {
    var signed := Sign(mac, Wire(c), Some(key));
    signed.Ok? && |signed.value| <= 1400
  }

  /** A packet of the program is at most 1400 bytes once signed, whenever the names leave at least 64 bytes and the time
      stamp has at most 26 digits. */
  lemma SignedPacketFits(mac: Mac, key: Bytes, c: Chunk)
    requires Digests(mac) && key != []
    requires MAX_PACKET_BYTES - Overhead(c.head) >= MIN_BUDGET
    requires c.index < c.total <= MAX_CHUNKS && c.ts < Pow10(26) && Fits(c.content, Budget(c.head))
    ensures |Wire(c)| <= 1400 && SignedWithin(mac, key, c)
  {
    var blank := Chunk(c.head, 0, 99999, 99999, "");
    WireSize(c);
    WireSize(blank);
    BlankSize(blank);
    ChunkSize(c);
    WireIsObject(c);
    VerifyUndoesSign(mac, Wire(c), key, []);
  }

  predicate AllSignedWithin(mac: Mac, key: Bytes, packets: seq<Chunk>) {
    forall i :: 0 <= i < |packets| ==> SignedWithin(mac, key, packets[i])
  }

  predicate AllFit26(clock: seq<nat>) { forall i :: 0 <= i < |clock| ==> clock[i] < Pow10(26) }

  lemma AllFitSigned(mac: Mac, key: Bytes, packets: seq<Chunk>, h: Head, pieces: seq<string>, clock: seq<nat>)
    requires Digests(mac) && key != [] && |pieces| <= MAX_CHUNKS && AllFit26(clock)
    requires MAX_PACKET_BYTES - Overhead(h) >= MIN_BUDGET
    requires Chunked(packets, h, pieces, clock) && AllFit(pieces, Budget(h))
    ensures AllSignedWithin(mac, key, packets)
  {
    forall i | 0 <= i < |packets| ensures SignedWithin(mac, key, packets[i]) {
      SignedPacketFits(mac, key, packets[i]);
    }
  }

  lemma BlankSize(blank: Chunk)
    requires blank.ts == 0 && blank.index == blank.total == 99999 && blank.content == ""
    ensures Variable(blank) == 13
  {
    assert Pow10(1) == 10;
    DigitsSize(0, 1);
    FiveNines();
    DumpsSize("");
  }

  lemma ChunkSize(c: Chunk)
    requires c.index < c.total <= MAX_CHUNKS && c.ts < Pow10(26)
    ensures Variable(c) <= 26 + 5 + 5 + Cost(c.content) + 2
  {
    assert Pow10(5) == 100_000;
    DigitsSize(c.ts, 26);
    DigitsSize(c.index, 5);
    DigitsSize(c.total, 5);
    DumpsSize(c.content);
  }

  lemma FiveNines()
    ensures Size(Digits(99999)) == 5
  {
  }

  /** Splitting, encoding and signing together: every packet of an accepted program is within 1400 bytes, and in order
      they carry the content. */
  method SignedProgram(h: Head, content: string, chunkSize: nat, clock: seq<nat>, mac: Mac, key: Bytes)
    returns (r: Result<seq<Chunk>, Refusal>, ghost pieces: seq<string>)
    requires chunkSize >= 1 && Digests(mac) && key != [] && |clock| >= MAX_CHUNKS && AllFit26(clock)
    ensures r.Ok? ==> Chunked(r.value, h, pieces, clock) && pieces != [] && Join(pieces) == content
    ensures r.Ok? && 1400 - Overhead(h) >= 64 ==> AllSignedWithin(mac, key, r.value)
    ensures |content| > 33_554_432 <==> r.Err? && r.error.TooLarge?
    ensures r.Err? && r.error.TooManyChunks? ==> NoCuttingWithin(80_000, content, Budget(h), chunkSize)
  {
    var cut := Stream(content, Budget(h), chunkSize);
    if cut.Err? {
      r, pieces := Err(cut.error), [];
    } else {
      pieces := cut.value;
      var packets := Packets(h, cut.value, clock);
      AllFitMeans(pieces, Budget(h));
      if MAX_PACKET_BYTES - Overhead(h) >= MIN_BUDGET {
        AllFitSigned(mac, key, packets, h, pieces, clock);
      }
      r := Ok(packets);
    }
  }
}
