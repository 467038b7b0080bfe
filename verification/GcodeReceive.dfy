/** Putting a program together again from its packets (examples/udp_receiver.py, `_print_gcode_summary`). */
module GcodeReceive {
  import opened Wrappers
  import opened GcodeSplit
  import opened GcodePacket

  datatype Buffer = Buffer(chunks: map<nat, string>, total: nat)

  /** What a packet led to; Broken = a chunk number was missing when the count said complete (a KeyError). */
  datatype Outcome = Waiting | Complete(text: string) | Broken

  type Buffers = map<string, Buffer>

  function Numbers(n: nat): (s: set<nat>)
    ensures forall i: nat :: i in s <==> i < n
  {
    if n == 0 then {} else Numbers(n - 1) + {n - 1}
  }

  function Assemble(chunks: map<nat, string>, n: nat): string
    requires Numbers(n) <= chunks.Keys
  {
    if n == 0 then "" else
      assert n - 1 in Numbers(n);
      Assemble(chunks, n - 1) + chunks[n - 1]
  }

  /** The pieces the receiver holds of a file. */
  function ChunksOf(buffers: Buffers, name: string): map<nat, string> {
    if name in buffers then buffers[name].chunks else map[]
  }

  function Judged(chunks: map<nat, string>, total: nat): Outcome {
    if |chunks| != total then Waiting
    else if Numbers(total) <= chunks.Keys then Complete(Assemble(chunks, total))
    else Broken
  }

  function Receive(buffers: Buffers, c: Chunk): (Buffers, Outcome) {
    var name := c.head.fileName;
    var chunks := ChunksOf(buffers, name)[c.index := c.content];
    var outcome := Judged(chunks, c.total);
    (if outcome.Complete? then buffers - {name}
     else buffers[name := Buffer(chunks, if name in buffers then buffers[name].total else c.total)],
     outcome)
  }

  class Receiver {
    var buffers: Buffers

    constructor ()
      ensures buffers == map[]
    {
      buffers := map[];
    }

    method PrintGcodeSummary(c: Chunk) returns (outcome: Outcome)
      modifies this
      ensures (buffers, outcome) == Receive(old(buffers), c)
    {
      var name := c.head.fileName;
      var buffer := Buffer(map[], c.total);
      if name in buffers {
        buffer := buffers[name];
      }
      var chunks := buffer.chunks[c.index := c.content];
      var received := |chunks|;
      var full := None;
      if received == c.total {
        full := JoinChunks(chunks, c.total);
      }
      if full.Some? {
        buffers := buffers - {name};
        return Complete(full.value);
      }
      buffers := buffers[name := buffer.(chunks := chunks)];
      return if received != c.total then Waiting else Broken;
    }

    /** None: a chunk number is missing. */
    static method JoinChunks(chunks: map<nat, string>, total: nat) returns (full: Option<string>)
      ensures full == if Numbers(total) <= chunks.Keys then Some(Assemble(chunks, total)) else None
    {
      var text := "";
      for i := 0 to total
        invariant Numbers(i) <= chunks.Keys && text == Assemble(chunks, i)
      {
        if i !in chunks {
          return None;
        }
        text := text + chunks[i];
      }
      return Some(text);
    }
  }

  // ------------------------------------------------------------------
  // Any order, with duplicates, among packets of other files
  // ------------------------------------------------------------------

  function Run(buffers: Buffers, packets: seq<Chunk>): Buffers {
    if packets == [] then buffers
    else Receive(Run(buffers, packets[..|packets| - 1]), packets[|packets| - 1]).0
  }

  /** A packet of this version of the file: one of its pieces, whichever. */
  predicate OfVersion(c: Chunk, pieces: seq<string>) {
    c.total == |pieces| && c.index < |pieces| && c.content == pieces[c.index]
  }

  predicate OneVersion(packets: seq<Chunk>, name: string, pieces: seq<string>) {
    forall i :: 0 <= i < |packets| && packets[i].head.fileName == name ==> OfVersion(packets[i], pieces)
  }

  /** The pieces of the file that have arrived. */
  function Arrived(packets: seq<Chunk>, name: string): set<nat> {
    set i | 0 <= i < |packets| && packets[i].head.fileName == name :: packets[i].index
  }

  lemma OneLarger(s: set<nat>, x: nat)
    requires x !in s
    ensures |s + {x}| == |s| + 1
  {
  }

  lemma {:induction false} NumbersSize(n: nat)
    ensures |Numbers(n)| == n
  {
    if n > 0 {
      NumbersSize(n - 1);
      assert n - 1 !in Numbers(n - 1);
      OneLarger(Numbers(n - 1), n - 1);
    }
  }

  lemma AllArrived(arrived: set<nat>, n: nat)
    requires arrived <= Numbers(n)
    ensures |arrived| == n <==> arrived == Numbers(n)
  {
    NumbersSize(n);
    assert Numbers(n) == arrived + (Numbers(n) - arrived);
    assert |Numbers(n)| == |arrived| + |Numbers(n) - arrived|;
  }

  lemma {:induction false} AssembleJoins(chunks: map<nat, string>, pieces: seq<string>, n: nat)
    requires n <= |pieces| && chunks == ChunkMap(Numbers(|pieces|), pieces)
    ensures Numbers(n) <= chunks.Keys && Assemble(chunks, n) == Join(pieces[..n])
  {
    if n > 0 {
      AssembleJoins(chunks, pieces, n - 1);
      assert pieces[..n][..n - 1] == pieces[..n - 1];
      assert n - 1 in chunks;
    }
  }

  ghost function ChunkMap(arrived: set<nat>, pieces: seq<string>): map<nat, string>
    requires forall i :: i in arrived ==> i < |pieces|
  {
    map i | i in arrived :: pieces[i]
  }

  lemma AddChunk(arrived: set<nat>, pieces: seq<string>, i: nat)
    requires (forall i :: i in arrived ==> i < |pieces|) && i < |pieces|
    ensures ChunkMap(arrived, pieces)[i := pieces[i]] == ChunkMap(arrived + {i}, pieces)
    ensures ChunkMap(arrived + {i}, pieces).Keys == arrived + {i}
    ensures |ChunkMap(arrived + {i}, pieces)| == |arrived + {i}|
  {
  }

  /** The buffer holds exactly these pieces of this version; none at all will do. */
  ghost predicate Holds(buffers: Buffers, name: string, held: set<nat>, pieces: seq<string>) {
    (forall i :: i in held ==> i < |pieces|) && ChunksOf(buffers, name) == ChunkMap(held, pieces)
  }

  lemma OneMore(buffers: Buffers, c: Chunk, name: string, held: set<nat>, pieces: seq<string>)
    requires Holds(buffers, name, held, pieces) && c.head.fileName == name && OfVersion(c, pieces)
    ensures var (buffers', outcome) := Receive(buffers, c); var held' := held + {c.index};
            if held' == Numbers(|pieces|) then outcome == Complete(Join(pieces)) && name !in buffers'
            else outcome == Waiting && Holds(buffers', name, held', pieces)
  {
    var held' := held + {c.index};
    AddChunk(held, pieces, c.index);
    AllArrived(held', |pieces|);
    if held' == Numbers(|pieces|) {
      AssembleJoins(ChunkMap(held', pieces), pieces, |pieces|);
      assert pieces[..|pieces|] == pieces;
    }
  }

  lemma OtherFile(buffers: Buffers, c: Chunk, name: string)
    requires c.head.fileName != name
    ensures ChunksOf(Receive(buffers, c).0, name) == ChunksOf(buffers, name)
  {
  }

  lemma ArrivedStep(packets: seq<Chunk>, name: string)
    requires packets != []
    ensures var init, last := packets[..|packets| - 1], packets[|packets| - 1];
            Arrived(packets, name) == Arrived(init, name) + (if last.head.fileName == name then {last.index} else {})
  {
  }

  /** What the packet at place j led to. */
  function OutcomeAt(buffers: Buffers, packets: seq<Chunk>, j: nat): Outcome
    requires j < |packets|
  {
    Receive(Run(buffers, packets[..j]), packets[j]).1
  }

  ghost predicate NothingYet(buffers: Buffers, packets: seq<Chunk>, name: string, n: nat)
    requires n <= |packets|
  {
    forall j :: 0 <= j < n && packets[j].head.fileName == name ==> OutcomeAt(buffers, packets, j) == Waiting
  }

  lemma RunStep(buffers: Buffers, packets: seq<Chunk>, n: nat)
    requires n < |packets|
    ensures Run(buffers, packets[..n + 1]) == Receive(Run(buffers, packets[..n]), packets[n]).0
  {
    assert packets[..n + 1][..n] == packets[..n];
  }

  lemma ArrivedNext(packets: seq<Chunk>, name: string, n: nat)
    requires n < |packets|
    ensures Arrived(packets[..n + 1], name)
         == Arrived(packets[..n], name) + if packets[n].head.fileName == name then {packets[n].index} else {}
  {
    assert packets[..n + 1][..n] == packets[..n];
    ArrivedStep(packets[..n + 1], name);
  }

  /** What the file's buffer holds after a packet that completes nothing. */
  function HeldAfter(held: set<nat>, c: Chunk, name: string): set<nat> {
    if c.head.fileName == name then held + {c.index} else held
  }

  lemma CollectsOne(buffers: Buffers, c: Chunk, name: string, pieces: seq<string>, held: set<nat>)
    requires Holds(buffers, name, held, pieces)
    requires c.head.fileName == name ==> OfVersion(c, pieces) && Receive(buffers, c).1 == Waiting
    ensures Holds(Receive(buffers, c).0, name, HeldAfter(held, c, name), pieces)
    ensures c.head.fileName == name ==> HeldAfter(held, c, name) != Numbers(|pieces|)
  {
    if c.head.fileName == name {
      OneMore(buffers, c, name, held, pieces);
    } else {
      OtherFile(buffers, c, name);
    }
  }

  lemma HeldNext(held: set<nat>, packets: seq<Chunk>, name: string, n: nat)
    requires n < |packets|
    ensures held + Arrived(packets[..n + 1], name) == HeldAfter(held + Arrived(packets[..n], name), packets[n], name)
  {
    ArrivedNext(packets, name, n);
  }

  /** Until a packet completes the file, the buffer holds what it held and the pieces that have arrived since. */
  lemma {:induction false} CollectsArrived(buffers: Buffers, packets: seq<Chunk>, name: string, pieces: seq<string>,
                                           held: set<nat>, n: nat)
    requires Holds(buffers, name, held, pieces) && OneVersion(packets, name, pieces)
    requires n <= |packets| && NothingYet(buffers, packets, name, n)
    ensures Holds(Run(buffers, packets[..n]), name, held + Arrived(packets[..n], name), pieces)
    ensures Arrived(packets[..n], name) != {} ==> held + Arrived(packets[..n], name) != Numbers(|pieces|)
  {
    if n == 0 {
      assert held + Arrived(packets[..0], name) == held;
    } else {
      CollectsArrived(buffers, packets, name, pieces, held, n - 1);
      RunStep(buffers, packets, n - 1);
      HeldNext(held, packets, name, n - 1);
      ArrivedNext(packets, name, n - 1);
      var before, c := Run(buffers, packets[..n - 1]), packets[n - 1];
      assert c.head.fileName == name ==> OutcomeAt(buffers, packets, n - 1) == Waiting;
      CollectsOne(before, c, name, pieces, held + Arrived(packets[..n - 1], name));
    }
  }

  /** A packet of the version held leaves only pieces of that version, and yields nothing or the whole content. */
  lemma VersionKept(buffers: Buffers, c: Chunk, name: string, pieces: seq<string>)
    requires Pure(buffers, name, pieces) && (c.head.fileName == name ==> OfVersion(c, pieces))
    ensures var (buffers', outcome) := Receive(buffers, c);
            && Pure(buffers', name, pieces)
            && (c.head.fileName == name ==> outcome == Waiting || outcome == Complete(Join(pieces)))
  {
    if c.head.fileName == name {
      var held, buffers' := ChunksOf(buffers, name).Keys, Receive(buffers, c).0;
      PureHolds(buffers, name, pieces);
      OneMore(buffers, c, name, held, pieces);
      if held + {c.index} != Numbers(|pieces|) {
        HoldsPure(buffers', name, pieces, held + {c.index});
      }
    } else {
      OtherFile(buffers, c, name);
    }
  }

  /** Every piece the buffer holds is one of this version. */
  ghost predicate Pure(buffers: Buffers, name: string, pieces: seq<string>) {
    AllOf(ChunksOf(buffers, name), pieces)
  }

  predicate AllOf(chunks: map<nat, string>, pieces: seq<string>) {
    forall i :: i in chunks ==> i < |pieces| && chunks[i] == pieces[i]
  }

  lemma PureHolds(buffers: Buffers, name: string, pieces: seq<string>)
    requires Pure(buffers, name, pieces)
    ensures Holds(buffers, name, ChunksOf(buffers, name).Keys, pieces)
  {
  }

  lemma HoldsPure(buffers: Buffers, name: string, pieces: seq<string>, held: set<nat>)
    requires Holds(buffers, name, held, pieces)
    ensures Pure(buffers, name, pieces)
  {
  }

  lemma PureNext(buffers: Buffers, packets: seq<Chunk>, name: string, pieces: seq<string>, n: nat)
    requires OneVersion(packets, name, pieces) && n < |packets| && Pure(Run(buffers, packets[..n]), name, pieces)
    ensures Pure(Run(buffers, packets[..n + 1]), name, pieces)
  {
    RunStep(buffers, packets, n);
    VersionKept(Run(buffers, packets[..n]), packets[n], name, pieces);
  }

  lemma {:induction false} StaysPure(buffers: Buffers, packets: seq<Chunk>, name: string, pieces: seq<string>, n: nat)
    requires Pure(buffers, name, pieces) && OneVersion(packets, name, pieces) && n <= |packets|
    ensures Pure(Run(buffers, packets[..n]), name, pieces)
  {
    if n > 0 {
      StaysPure(buffers, packets, name, pieces, n - 1);
      PureNext(buffers, packets, name, pieces, n - 1);
    }
  }

  /** Right or nothing: the outcome is still waiting, or it is the whole content. */
  predicate Sound(outcome: Outcome, pieces: seq<string>) { outcome == Waiting || outcome == Complete(Join(pieces)) }

  /** From a buffer without pieces of another version, and for ever after: no packet of the version leads to anything
      but waiting or the content; no chunk number is ever missing. */
  lemma NeverWrong(buffers: Buffers, packets: seq<Chunk>, name: string, pieces: seq<string>, j: nat)
    requires Pure(buffers, name, pieces) && OneVersion(packets, name, pieces)
    requires j < |packets| && packets[j].head.fileName == name
    ensures Sound(OutcomeAt(buffers, packets, j), pieces)
  {
    StaysPure(buffers, packets, name, pieces, j);
    VersionKept(Run(buffers, packets[..j]), packets[j], name, pieces);
  }

  /** Once every piece has arrived, in any order, with duplicates and among packets of other files, some packet has
      completed the file, and the first to do so gave exactly its content. */
  lemma RebuildsContent(buffers: Buffers, packets: seq<Chunk>, name: string, pieces: seq<string>)
    requires pieces != [] && Pure(buffers, name, pieces) && OneVersion(packets, name, pieces)
    requires Arrived(packets, name) == Numbers(|pieces|)
    ensures exists k :: 0 <= k < |packets| && CompletesAt(buffers, packets, name, pieces, k)
  {
    SomeOutcome(buffers, packets, name, pieces);
    FirstIsContent(buffers, packets, name, pieces);
  }

  lemma FirstIsContent(buffers: Buffers, packets: seq<Chunk>, name: string, pieces: seq<string>)
    requires Pure(buffers, name, pieces) && OneVersion(packets, name, pieces)
    requires !NothingYet(buffers, packets, name, |packets|)
    ensures exists k :: 0 <= k < |packets| && CompletesAt(buffers, packets, name, pieces, k)
  {
    var k := FirstOutcome(buffers, packets, name, |packets|);
    NeverWrong(buffers, packets, name, pieces, k);
    assert CompletesAt(buffers, packets, name, pieces, k);
  }

  lemma SomeOutcome(buffers: Buffers, packets: seq<Chunk>, name: string, pieces: seq<string>)
    requires pieces != [] && Pure(buffers, name, pieces) && OneVersion(packets, name, pieces)
    requires Arrived(packets, name) == Numbers(|pieces|)
    ensures !NothingYet(buffers, packets, name, |packets|)
  {
    if NothingYet(buffers, packets, name, |packets|) {
      var held := ChunksOf(buffers, name).Keys;
      PureHolds(buffers, name, pieces);
      CollectsArrived(buffers, packets, name, pieces, held, |packets|);
      AllHeld(held, Arrived(packets[..|packets|], name), pieces, packets, name);
    }
  }

  lemma AllHeld(held: set<nat>, arrived: set<nat>, pieces: seq<string>, packets: seq<Chunk>, name: string)
    requires pieces != [] && (forall i :: i in held ==> i < |pieces|)
    requires Arrived(packets, name) == Numbers(|pieces|) && arrived == Arrived(packets[..|packets|], name)
    ensures arrived != {} && held + arrived == Numbers(|pieces|)
  {
    assert packets[..|packets|] == packets && 0 in Numbers(|pieces|);
  }

  /** The packet at k yields the content, and none before it anything. */
  ghost predicate CompletesAt(buffers: Buffers, packets: seq<Chunk>, name: string, pieces: seq<string>, k: nat)
    requires k < |packets|
  {
    && packets[k].head.fileName == name && OutcomeAt(buffers, packets, k) == Complete(Join(pieces))
    && NothingYet(buffers, packets, name, k)
  }

  lemma {:induction false} FirstOutcome(buffers: Buffers, packets: seq<Chunk>, name: string, n: nat) returns (k: nat)
    requires n <= |packets| && !NothingYet(buffers, packets, name, n)
    ensures k < n && packets[k].head.fileName == name && OutcomeAt(buffers, packets, k) != Waiting
    ensures NothingYet(buffers, packets, name, k)
    decreases n
  {
    if NothingYet(buffers, packets, name, n - 1) {
      k := n - 1;
    } else {
      k := FirstOutcome(buffers, packets, name, n - 1);
    }
  }

  // ------------------------------------------------------------------
  // From the sender to the receiver
  // ------------------------------------------------------------------

  /** The program is sent again and again: each time all its pieces, each stamped with the clock of its moment. */
  ghost predicate Sendings(sent: seq<seq<Chunk>>, name: string, pieces: seq<string>) {
    forall k :: 0 <= k < |sent| ==> Sending(sent[k], name, pieces)
  }

  ghost predicate Sending(packets: seq<Chunk>, name: string, pieces: seq<string>) {
    exists h: Head, clock: seq<nat> :: h.fileName == name && Chunked(packets, h, pieces, clock)
  }

  /** Whatever arrives under the program's name is one of the sender's packets. */
  predicate FromSender(arrivals: seq<Chunk>, sent: seq<seq<Chunk>>, name: string) {
    forall i :: 0 <= i < |arrivals| && arrivals[i].head.fileName == name ==>
      exists k :: 0 <= k < |sent| && arrivals[i] in sent[k]
  }

  /** Every piece arrives, from one sending or another. */
  ghost predicate AllArrive(arrivals: seq<Chunk>, sent: seq<seq<Chunk>>, n: nat) {
    forall x: nat :: x < n ==> PieceArrives(arrivals, sent, x)
  }

  ghost predicate PieceArrives(arrivals: seq<Chunk>, sent: seq<seq<Chunk>>, x: nat) {
    exists k :: 0 <= k < |sent| && x < |sent[k]| && sent[k][x] in arrivals
  }

  lemma SendingPiece(packets: seq<Chunk>, name: string, pieces: seq<string>, x: nat)
    requires Sending(packets, name, pieces) && x < |packets|
    ensures packets[x].head.fileName == name && packets[x].index == x && OfVersion(packets[x], pieces)
  {
    var h: Head, clock: seq<nat> :| h.fileName == name && Chunked(packets, h, pieces, clock);
    assert packets[x] == Chunk(h, clock[x], x, |pieces|, pieces[x]);
  }

  lemma SenderVersion(arrivals: seq<Chunk>, sent: seq<seq<Chunk>>, name: string, pieces: seq<string>)
    requires Sendings(sent, name, pieces) && FromSender(arrivals, sent, name)
    ensures OneVersion(arrivals, name, pieces)
  {
    forall i | 0 <= i < |arrivals| && arrivals[i].head.fileName == name ensures OfVersion(arrivals[i], pieces) {
      var k :| 0 <= k < |sent| && arrivals[i] in sent[k];
      var x :| 0 <= x < |sent[k]| && sent[k][x] == arrivals[i];
      SendingPiece(sent[k], name, pieces, x);
    }
  }

  lemma PieceArrived(arrivals: seq<Chunk>, sent: seq<seq<Chunk>>, name: string, pieces: seq<string>, x: nat)
    requires Sendings(sent, name, pieces) && PieceArrives(arrivals, sent, x)
    ensures x in Arrived(arrivals, name)
  {
    var k :| 0 <= k < |sent| && x < |sent[k]| && sent[k][x] in arrivals;
    SendingPiece(sent[k], name, pieces, x);
    var i :| 0 <= i < |arrivals| && arrivals[i] == sent[k][x];
  }

  lemma SenderComplete(arrivals: seq<Chunk>, sent: seq<seq<Chunk>>, name: string, pieces: seq<string>)
    requires Sendings(sent, name, pieces) && OneVersion(arrivals, name, pieces)
    requires AllArrive(arrivals, sent, |pieces|)
    ensures Arrived(arrivals, name) == Numbers(|pieces|)
  {
    forall x: nat | x < |pieces| ensures x in Arrived(arrivals, name) {
      PieceArrived(arrivals, sent, name, pieces, x);
    }
  }

  /** The program sent is the program received: when all pieces of a program arrive, from however many sendings, in
      any order, with duplicates and among packets of other files, one packet yields exactly the content that was cut
      and none before it anything; and no later one yields anything else. */
  lemma ProgramDelivered(sent: seq<seq<Chunk>>, name: string, pieces: seq<string>, content: string,
                         arrivals: seq<Chunk>, buffers: Buffers)
    requires Sendings(sent, name, pieces) && pieces != [] && Join(pieces) == content
    requires Pure(buffers, name, pieces) && FromSender(arrivals, sent, name) && AllArrive(arrivals, sent, |pieces|)
    ensures exists k :: 0 <= k < |arrivals| && arrivals[k].head.fileName == name
                        && OutcomeAt(buffers, arrivals, k) == Complete(content)
                        && NothingYet(buffers, arrivals, name, k)
    ensures forall j :: 0 <= j < |arrivals| && arrivals[j].head.fileName == name ==>
              OutcomeAt(buffers, arrivals, j) == Waiting || OutcomeAt(buffers, arrivals, j) == Complete(content)
  {
    SenderVersion(arrivals, sent, name, pieces);
    SenderComplete(arrivals, sent, name, pieces);
    RebuildsContent(buffers, arrivals, name, pieces);
    var k :| 0 <= k < |arrivals| && CompletesAt(buffers, arrivals, name, pieces, k);
    forall j | 0 <= j < |arrivals| && arrivals[j].head.fileName == name
      ensures Sound(OutcomeAt(buffers, arrivals, j), pieces)
    {
      NeverWrong(buffers, arrivals, name, pieces, j);
    }
  }
}
