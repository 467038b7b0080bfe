/** What a buffer left over from another version of a file does to the next one (examples/udp_receiver.py,
    `_print_gcode_summary`): exactly which leftovers a program survives. */
module GcodeLeftovers {
  import opened Wrappers
  import opened GcodeSplit
  import opened GcodePacket
  import opened GcodeReceive

  /** Starting from these buffers, packets of this version of the file never lead to anything but waiting or its
      content, and once all its pieces have arrived, the content has come out. */
  ghost predicate Delivers(buffers: Buffers, name: string, pieces: seq<string>) {
    forall packets :: OneVersion(packets, name, pieces) ==>
      AllSound(buffers, packets, name, pieces) && Yields(buffers, packets, name, pieces)
  }

  ghost predicate AllSound(buffers: Buffers, packets: seq<Chunk>, name: string, pieces: seq<string>) {
    forall j :: 0 <= j < |packets| && packets[j].head.fileName == name ==> Sound(OutcomeAt(buffers, packets, j), pieces)
  }

  ghost predicate Yields(buffers: Buffers, packets: seq<Chunk>, name: string, pieces: seq<string>) {
    Arrived(packets, name) == Numbers(|pieces|) ==>
      exists j :: 0 <= j < |packets| && packets[j].head.fileName == name
                  && OutcomeAt(buffers, packets, j) == Complete(Join(pieces))
  }

  /** No piece number beyond the program, and no piece of another version -- but for a program of one piece, whose only
      packet overwrites what is there. */
  predicate Harmless(chunks: map<nat, string>, pieces: seq<string>) {
    && (forall i :: i in chunks ==> i < |pieces|)
    && (|pieces| == 1 || AllOf(chunks, pieces))
  }

  // ------------------------------------------------------------------
  // Harmless leftovers
  // ------------------------------------------------------------------

  predicate OnlyFirst(chunks: map<nat, string>) { forall i :: i in chunks ==> i == 0 }

  /** The one packet of a one-piece program. */
  lemma OnePiece(buffers: Buffers, c: Chunk, name: string, pieces: seq<string>)
    requires |pieces| == 1 && OnlyFirst(ChunksOf(buffers, name)) && c.head.fileName == name && OfVersion(c, pieces)
    ensures var (buffers', outcome) := Receive(buffers, c); outcome == Complete(Join(pieces)) && name !in buffers'
  {
    var held := ChunksOf(buffers, name);
    assert held[0 := pieces[0]] == map[][0 := pieces[0]];
    OneMore(map[], c, name, {}, pieces);
    assert {} + {c.index} == Numbers(1);
  }

  lemma OnePieceStep(buffers: Buffers, c: Chunk, name: string, pieces: seq<string>)
    requires |pieces| == 1 && OnlyFirst(ChunksOf(buffers, name)) && (c.head.fileName == name ==> OfVersion(c, pieces))
    ensures OnlyFirst(ChunksOf(Receive(buffers, c).0, name))
  {
    if c.head.fileName == name {
      OnePiece(buffers, c, name, pieces);
    } else {
      OtherFile(buffers, c, name);
    }
  }

  lemma OnePieceMore(buffers: Buffers, packets: seq<Chunk>, name: string, pieces: seq<string>, n: nat)
    requires |pieces| == 1 && OneVersion(packets, name, pieces) && n < |packets|
    requires OnlyFirst(ChunksOf(Run(buffers, packets[..n]), name))
    ensures OnlyFirst(ChunksOf(Run(buffers, packets[..n + 1]), name))
  {
    RunStep(buffers, packets, n);
    OnePieceStep(Run(buffers, packets[..n]), packets[n], name, pieces);
  }

  lemma {:induction false} OnePieceRun(buffers: Buffers, packets: seq<Chunk>, name: string, pieces: seq<string>, n: nat)
    requires |pieces| == 1 && OnlyFirst(ChunksOf(buffers, name)) && OneVersion(packets, name, pieces)
    requires n <= |packets|
    ensures OnlyFirst(ChunksOf(Run(buffers, packets[..n]), name))
  {
    if n > 0 {
      OnePieceRun(buffers, packets, name, pieces, n - 1);
      OnePieceMore(buffers, packets, name, pieces, n - 1);
    }
  }

  lemma OnePieceDelivered(buffers: Buffers, name: string, pieces: seq<string>, packets: seq<Chunk>)
    requires |pieces| == 1 && OnlyFirst(ChunksOf(buffers, name)) && OneVersion(packets, name, pieces)
    ensures AllSound(buffers, packets, name, pieces) && Yields(buffers, packets, name, pieces)
  {
    forall j | 0 <= j < |packets| && packets[j].head.fileName == name
      ensures OutcomeAt(buffers, packets, j) == Complete(Join(pieces))
    {
      OnePieceRun(buffers, packets, name, pieces, j);
      OnePiece(Run(buffers, packets[..j]), packets[j], name, pieces);
    }
    if Arrived(packets, name) == Numbers(1) {
      assert 0 in Arrived(packets, name);
    }
  }

  lemma PureDelivered(buffers: Buffers, name: string, pieces: seq<string>, packets: seq<Chunk>)
    requires pieces != [] && Pure(buffers, name, pieces) && OneVersion(packets, name, pieces)
    ensures AllSound(buffers, packets, name, pieces) && Yields(buffers, packets, name, pieces)
  {
    forall j | 0 <= j < |packets| && packets[j].head.fileName == name
      ensures Sound(OutcomeAt(buffers, packets, j), pieces)
    {
      NeverWrong(buffers, packets, name, pieces, j);
    }
    if Arrived(packets, name) == Numbers(|pieces|) {
      RebuildsContent(buffers, packets, name, pieces);
      var k :| 0 <= k < |packets| && CompletesAt(buffers, packets, name, pieces, k);
    }
  }

  // ------------------------------------------------------------------
  // A piece number beyond the program
  // ------------------------------------------------------------------

  const NO_HEAD := Head(1, "", "", 0, 0, "")

  function PieceOf(name: string, pieces: seq<string>, x: nat): Chunk
    requires x < |pieces|
  {
    Chunk(NO_HEAD.(fileName := name), 0, x, |pieces|, pieces[x])
  }

  /** The packets of the first `n` pieces, but for those in `skip`. */
  function Others(name: string, pieces: seq<string>, skip: set<nat>, n: nat): seq<Chunk>
    requires n <= |pieces|
  {
    if n == 0 then []
    else if n - 1 in skip then Others(name, pieces, skip, n - 1)
    else Others(name, pieces, skip, n - 1) + [PieceOf(name, pieces, n - 1)]
  }

  /** All packets of a file, and of one version. */
  predicate Only(packets: seq<Chunk>, name: string, pieces: seq<string>) {
    forall j :: 0 <= j < |packets| ==> packets[j].head.fileName == name && OfVersion(packets[j], pieces)
  }

  lemma OnlyMore(packets: seq<Chunk>, c: Chunk, name: string, pieces: seq<string>)
    requires Only(packets, name, pieces) && c.head.fileName == name && OfVersion(c, pieces)
    ensures Only(packets + [c], name, pieces)
  {
  }

  lemma {:induction false} OthersAre(name: string, pieces: seq<string>, skip: set<nat>, n: nat)
    requires n <= |pieces|
    ensures Only(Others(name, pieces, skip, n), name, pieces)
    ensures forall x: nat :: x < n && x !in skip ==> x in Arrived(Others(name, pieces, skip, n), name)
  {
    if n > 0 {
      OthersAre(name, pieces, skip, n - 1);
      var init, packets := Others(name, pieces, skip, n - 1), Others(name, pieces, skip, n);
      if n - 1 !in skip {
        var c := PieceOf(name, pieces, n - 1);
        assert packets == init + [c];
        OnlyMore(init, c, name, pieces);
        ArrivedStep(packets, name);
        assert packets[..|packets| - 1] == init;
      }
    }
  }

  /** A piece number beyond the program stays: the file never comes out. */
  lemma BeyondStays(buffers: Buffers, c: Chunk, name: string, pieces: seq<string>, x: nat)
    requires x in ChunksOf(buffers, name) && x >= |pieces| && c.head.fileName == name && OfVersion(c, pieces)
    ensures !Receive(buffers, c).1.Complete? && x in ChunksOf(Receive(buffers, c).0, name)
  {
    var chunks := ChunksOf(buffers, name)[c.index := c.content];
    if Numbers(|pieces|) <= chunks.Keys {
      MoreThan(chunks.Keys, |pieces|, x);
      assert |chunks| == |chunks.Keys|;
    }
  }

  lemma MoreThan(s: set<nat>, n: nat, x: nat)
    requires Numbers(n) <= s && x in s && x >= n
    ensures |s| > n
  {
    NumbersSize(n);
    OneLarger(Numbers(n), x);
    assert s == Numbers(n) + {x} + (s - (Numbers(n) + {x}));
    assert |s| == |Numbers(n) + {x}| + |s - (Numbers(n) + {x})|;
  }

  lemma {:induction false} NeverComplete(buffers: Buffers, packets: seq<Chunk>, name: string, pieces: seq<string>,
                                         x: nat, n: nat)
    requires x in ChunksOf(buffers, name) && x >= |pieces| && Only(packets, name, pieces) && n <= |packets|
    ensures x in ChunksOf(Run(buffers, packets[..n]), name)
    ensures n < |packets| ==> !OutcomeAt(buffers, packets, n).Complete?
  {
    if n > 0 {
      NeverComplete(buffers, packets, name, pieces, x, n - 1);
      RunStep(buffers, packets, n - 1);
      BeyondStays(Run(buffers, packets[..n - 1]), packets[n - 1], name, pieces, x);
    }
    if n < |packets| {
      BeyondStays(Run(buffers, packets[..n]), packets[n], name, pieces, x);
    }
  }

  lemma BeyondBreaks(buffers: Buffers, name: string, pieces: seq<string>, x: nat)
    requires x in ChunksOf(buffers, name) && x >= |pieces|
    ensures !Delivers(buffers, name, pieces)
  {
    var packets := Others(name, pieces, {}, |pieces|);
    OthersAre(name, pieces, {}, |pieces|);
    assert Arrived(packets, name) == Numbers(|pieces|);
    forall j | 0 <= j < |packets| ensures !OutcomeAt(buffers, packets, j).Complete? {
      NeverComplete(buffers, packets, name, pieces, x, j);
    }
    assert OneVersion(packets, name, pieces) && !Yields(buffers, packets, name, pieces);
  }

  // ------------------------------------------------------------------
  // A piece of another version
  // ------------------------------------------------------------------

  function Length(chunks: map<nat, string>, n: nat): nat
    requires Numbers(n) <= chunks.Keys
  {
    if n == 0 then 0 else
      assert n - 1 in Numbers(n);
      Length(chunks, n - 1) + |chunks[n - 1]|
  }

  lemma {:induction false} AssembleLength(chunks: map<nat, string>, n: nat)
    requires Numbers(n) <= chunks.Keys
    ensures |Assemble(chunks, n)| == Length(chunks, n)
  {
    if n > 0 {
      AssembleLength(chunks, n - 1);
    }
  }

  /** Replacing one piece changes the length by the difference of the two. */
  lemma {:induction false} LengthReplaced(chunks: map<nat, string>, n: nat, x: nat, t: string)
    requires Numbers(n) <= chunks.Keys && x in chunks
    ensures Numbers(n) <= chunks[x := t].Keys
    ensures Length(chunks[x := t], n) == Length(chunks, n) + if x < n then |t| - |chunks[x]| else 0
  {
    if n > 0 {
      LengthReplaced(chunks, n - 1, x, t);
    }
  }

  lemma {:induction false} LengthsDiffer(a: map<nat, string>, b: map<nat, string>, n: nat, d: int)
    requires Numbers(n) <= a.Keys && Numbers(n) <= b.Keys && forall k: nat :: k < n ==> |a[k]| - |b[k]| == d
    ensures Length(a, n) - Length(b, n) == n * d
  {
    if n > 0 {
      LengthsDiffer(a, b, n - 1, d);
    }
  }

  lemma SplitEqual(a: string, b: string, c: string, d: string)
    requires a + b == c + d && |b| == |d|
    ensures a == c && b == d
  {
    assert a == (a + b)[..|a|] && c == (c + d)[..|c|];
    assert b == (a + b)[|a|..] && d == (c + d)[|c|..];
  }

  /** Pieces of the same lengths that make up the same text are the same. */
  lemma {:induction false} SamePieces(a: map<nat, string>, b: map<nat, string>, n: nat)
    requires Numbers(n) <= a.Keys && Numbers(n) <= b.Keys && forall k: nat :: k < n ==> |a[k]| == |b[k]|
    requires Assemble(a, n) == Assemble(b, n)
    ensures forall k: nat :: k < n ==> a[k] == b[k]
  {
    if n > 0 {
      SplitEqual(Assemble(a, n - 1), a[n - 1], Assemble(b, n - 1), b[n - 1]);
      SamePieces(a, b, n - 1);
    }
  }

  function Whole(pieces: seq<string>): map<nat, string> { map x | x in Numbers(|pieces|) :: pieces[x] }

  lemma WholeJoins(pieces: seq<string>)
    ensures Numbers(|pieces|) <= Whole(pieces).Keys && Assemble(Whole(pieces), |pieces|) == Join(pieces)
  {
    AssembleJoins(Whole(pieces), pieces, |pieces|);
    assert pieces[..|pieces|] == pieces;
  }

  /** With one piece replaced the text is the content only if the piece is the same. */
  lemma OneReplaced(pieces: seq<string>, x: nat, t: string)
    requires x < |pieces|
    ensures Numbers(|pieces|) <= Whole(pieces)[x := t].Keys
    ensures Assemble(Whole(pieces)[x := t], |pieces|) == Join(pieces) ==> t == pieces[x]
  {
    var n, whole := |pieces|, Whole(pieces);
    WholeJoins(pieces);
    LengthReplaced(whole, n, x, t);
    AssembleLength(whole, n);
    AssembleLength(whole[x := t], n);
    if Assemble(whole[x := t], n) == Join(pieces) {
      SamePieces(whole[x := t], whole, n);
    }
  }

  predicate GivesContent(chunks: map<nat, string>, pieces: seq<string>) {
    Numbers(|pieces|) <= chunks.Keys && Assemble(chunks, |pieces|) == Join(pieces)
  }

  /** If replacing any one piece of a full buffer gives the content, the buffer held its pieces. */
  lemma AnyReplaced(chunks: map<nat, string>, pieces: seq<string>)
    requires chunks.Keys == Numbers(|pieces|) && |pieces| >= 2
    requires forall x :: x in Numbers(|pieces|) ==> GivesContent(chunks[x := pieces[x]], pieces)
    ensures AllOf(chunks, pieces)
  {
    var n, whole := |pieces|, Whole(pieces);
    var d := Length(whole, n) - Length(chunks, n);
    forall x: nat | x < n ensures |whole[x]| - |chunks[x]| == d {
      ReplacedLength(chunks, pieces, x);
    }
    LengthsDiffer(whole, chunks, n, d);
    NoDifference(n, d);
    forall k | k in chunks ensures chunks[k] == pieces[k] {
      var x := if k == 0 then 1 else 0;
      ReplacedSame(chunks, pieces, x);
    }
  }

  lemma NoDifference(n: nat, d: int)
    requires n >= 2 && d == n * d
    ensures d == 0
  {
    assert (n - 1) * d == 0;
  }

  lemma ReplacedLength(chunks: map<nat, string>, pieces: seq<string>, x: nat)
    requires chunks.Keys == Numbers(|pieces|) && x < |pieces|
    requires GivesContent(chunks[x := pieces[x]], pieces)
    ensures Numbers(|pieces|) <= Whole(pieces).Keys
    ensures |pieces[x]| - |chunks[x]| == Length(Whole(pieces), |pieces|) - Length(chunks, |pieces|)
  {
    WholeJoins(pieces);
    AssembleLength(Whole(pieces), |pieces|);
    AssembleLength(chunks[x := pieces[x]], |pieces|);
    LengthReplaced(chunks, |pieces|, x, pieces[x]);
  }

  lemma ReplacedSame(chunks: map<nat, string>, pieces: seq<string>, x: nat)
    requires chunks.Keys == Numbers(|pieces|) && x < |pieces| && forall k :: k in chunks ==> |chunks[k]| == |pieces[k]|
    requires GivesContent(chunks[x := pieces[x]], pieces)
    ensures forall k :: k in chunks && k != x ==> chunks[k] == pieces[k]
  {
    WholeJoins(pieces);
    SamePieces(chunks[x := pieces[x]], Whole(pieces), |pieces|);
    forall k | k in chunks && k != x ensures chunks[k] == pieces[k] {
      assert chunks[x := pieces[x]][k] == Whole(pieces)[k];
    }
  }

  /** A complete set of pieces is judged by the text it makes. */
  lemma CompleteJudged(chunks: map<nat, string>, pieces: seq<string>)
    requires chunks.Keys == Numbers(|pieces|)
    ensures Judged(chunks, |pieces|) == Complete(Assemble(chunks, |pieces|))
  {
    NumbersSize(|pieces|);
    assert |chunks| == |chunks.Keys|;
  }

  /** A full buffer of another version: the next packet, whichever arrives, completes it. */
  lemma FullBreaks(buffers: Buffers, name: string, pieces: seq<string>)
    requires |pieces| >= 2 && ChunksOf(buffers, name).Keys == Numbers(|pieces|)
    requires !AllOf(ChunksOf(buffers, name), pieces)
    ensures !Delivers(buffers, name, pieces)
  {
    var chunks := ChunksOf(buffers, name);
    if forall x :: x in Numbers(|pieces|) ==> GivesContent(chunks[x := pieces[x]], pieces) {
      AnyReplaced(chunks, pieces);
    }
    var x :| x in Numbers(|pieces|) && !GivesContent(chunks[x := pieces[x]], pieces);
    var packets := [PieceOf(name, pieces, x)];
    CompleteJudged(chunks[x := pieces[x]], pieces);
    assert packets[..0] == [];
    assert !Sound(OutcomeAt(buffers, packets, 0), pieces);
    assert OneVersion(packets, name, pieces) && !AllSound(buffers, packets, name, pieces);
  }

  /** The buffer once the packets of the first `n` pieces have arrived, but for those in `skip`. */
  function Overlay(chunks: map<nat, string>, pieces: seq<string>, skip: set<nat>, n: nat): map<nat, string>
    requires n <= |pieces|
  {
    map x | x in chunks.Keys + (Numbers(n) - skip) :: if x < n && x !in skip then pieces[x] else chunks[x]
  }

  lemma OverlayStep(chunks: map<nat, string>, pieces: seq<string>, skip: set<nat>, n: nat)
    requires 0 < n <= |pieces|
    ensures Overlay(chunks, pieces, skip, n)
         == if n - 1 in skip then Overlay(chunks, pieces, skip, n - 1)
            else Overlay(chunks, pieces, skip, n - 1)[n - 1 := pieces[n - 1]]
  {
  }

  /** While a piece is missing, packets only fill the buffer. */
  lemma StillWaiting(buffers: Buffers, c: Chunk, name: string, pieces: seq<string>, m: nat, held: map<nat, string>)
    requires c.head.fileName == name && OfVersion(c, pieces) && c.index != m < |pieces|
    requires ChunksOf(buffers, name) == held && held.Keys <= Numbers(|pieces|) - {m}
    ensures ChunksOf(Receive(buffers, c).0, name) == held[c.index := c.content]
  {
    var chunks := held[c.index := c.content];
    AllArrived(chunks.Keys, |pieces|);
    assert |chunks| == |chunks.Keys| && m !in chunks.Keys && m in Numbers(|pieces|);
  }

  lemma OverlayKeys(chunks: map<nat, string>, pieces: seq<string>, skip: set<nat>, m: nat, n: nat)
    requires n <= |pieces| && m in skip && chunks.Keys <= Numbers(|pieces|) - {m}
    ensures Overlay(chunks, pieces, skip, n).Keys <= Numbers(|pieces|) - {m}
  {
  }

  lemma RunMore(buffers: Buffers, packets: seq<Chunk>, c: Chunk)
    ensures Run(buffers, packets + [c]) == Receive(Run(buffers, packets), c).0
  {
    assert (packets + [c])[..|packets|] == packets;
  }

  lemma OthersMore(buffers: Buffers, init: seq<Chunk>, name: string, pieces: seq<string>, m: nat, x: nat,
                   held: map<nat, string>)
    requires ChunksOf(Run(buffers, init), name) == held && held.Keys <= Numbers(|pieces|) - {m}
    requires x < |pieces| && x != m && m < |pieces|
    ensures ChunksOf(Run(buffers, init + [PieceOf(name, pieces, x)]), name) == held[x := pieces[x]]
  {
    var before, c := Run(buffers, init), PieceOf(name, pieces, x);
    StillWaiting(before, c, name, pieces, m, held);
    RunMore(buffers, init, c);
  }

  lemma {:induction false} OthersRun(buffers: Buffers, name: string, pieces: seq<string>, skip: set<nat>, m: nat,
                                     n: nat)
    requires n <= |pieces| && m in skip && m < |pieces| && ChunksOf(buffers, name).Keys <= Numbers(|pieces|) - {m}
    ensures ChunksOf(Run(buffers, Others(name, pieces, skip, n)), name)
         == Overlay(ChunksOf(buffers, name), pieces, skip, n)
  {
    var chunks := ChunksOf(buffers, name);
    if n == 0 {
      assert Overlay(chunks, pieces, skip, 0) == chunks;
    } else {
      OthersRun(buffers, name, pieces, skip, m, n - 1);
      OverlayStep(chunks, pieces, skip, n);
      if n - 1 !in skip {
        OverlayKeys(chunks, pieces, skip, m, n - 1);
        OthersMore(buffers, Others(name, pieces, skip, n - 1), name, pieces, m, n - 1,
                   Overlay(chunks, pieces, skip, n - 1));
      }
    }
  }

  lemma OverlayAll(chunks: map<nat, string>, pieces: seq<string>, i: nat, m: nat)
    requires chunks.Keys <= Numbers(|pieces|) - {m} && i in chunks && m < |pieces|
    ensures Overlay(chunks, pieces, {i, m}, |pieces|)[m := pieces[m]] == Whole(pieces)[i := chunks[i]]
  {
  }

  /** A wrong piece among the right number of places: the other pieces arrive, and the missing one completes it. */
  lemma PartBreaks(buffers: Buffers, name: string, pieces: seq<string>, i: nat, m: nat)
    requires m < |pieces| && ChunksOf(buffers, name).Keys <= Numbers(|pieces|) - {m}
    requires i in ChunksOf(buffers, name) && ChunksOf(buffers, name)[i] != pieces[i]
    ensures !Delivers(buffers, name, pieces)
  {
    var chunks, init, c := ChunksOf(buffers, name), Others(name, pieces, {i, m}, |pieces|), PieceOf(name, pieces, m);
    var packets := init + [c];
    OthersAre(name, pieces, {i, m}, |pieces|);
    OnlyMore(init, c, name, pieces);
    OthersRun(buffers, name, pieces, {i, m}, m, |pieces|);
    OverlayAll(chunks, pieces, i, m);
    assert packets[..|init|] == init;
    CompleteJudged(Whole(pieces)[i := chunks[i]], pieces);
    OneReplaced(pieces, i, chunks[i]);
    assert !Sound(OutcomeAt(buffers, packets, |init|), pieces);
    assert OneVersion(packets, name, pieces) && !AllSound(buffers, packets, name, pieces);
  }

  /** For every leftover: the program is received as it was sent, in whatever order and however often its packets
      arrive, if and only if the leftover is harmless. */
  lemma DeliversIff(buffers: Buffers, name: string, pieces: seq<string>)
    requires pieces != []
    ensures Delivers(buffers, name, pieces) <==> Harmless(ChunksOf(buffers, name), pieces)
  {
    var chunks := ChunksOf(buffers, name);
    if Harmless(chunks, pieces) {
      forall packets | OneVersion(packets, name, pieces)
        ensures AllSound(buffers, packets, name, pieces) && Yields(buffers, packets, name, pieces)
      {
        if |pieces| == 1 {
          OnePieceDelivered(buffers, name, pieces, packets);
        } else {
          PureDelivered(buffers, name, pieces, packets);
        }
      }
    } else if x :| x in chunks && x >= |pieces| {
      BeyondBreaks(buffers, name, pieces, x);
    } else if chunks.Keys == Numbers(|pieces|) {
      FullBreaks(buffers, name, pieces);
    } else {
      var i :| i in chunks && chunks[i] != pieces[i];
      assert chunks.Keys <= Numbers(|pieces|);
      var m :| m in Numbers(|pieces|) && m !in chunks;
      PartBreaks(buffers, name, pieces, i, m);
    }
  }

  /** A program of two pieces is changed after one of them has arrived: the file that comes out is neither. */
  lemma MixedVersions()
    ensures var first, second := ["a", "b"], ["c", "d"];
            var packets := [PieceOf("f", first, 0), PieceOf("f", second, 1)];
            OutcomeAt(map[], packets, 1) == Complete("ad")
  {
    var first, second := ["a", "b"], ["c", "d"];
    var packets := [PieceOf("f", first, 0), PieceOf("f", second, 1)];
    RunStep(map[], packets, 0);
    assert packets[..0] == [];
    var chunks := map[0 := "a", 1 := "d"];
    assert ChunksOf(Run(map[], packets[..1]), "f") == map[0 := "a"];
    assert map[0 := "a"][1 := "d"] == chunks;
    assert chunks.Keys == Numbers(2);
    CompleteJudged(chunks, second);
    assert Assemble(chunks, 2) == Assemble(chunks, 1) + "d" && Assemble(chunks, 1) == Assemble(chunks, 0) + "a";
  }
}
