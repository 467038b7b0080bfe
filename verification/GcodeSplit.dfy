/** Cutting a program into packets (agent_gcode.py, `split_content` and `_stream`). */
module GcodeSplit {
  import opened Wrappers
  import opened JsonText

  /** The JSON form of the piece, quotes included, is within the budget. */
  predicate Fits(piece: string, budget: int) { Cost(piece) + 2 <= budget }

  function Join(pieces: seq<string>): string {
    if pieces == [] then "" else Join(pieces[..|pieces| - 1]) + pieces[|pieces| - 1]
  }

  /** What the budget is a budget of: the bytes of the piece's JSON form on the wire. */
  predicate WithinBytes(piece: string, budget: int) { |Encode(Dumps(piece))| <= budget }

  /** Any way of cutting the content that the network and the dashboard would accept. */
  ghost predicate Cutting(pieces: seq<string>, content: string, budget: int, maxChars: int) {
    && Join(pieces) == content
    && forall i :: 0 <= i < |pieces| ==> |pieces[i]| <= maxChars && WithinBytes(pieces[i], budget)
  }

  lemma FitsMeans(piece: string, budget: int)
    ensures Fits(piece, budget) <==> WithinBytes(piece, budget)
  {
    DumpsSize(piece);
  }

  lemma AllFitMeans(pieces: seq<string>, budget: int)
    ensures AllFit(pieces, budget) <==> forall i :: 0 <= i < |pieces| ==> WithinBytes(pieces[i], budget)
  {
    forall i | 0 <= i < |pieces| ensures Fits(pieces[i], budget) <==> WithinBytes(pieces[i], budget) {
      FitsMeans(pieces[i], budget);
    }
  }

  function Min(a: int, b: int): int { if a < b then a else b }

  predicate RangeFits(content: string, i: nat, j: nat, budget: int)
    requires i <= j <= |content|
  {
    Fits(content[i..j], budget)
  }

  /** content[i..j] is the longest allowed piece at i (one character when not even that fits). */
  ghost predicate Longest(content: string, i: nat, j: nat, budget: int, maxChars: int) {
    && i < j <= Min(i + maxChars, |content|)
    && (j == i + 1 || RangeFits(content, i, j, budget))
    && forall k: nat :: j < k <= Min(i + maxChars, |content|) ==> !RangeFits(content, i, k, budget)
  }

  /** The pieces cut content[..pos], each as long as allowed. */
  ghost predicate Greedy(pieces: seq<string>, content: string, pos: nat, budget: int, maxChars: int) {
    if pieces == [] then pos == 0 <= |content|
    else
      var last := pieces[|pieces| - 1];
      var start := pos - |last|;
      && 0 <= start && pos <= |content| && last == content[start..pos]
      && Longest(content, start, pos, budget, maxChars)
      && Greedy(pieces[..|pieces| - 1], content, start, budget, maxChars)
  }

  /** A part of a fitting piece fits. */
  lemma RangeShrinks(content: string, i: nat, j: nat, i': nat, j': nat, budget: int)
    requires i <= i' <= j' <= j <= |content| && RangeFits(content, i, j, budget)
    ensures RangeFits(content, i', j', budget)
  {
    var head, part, rest := content[i..i'], content[i'..j'], content[j'..j];
    assert content[i..j'] == head + part;
    CostConcat(head, part);
    assert content[i..j] == content[i..j'] + rest;
    CostConcat(content[i..j'], rest);
  }

  // ------------------------------------------------------------------
  // The loop
  // ------------------------------------------------------------------

  /** How long the piece at `pos` may be: all that is allowed if it fits, else the most that does, by bisection. */
  method LargestFitting(content: string, pos: nat, budget: int, maxChars: int) returns (take: nat)
    requires maxChars >= 1 && pos < |content|
    ensures Longest(content, pos, pos + take, budget, maxChars)
  {
    take := Min(maxChars, |content| - pos);
    if !RangeFits(content, pos, pos + take, budget) {
      var lo, hi := 1, take - 1;
      while lo < hi
        invariant 1 <= lo && (lo <= hi < take || (take == 1 && lo == 1 && hi == 0))
        invariant lo == 1 || RangeFits(content, pos, pos + lo, budget)
        invariant forall k: nat :: pos + hi < k <= pos + take ==> !RangeFits(content, pos, k, budget)
      {
        var mid := (lo + hi + 1) / 2;
        if RangeFits(content, pos, pos + mid, budget) {
          lo := mid;
        } else {
          forall k: nat | pos + mid <= k <= pos + take ensures !RangeFits(content, pos, k, budget) {
            if RangeFits(content, pos, k, budget) {
              RangeShrinks(content, pos, k, pos, pos + mid, budget);
            }
          }
          hi := mid - 1;
        }
      }
      take := lo;
    }
  }

  /** `split_content`. The empty program is one empty piece. */
  method SplitContent(content: string, budget: int, maxChars: int) returns (pieces: seq<string>)
    requires maxChars >= 1
    ensures content == "" ==> pieces == [""]
    ensures content != "" ==> Greedy(pieces, content, |content|, budget, maxChars)
  {
    pieces := [];
    var pos := 0;
    while pos < |content|
      invariant pos <= |content| && Greedy(pieces, content, pos, budget, maxChars)
    {
      var take := LargestFitting(content, pos, budget, maxChars);
      assert (pieces + [content[pos..pos + take]])[..|pieces|] == pieces;
      pieces := pieces + [content[pos..pos + take]];
      pos := pos + take;
    }
    if pieces == [] {
      pieces := [""];
    }
  }

  // ------------------------------------------------------------------
  // What the greedy cutting is worth
  // ------------------------------------------------------------------

  predicate CharFits(c: char, budget: int) { Fits([c], budget) }

  lemma PieceFits(content: string, i: nat, j: nat, budget: int, maxChars: int)
    requires Longest(content, i, j, budget, maxChars)
    ensures RangeFits(content, i, j, budget) <==> forall k :: i <= k < j ==> CharFits(content[k], budget)
  {
    if RangeFits(content, i, j, budget) {
      forall k | i <= k < j ensures CharFits(content[k], budget) {
        RangeShrinks(content, i, j, k, k + 1, budget);
        assert content[k..k + 1] == [content[k]];
      }
    } else {
      assert content[i..i + 1] == [content[i]];
      assert !CharFits(content[i], budget);
    }
  }

  lemma Glue(s: string, i: nat, j: nat)
    requires i <= j <= |s|
    ensures s[..i] + s[i..j] == s[..j]
  {
  }

  /** The last greedy piece, and what is before it. */
  lemma GreedyLast(pieces: seq<string>, content: string, pos: nat, budget: int, maxChars: int)
    requires pieces != [] && Greedy(pieces, content, pos, budget, maxChars)
    ensures var n := |pieces| - 1; var start := pos - |pieces[n]|;
            && 0 <= start < pos <= |content| && pieces[n] == content[start..pos]
            && Longest(content, start, pos, budget, maxChars)
            && Greedy(pieces[..n], content, start, budget, maxChars)
  {
  }

  lemma Joined(pieces: seq<string>, content: string, start: nat, pos: nat)
    requires pieces != [] && start <= pos <= |content| && pieces[|pieces| - 1] == content[start..pos]
    requires Join(pieces[..|pieces| - 1]) == content[..start]
    ensures Join(pieces) == content[..pos]
  {
    Glue(content, start, pos);
  }

  lemma {:induction false} GreedyJoins(pieces: seq<string>, content: string, pos: nat, budget: int, maxChars: int)
    requires Greedy(pieces, content, pos, budget, maxChars)
    ensures pos <= |content| && Join(pieces) == content[..pos]
    decreases pieces
  {
    if pieces != [] {
      var n := |pieces| - 1;
      GreedyLast(pieces, content, pos, budget, maxChars);
      GreedyJoins(pieces[..n], content, pos - |pieces[n]|, budget, maxChars);
      Joined(pieces, content, pos - |pieces[n]|, pos);
    }
  }

  lemma {:induction false} GreedyLengths(pieces: seq<string>, content: string, pos: nat, budget: int, maxChars: int)
    requires Greedy(pieces, content, pos, budget, maxChars)
    ensures forall i :: 0 <= i < |pieces| ==> 1 <= |pieces[i]| <= maxChars
  {
    if pieces != [] {
      var n := |pieces| - 1;
      GreedyLengths(pieces[..n], content, pos - |pieces[n]|, budget, maxChars);
      assert forall i :: 0 <= i < n ==> pieces[..n][i] == pieces[i];
    }
  }

  predicate AllFit(pieces: seq<string>, budget: int) {
    forall i :: 0 <= i < |pieces| ==> Fits(pieces[i], budget)
  }

  predicate AllCharsFit(content: string, budget: int) {
    forall i :: 0 <= i < |content| ==> CharFits(content[i], budget)
  }

  lemma {:induction false} GreedyFits(pieces: seq<string>, content: string, pos: nat, budget: int, maxChars: int)
    requires Greedy(pieces, content, pos, budget, maxChars) && pos <= |content|
    ensures AllFit(pieces, budget) <==> AllCharsFit(content[..pos], budget)
  {
    if pieces != [] {
      var n := |pieces| - 1;
      var start := pos - |pieces[n]|;
      GreedyFits(pieces[..n], content, start, budget, maxChars);
      PieceFits(content, start, pos, budget, maxChars);
      assert AllFit(pieces, budget) <==> AllFit(pieces[..n], budget) && RangeFits(content, start, pos, budget);
    }
  }

  /** Nothing is lost, no piece is empty or longer than allowed, and every piece is within the budget exactly
      when every single character is. */
  lemma GreedyCuts(pieces: seq<string>, content: string, budget: int, maxChars: int)
    requires Greedy(pieces, content, |content|, budget, maxChars)
    ensures Join(pieces) == content && forall i :: 0 <= i < |pieces| ==> 1 <= |pieces[i]| <= maxChars
    ensures Cutting(pieces, content, budget, maxChars) <==> AllCharsFit(content, budget)
  {
    assert content[..|content|] == content;
    GreedyJoins(pieces, content, |content|, budget, maxChars);
    GreedyLengths(pieces, content, |content|, budget, maxChars);
    GreedyFits(pieces, content, |content|, budget, maxChars);
    AllFitMeans(pieces, budget);
  }

  lemma CuttingInit(q: seq<string>, content: string, budget: int, maxChars: int)
    requires Cutting(q, content, budget, maxChars) && q != []
    ensures var last := q[|q| - 1]; var start := |content| - |last|;
            && 0 <= start && last == content[start..] && |last| <= maxChars && Fits(last, budget)
            && Cutting(q[..|q| - 1], content[..start], budget, maxChars)
  {
    FitsMeans(q[|q| - 1], budget);
  }

  /** A fitting piece that starts no later than a longest one ends no later either. */
  lemma NoOvertaking(content: string, from: nat, reach: nat, start: nat, pos: nat, budget: int, maxChars: int)
    requires from <= start && from <= reach <= |content| && reach - from <= maxChars
    requires RangeFits(content, from, reach, budget) && Longest(content, start, pos, budget, maxChars)
    ensures reach <= pos
  {
    if reach > start {
      RangeShrinks(content, from, reach, start, reach, budget);
    }
  }

  /** Greedy stays ahead: with as many pieces no other cutting has got further. */
  lemma {:induction false} StaysAhead(p: seq<string>, pos: nat, q: seq<string>, reach: nat,
                                      content: string, budget: int, maxChars: int)
    requires |p| == |q| && Greedy(p, content, pos, budget, maxChars)
    requires reach <= |content| && Cutting(q, content[..reach], budget, maxChars)
    ensures reach <= pos
    decreases |q|
  {
    if q != [] {
      var p', start := GreedyInit(p, content, pos, budget, maxChars);
      var q', from := OtherInit(q, content, reach, budget, maxChars);
      StaysAhead(p', start, q', from, content, budget, maxChars);
      NoOvertaking(content, from, reach, start, pos, budget, maxChars);
    }
  }

  /** A greedy cutting without its last piece. */
  lemma GreedyInit(p: seq<string>, content: string, pos: nat, budget: int, maxChars: int)
    returns (p': seq<string>, start: nat)
    requires p != [] && Greedy(p, content, pos, budget, maxChars)
    ensures |p'| == |p| - 1 && start < pos <= |content| && Greedy(p', content, start, budget, maxChars)
    ensures Longest(content, start, pos, budget, maxChars)
  {
    GreedyLast(p, content, pos, budget, maxChars);
    p', start := p[..|p| - 1], pos - |p[|p| - 1]|;
  }

  /** Another cutting of the first `reach` characters without its last piece. */
  lemma OtherInit(q: seq<string>, content: string, reach: nat, budget: int, maxChars: int)
    returns (q': seq<string>, from: nat)
    requires q != [] && reach <= |content| && Cutting(q, content[..reach], budget, maxChars)
    ensures |q'| == |q| - 1 && from <= reach && Cutting(q', content[..from], budget, maxChars)
    ensures reach - from <= maxChars && RangeFits(content, from, reach, budget)
  {
    var n := |q| - 1;
    CuttingInit(q, content[..reach], budget, maxChars);
    q', from := q[..n], reach - |q[n]|;
    assert content[..reach][..from] == content[..from];
    assert q[n] == content[from..reach];
  }

  lemma {:induction false} GreedyPrefix(p: seq<string>, pos: nat, n: nat, content: string, budget: int, maxChars: int)
    returns (pos': nat)
    requires n < |p| && Greedy(p, content, pos, budget, maxChars)
    ensures pos' < pos && Greedy(p[..n], content, pos', budget, maxChars)
  {
    pos' := pos - |p[|p| - 1]|;
    if n < |p| - 1 {
      assert p[..|p| - 1][..n] == p[..n];
      pos' := GreedyPrefix(p[..|p| - 1], pos', n, content, budget, maxChars);
    }
  }

  /** No other acceptable cutting of a program uses fewer pieces. */
  lemma GreedyOptimal(pieces: seq<string>, content: string, other: seq<string>, budget: int, maxChars: int)
    requires Greedy(pieces, content, |content|, budget, maxChars) && Cutting(other, content, budget, maxChars)
    ensures |pieces| <= |other|
  {
    if |other| < |pieces| {
      var pos := GreedyPrefix(pieces, |content|, |other|, content, budget, maxChars);
      assert content[..|content|] == content;
      StaysAhead(pieces[..|other|], pos, other, |content|, content, budget, maxChars);
    }
  }

  // ------------------------------------------------------------------
  // The limits of the contract
  // ------------------------------------------------------------------

  const MAX_PROGRAM_CHARS := 32 * 1024 * 1024
  const MAX_CHUNKS := 80_000
  const MIN_BUDGET := 64

  datatype Refusal = TooLarge | TooManyChunks

  ghost predicate NoCuttingWithin(limit: nat, content: string, budget: int, maxChars: int) {
    forall other :: Cutting(other, content, budget, maxChars) ==> |other| > limit
  }

  lemma EveryCharFits(c: char, budget: int)
    requires budget >= MIN_BUDGET
    ensures CharFits(c, budget)
  {
  }

  /** `_stream`: the pieces to send, or why the program is refused. A program is refused as having too many
      chunks only when no acceptable cutting has few enough. The budget is never under MIN_BUDGET (`_pieces`). */
  method Stream(content: string, budget: int, maxChars: int) returns (r: Result<seq<string>, Refusal>)
    requires maxChars >= 1 && budget >= MIN_BUDGET
    ensures |content| > 33_554_432 <==> r.Err? && r.error.TooLarge?
    ensures r.Err? && r.error.TooManyChunks? ==> NoCuttingWithin(80_000, content, budget, maxChars)
    ensures r.Ok? ==> 1 <= |r.value| <= 80_000 && Cutting(r.value, content, budget, maxChars)
    ensures r.Ok? ==>
              forall other :: other != [] && Cutting(other, content, budget, maxChars) ==> |r.value| <= |other|
  {
    if |content| > MAX_PROGRAM_CHARS {
      return Err(TooLarge);
    }
    var pieces := SplitContent(content, budget, maxChars);
    if content == "" {
      assert [""][..0] == [] && Join([""]) == "";
      FitsMeans("", budget);
      return Ok(pieces);
    }
    GreedyCuts(pieces, content, budget, maxChars);
    forall k | 0 <= k < |content| ensures CharFits(content[k], budget) {
      EveryCharFits(content[k], budget);
    }
    forall other | Cutting(other, content, budget, maxChars) ensures |pieces| <= |other| {
      GreedyOptimal(pieces, content, other, budget, maxChars);
    }
    if |pieces| > MAX_CHUNKS {
      return Err(TooManyChunks);
    }
    return Ok(pieces);
  }
}
