/** Line landmarks of a program and the line bookkeeping of one cycle (program_tracker.py).

    The G-code patterns are abstract: a `Line` only says what the patterns found in it. */
module ProgramTracker {
  import opened Wrappers

  // ------------------------------------------------------------------
  // ProgramInfo
  // ------------------------------------------------------------------

  datatype Line = Line(skip: bool, percent: bool, endWord: bool, motion: bool)

  /** Line numbers count from 1; -1 = not found. `mask` is empty when the file was not scanned. */
  datatype ProgramInfo = ProgramInfo(
    path: string, firstExec: int, firstMotion: int, tail: int, end: int, mask: seq<bool>)

  predicate IsMove(line: Line) { !line.percent && line.motion }

  predicate IsEnd(line: Line) { !line.percent && line.endWord }

  /** Is line `n` a move that the interpreter gets to: no M2 / M30 on it or before it? */
  ghost predicate Runs(lines: seq<Line>, n: int) {
    && 1 <= n <= |lines| && lines[n - 1].motion && !lines[n - 1].percent
    && forall k :: 0 <= k < n ==> !lines[k].endWord || lines[k].percent
  }

  ghost predicate FirstRun(lines: seq<Line>, n: int) {
    if n == -1 then forall k :: 0 < k <= |lines| ==> !Runs(lines, k)
    else Runs(lines, n) && forall k :: Runs(lines, k) ==> n <= k
  }

  ghost predicate LastRun(lines: seq<Line>, n: int) {
    if n == -1 then forall k :: 0 < k <= |lines| ==> !Runs(lines, k)
    else Runs(lines, n) && forall k :: Runs(lines, k) ==> k <= n
  }

  ghost predicate FirstEnd(lines: seq<Line>, n: int) {
    && 1 <= n <= |lines| && lines[n - 1].endWord && !lines[n - 1].percent
    && forall k :: 0 <= k < n - 1 ==> !lines[k].endWord || lines[k].percent
  }

  ghost predicate NoEnd(lines: seq<Line>) {
    forall k :: 0 <= k < |lines| ==> !lines[k].endWord || lines[k].percent
  }

  ghost predicate LastPercent(lines: seq<Line>, n: int) {
    1 <= n <= |lines| && lines[n - 1].percent && forall k :: n <= k < |lines| ==> !lines[k].percent
  }

  /** M2 / M30 decides where the program ends; a trailing % only when there is neither. */
  ghost predicate EndOf(lines: seq<Line>, firstExec: int, n: int) {
    && (!NoEnd(lines) ==> FirstEnd(lines, n))
    && (NoEnd(lines) && n != -1 ==> LastPercent(lines, n) && n > firstExec)
    && (NoEnd(lines) && n == -1 ==> forall p :: LastPercent(lines, p) ==> p <= firstExec)
  }

  ghost predicate Landmarks(lines: seq<Line>, info: ProgramInfo) {
    && (if forall k :: 0 <= k < |lines| ==> lines[k].skip then info.firstExec == 1
        else ExecSoFar(lines, |lines|, info.firstExec))
    && FirstRun(lines, info.firstMotion) && LastRun(lines, info.tail)
    && EndOf(lines, info.firstExec, info.end)
    && |info.mask| == |lines| && forall k :: 0 <= k < |lines| ==>
         (info.mask[k] <==> lines[k].motion && !lines[k].percent)
  }

  /** What the scan knows after the first `i` lines: the first line that is not skipped (-1 = none). */
  ghost predicate ExecSoFar(lines: seq<Line>, i: nat, n: int) {
    if n == -1 then forall k :: 0 <= k < i <= |lines| ==> lines[k].skip
    else 1 <= n <= i <= |lines| && !lines[n - 1].skip && forall k :: 0 <= k < n - 1 ==> lines[k].skip
  }

  ghost predicate EndSoFar(lines: seq<Line>, i: nat, n: int) {
    if n == -1 then forall k :: 0 <= k < i <= |lines| ==> !IsEnd(lines[k])
    else n <= i && FirstEnd(lines, n)
  }

  ghost predicate PercentSoFar(lines: seq<Line>, i: nat, n: int) {
    if n == -1 then forall k :: 0 <= k < i <= |lines| ==> !lines[k].percent
    else 1 <= n <= i <= |lines| && lines[n - 1].percent && forall k :: n <= k < i ==> !lines[k].percent
  }

  ghost predicate MaskSoFar(lines: seq<Line>, i: nat, mask: seq<bool>) {
    |mask| == i <= |lines| && forall k :: 0 <= k < i ==> mask[k] == IsMove(lines[k])
  }

  lemma SoFarStep(lines: seq<Line>, i: nat, firstExec: int, endWord: int, lastPercent: int, mask: seq<bool>)
    requires i < |lines| && MaskSoFar(lines, i, mask)
    requires ExecSoFar(lines, i, firstExec) && EndSoFar(lines, i, endWord) && PercentSoFar(lines, i, lastPercent)
    ensures ExecSoFar(lines, i + 1, if firstExec == -1 && !lines[i].skip then i + 1 else firstExec)
    ensures EndSoFar(lines, i + 1, if endWord == -1 && IsEnd(lines[i]) then i + 1 else endWord)
    ensures PercentSoFar(lines, i + 1, if lines[i].percent then i + 1 else lastPercent)
    ensures MaskSoFar(lines, i + 1, mask + [IsMove(lines[i])])
  {
  }

  lemma EndRule(lines: seq<Line>, firstExec: int, endWord: int, lastPercent: int)
    requires EndSoFar(lines, |lines|, endWord) && PercentSoFar(lines, |lines|, lastPercent)
    ensures EndOf(lines, firstExec,
                  if endWord != -1 then endWord else if lastPercent > firstExec then lastPercent else -1)
  {
  }

  /** The scan's own view of `Runs`: a move before the end word found so far (-1 = none yet). */
  ghost predicate Kept(lines: seq<Line>, endWord: int, n: int) {
    1 <= n <= |lines| && IsMove(lines[n - 1]) && (endWord == -1 || n < endWord)
  }

  lemma KeptRuns(lines: seq<Line>, endWord: int, n: int)
    requires if endWord == -1 then NoEnd(lines) else FirstEnd(lines, endWord)
    ensures Kept(lines, endWord, n) == Runs(lines, n)
  {
  }

  /** The first and the last kept move of the first `i` lines. */
  ghost predicate Span(lines: seq<Line>, endWord: int, i: int, moves: seq<int>) {
    && (forall j :: 0 <= j < |moves| ==> moves[j] <= i && Kept(lines, endWord, moves[j]))
    && (forall k :: k <= i && Kept(lines, endWord, k) ==>
          moves != [] && moves[0] <= k <= moves[|moves| - 1])
  }

  /** One line on: the same earlier moves are kept, and the new line if it is a move before any end word. */
  lemma KeptStep(lines: seq<Line>, endWord: int, i: nat, endWord': int, n: int)
    requires i < |lines| && (endWord == -1 || endWord <= i) && n <= i + 1
    requires endWord' == if endWord == -1 && IsEnd(lines[i]) then i + 1 else endWord
    ensures Kept(lines, endWord', n) ==
            if n <= i then Kept(lines, endWord, n) else IsMove(lines[i]) && endWord' == -1
  {
  }

  lemma SpanMore(lines: seq<Line>, endWord: int, i: nat, moves: seq<int>, endWord': int, moves': seq<int>)
    requires i < |lines| && Span(lines, endWord, i, moves) && (endWord == -1 || endWord <= i)
    requires endWord' == if endWord == -1 && IsEnd(lines[i]) then i + 1 else endWord
    requires moves' == if IsMove(lines[i]) && endWord' == -1 then moves + [i + 1] else moves
    ensures Span(lines, endWord', i + 1, moves')
  {
    forall j | 0 <= j < |moves'| ensures moves'[j] <= i + 1 && Kept(lines, endWord', moves'[j]) {
      assert j < |moves| ==> moves'[j] == moves[j] <= i && Kept(lines, endWord, moves[j]);
      KeptStep(lines, endWord, i, endWord', moves'[j]);
    }
    forall k | k <= i + 1 && Kept(lines, endWord', k)
      ensures moves' != [] && moves'[0] <= k <= moves'[|moves'| - 1]
    {
      KeptStep(lines, endWord, i, endWord', k);
    }
  }

  lemma SpanStep(lines: seq<Line>, endWord: int, i: nat, moves: seq<int>)
    requires i < |lines| && Span(lines, endWord, i, moves) && (endWord == -1 || endWord <= i)
    ensures var endWord' := if endWord == -1 && IsEnd(lines[i]) then i + 1 else endWord;
            Span(lines, endWord', i + 1, if IsMove(lines[i]) && endWord' == -1 then moves + [i + 1] else moves)
  {
    var endWord' := if endWord == -1 && IsEnd(lines[i]) then i + 1 else endWord;
    SpanMore(lines, endWord, i, moves, endWord',
             if IsMove(lines[i]) && endWord' == -1 then moves + [i + 1] else moves);
  }

  lemma SpanLandmarks(lines: seq<Line>, endWord: int, moves: seq<int>)
    requires Span(lines, endWord, |lines|, moves)
    requires if endWord == -1 then NoEnd(lines) else FirstEnd(lines, endWord)
    ensures FirstRun(lines, if moves == [] then -1 else moves[0])
    ensures LastRun(lines, if moves == [] then -1 else moves[|moves| - 1])
  {
    forall k {
      KeptRuns(lines, endWord, k);
    }
  }

  /** What the scan has found so far; `moves` are the move lines before the end word. */
  datatype Scan = Scan(firstExec: int, endWord: int, lastPercent: int, moves: seq<int>, mask: seq<bool>)

  function ScanLine(sc: Scan, lineno: int, line: Line): Scan {
    var endWord := if sc.endWord == -1 && IsEnd(line) then lineno else sc.endWord;
    Scan(if sc.firstExec == -1 && !line.skip then lineno else sc.firstExec,
         endWord,
         if line.percent then lineno else sc.lastPercent,
         if IsMove(line) && endWord == -1 then sc.moves + [lineno] else sc.moves,
         sc.mask + [IsMove(line)])
  }

  function ScanUpTo(lines: seq<Line>, n: nat): Scan
    requires n <= |lines|
  {
    if n == 0 then Scan(-1, -1, -1, [], []) else ScanLine(ScanUpTo(lines, n - 1), n, lines[n - 1])
  }

  ghost predicate ScanSoFar(lines: seq<Line>, i: nat, sc: Scan) {
    && MaskSoFar(lines, i, sc.mask) && ExecSoFar(lines, i, sc.firstExec)
    && EndSoFar(lines, i, sc.endWord) && PercentSoFar(lines, i, sc.lastPercent)
    && Span(lines, sc.endWord, i, sc.moves)
  }

  lemma ScanStep(lines: seq<Line>, i: nat, sc: Scan)
    requires i < |lines| && ScanSoFar(lines, i, sc)
    ensures ScanSoFar(lines, i + 1, ScanLine(sc, i + 1, lines[i]))
  {
    SoFarStep(lines, i, sc.firstExec, sc.endWord, sc.lastPercent, sc.mask);
    SpanStep(lines, sc.endWord, i, sc.moves);
  }

  lemma {:induction false} ScanMeans(lines: seq<Line>, n: nat)
    requires n <= |lines|
    ensures ScanSoFar(lines, n, ScanUpTo(lines, n))
  {
    if n > 0 {
      ScanMeans(lines, n - 1);
      ScanStep(lines, n - 1, ScanUpTo(lines, n - 1));
    }
  }

  function InfoOf(sc: Scan, path: string): ProgramInfo {
    var floor := if sc.firstExec < 1 then 1 else sc.firstExec;
    ProgramInfo(path, if sc.firstExec != -1 then sc.firstExec else 1,
                if sc.moves != [] then sc.moves[0] else -1,
                if sc.moves != [] then sc.moves[|sc.moves| - 1] else -1,
                if sc.endWord != -1 then sc.endWord else if sc.lastPercent > floor then sc.lastPercent else -1,
                sc.mask)
  }

  lemma InfoMeans(lines: seq<Line>, path: string)
    ensures Landmarks(lines, InfoOf(ScanUpTo(lines, |lines|), path))
  {
    ScanMeans(lines, |lines|);
    ScanLandmarks(lines, ScanUpTo(lines, |lines|), path);
  }

  lemma ScanLandmarks(lines: seq<Line>, sc: Scan, path: string)
    requires ScanSoFar(lines, |lines|, sc)
    ensures Landmarks(lines, InfoOf(sc, path))
  {
    SpanLandmarks(lines, sc.endWord, sc.moves);
    EndRule(lines, InfoOf(sc, path).firstExec, sc.endWord, sc.lastPercent);
  }

  /** The loop of `from_lines`. */
  method ScanAll(lines: seq<Line>)
    returns (firstExec: int, endWord: int, lastPercent: int, motionLines: seq<int>, mask: seq<bool>)
    ensures Scan(firstExec, endWord, lastPercent, motionLines, mask) == ScanUpTo(lines, |lines|)
  {
    firstExec, endWord, lastPercent := -1, -1, -1;
    motionLines, mask := [], [];
    for i := 0 to |lines|
      invariant |mask| == i && Scan(firstExec, endWord, lastPercent, motionLines, mask) == ScanUpTo(lines, i)
    {
      ghost var soFar := ScanUpTo(lines, i);
      assert ScanUpTo(lines, i + 1) == ScanLine(soFar, i + 1, lines[i]);
      var lineno := i + 1;
      mask := mask + [false];
      if firstExec == -1 && !lines[i].skip {
        firstExec := lineno;
      }
      if lines[i].percent {
        lastPercent := lineno;
        continue;
      }
      if endWord == -1 && lines[i].endWord {
        endWord := lineno;
      }
      if lines[i].motion {
        mask := mask[i := true];
        assert mask == mask[..i] + [true];
        if endWord == -1 {
          motionLines := motionLines + [lineno];
        }
      }
    }
  }

  /** `ProgramInfo.from_lines`. */
  method FromLines(lines: seq<Line>, path: string) returns (info: ProgramInfo)
    ensures Landmarks(lines, info) && info.path == path
  {
    var firstExec, endWord, lastPercent, motionLines, mask := ScanAll(lines);
    var floor := if firstExec < 1 then 1 else firstExec;
    var end := if endWord != -1 then endWord else if lastPercent > floor then lastPercent else -1;
    info := ProgramInfo(path, if firstExec != -1 then firstExec else 1,
                        if motionLines != [] then motionLines[0] else -1,
                        if motionLines != [] then motionLines[|motionLines| - 1] else -1,
                        end, mask);
    assert info == InfoOf(ScanUpTo(lines, |lines|), path);
    InfoMeans(lines, path);
  }

  /** With an M2 / M30 the moves that count all come before it. */
  lemma MovesBeforeEnd(lines: seq<Line>, info: ProgramInfo)
    requires Landmarks(lines, info) && !NoEnd(lines)
    ensures info.firstMotion == info.tail == -1 || 1 <= info.firstMotion <= info.tail < info.end
  {
  }

  predicate IsMoveLine(info: ProgramInfo, line: int) {
    info.mask == [] || (0 < line <= |info.mask| && info.mask[line - 1])
  }

  /** Whether a line number is that of a move: any will do while the file has not been scanned. */
  lemma MoveLineMeans(lines: seq<Line>, info: ProgramInfo, line: int)
    requires Landmarks(lines, info)
    ensures IsMoveLine(info, line) <==>
              lines == [] || (1 <= line <= |lines| && lines[line - 1].motion && !lines[line - 1].percent)
  {
  }

  function StartTolerance(info: ProgramInfo): int {
    var span := if info.tail > info.firstMotion then info.tail - info.firstMotion else 0;
    if span / 50 > 5 then span / 50 else 5
  }

  predicate IsNearStart(info: ProgramInfo, line: int) {
    info.firstMotion <= 0 || line <= info.firstMotion + StartTolerance(info)
  }

  lemma Scaled(q: real, b: real)
    requires b > 0.0
    ensures q * b <= b <==> q <= 1.0
    ensures q * b >= 0.0 <==> q >= 0.0
  {
  }

  lemma QuotientBounds(a: real, b: real)
    requires 0.0 <= a <= b && b > 0.0
    ensures 0.0 <= a / b <= 1.0
  {
    assert (a / b) * b == a;
    Scaled(a / b, b);
  }

  function Fraction(info: ProgramInfo, line: int): (f: real)
    ensures 0.0 <= f <= 1.0
  {
    if info.firstMotion <= 0 || info.tail <= 0 then 0.0 else
      var span := info.tail - info.firstMotion;
      if span <= 0 then if line >= info.tail then 1.0 else 0.0
      else if line <= info.firstMotion then 0.0
      else if line >= info.tail then 1.0
      else
        QuotientBounds((line - info.firstMotion) as real, span as real);
        (line - info.firstMotion) as real / span as real
  }

  // ------------------------------------------------------------------
  // CycleLineTracker: what one sample does
  // ------------------------------------------------------------------

  const SUB_LINES_MAX := 5000

  datatype Tracker = Tracker(
    staleMotion: int, staleCurrent: int, motionLive: bool, currentLive: bool,
    startLine: Option<int>, lastLine: Option<int>, maxLine: int, endSeen: bool,
    subLines: set<int>, subMoves: set<int>, subLast: int, afterSub: bool, fromSub: bool, readEnd: bool)

  function Begin(idleMotion: int, idleCurrent: int): Tracker {
    Tracker(idleMotion, idleCurrent, false, false, None, None, 0, false, {}, {}, 0, false, false, false)
  }

  function Remember(lines: set<int>, line: int): set<int> {
    if line > 0 && |lines| < SUB_LINES_MAX then lines + {line} else lines
  }

  function Hold(t: Tracker, motion: int, current: int, moves: set<int>): Tracker {
    var subMoves := if |t.subMoves| < SUB_LINES_MAX then t.subMoves + moves else t.subMoves;
    t.(staleMotion := motion, motionLive := false, staleCurrent := current, currentLive := false,
       subLines := Remember(Remember(t.subLines, motion), current), subMoves := subMoves,
       subLast := if motion in subMoves then motion else t.subLast,
       afterSub := true, fromSub := t.fromSub || motion > 0)
  }

  predicate SubsLine(t: Tracker, line: int, info: ProgramInfo) {
    t.afterSub && (line in t.subLines || (line > t.subLast && line in t.subMoves) || !IsMoveLine(info, line))
  }

  /** The first half of `sample`: is this motion line the program's? */
  function SampleMotion(t: Tracker, motion: int, info: ProgramInfo): (t': Tracker)
    ensures t'.subLines == t.subLines && t'.staleCurrent == t.staleCurrent && t'.currentLive == t.currentLive
    ensures t'.endSeen == t.endSeen && t'.readEnd == t.readEnd
  {
    if motion > 0 && motion != t.staleMotion && SubsLine(t, motion, info) then t.(fromSub := true)
    else if motion <= 0 || !IsMoveLine(info, motion) then t
    else
      var t1 := if motion == t.staleMotion then t
                else t.(fromSub := false, afterSub := false, subLast := 0, motionLive := true);
      if !t1.motionLive then t1 else
        t1.(startLine := if t1.startLine.None? then Some(motion) else t1.startLine, lastLine := Some(motion),
            maxLine := if motion > t1.maxLine then motion else t1.maxLine)
  }

  /** The second half: did the interpreter read or execute M2 / M30? */
  function SampleEnd(t: Tracker, current: int, read: int, info: ProgramInfo): Tracker {
    var line := if current > 0 && current in t.subLines then 0 else current;
    var live := t.currentLive || (line > 0 && line != t.staleCurrent);
    t.(currentLive := live, endSeen := t.endSeen || (live && info.end > 0 && line >= info.end),
       readEnd := t.readEnd || (info.end > 0 && read >= info.end))
  }

  function Sample(t: Tracker, motion: int, current: int, read: int, info: ProgramInfo): Tracker {
    SampleEnd(SampleMotion(t, motion, info), current, read, info)
  }

  function RunFromHere(t: Tracker, info: ProgramInfo): Option<bool> {
    if t.startLine.None? then None else Some(!IsNearStart(info, t.startLine.value))
  }

  function TrackedProgress(t: Tracker, info: ProgramInfo): real {
    if t.startLine.None? then 0.0 else Fraction(info, t.maxLine)
  }

  predicate ReachedEnd(t: Tracker, info: ProgramInfo) {
    if t.endSeen then true
    else if t.fromSub then t.readEnd
    else if info.end <= 0 then false
    else if info.tail <= 0 then true
    else t.lastLine.Some? && t.lastLine.value >= info.tail
  }

  // ------------------------------------------------------------------
  // A whole sample history, read declaratively
  // ------------------------------------------------------------------

  /** One sample: inside a subroutine file, or in the program. */
  datatype Obs =
    | InSub(motion: int, current: int, moves: set<int>)
    | InProgram(motion: int, current: int, read: int)

  /** The samples of one cycle, the line numbers seen while idle before it, and the program. */
  datatype History = History(obs: seq<Obs>, idleMotion: int, idleCurrent: int, info: ProgramInfo)

  function Next(t: Tracker, o: Obs, info: ProgramInfo): Tracker {
    match o
    case InSub(motion, current, moves) => Hold(t, motion, current, moves)
    case InProgram(motion, current, read) => Sample(t, motion, current, read, info)
  }

  function Track(h: History, n: nat): Tracker
    requires n <= |h.obs|
  {
    if n == 0 then Begin(h.idleMotion, h.idleCurrent) else Next(Track(h, n - 1), h.obs[n - 1], h.info)
  }

  /** Lines seen while inside a subroutine, and the move lines of the subroutine files, before sample n. */
  ghost function SeenLines(h: History, n: nat): set<int>
    requires n <= |h.obs|
  {
    (set i | 0 <= i < n && h.obs[i].InSub? && h.obs[i].motion > 0 :: h.obs[i].motion)
    + (set i | 0 <= i < n && h.obs[i].InSub? && h.obs[i].current > 0 :: h.obs[i].current)
  }

  ghost function SubMoves(h: History, n: nat): set<int>
    requires n <= |h.obs|
  {
    if n == 0 then {} else SubMoves(h, n - 1) + (if h.obs[n - 1].InSub? then h.obs[n - 1].moves else {})
  }

  ghost predicate EverHeld(h: History, n: nat)
    requires n <= |h.obs|
  {
    exists j :: 0 <= j < n && h.obs[j].InSub?
  }

  /** No subroutine sample from k up to (not including) i. */
  ghost predicate NoHold(h: History, k: nat, i: nat)
    requires i <= |h.obs|
  {
    forall j :: k <= j < i ==> h.obs[j].InProgram?
  }

  /** Line numbers that say nothing new at sample n: those of the last subroutine sample, else the idle ones. */
  function StaleMotion(h: History, n: nat): int
    requires n <= |h.obs|
  {
    if n == 0 then h.idleMotion else if h.obs[n - 1].InSub? then h.obs[n - 1].motion else StaleMotion(h, n - 1)
  }

  function StaleCurrent(h: History, n: nat): int
    requires n <= |h.obs|
  {
    if n == 0 then h.idleCurrent else if h.obs[n - 1].InSub? then h.obs[n - 1].current else StaleCurrent(h, n - 1)
  }

  /** A sample in the program whose motion line is a move line of it. */
  predicate Candidate(h: History, i: nat)
    requires i < |h.obs|
  {
    h.obs[i].InProgram? && h.obs[i].motion > 0 && IsMoveLine(h.info, h.obs[i].motion)
  }

  /** The last subroutine move seen inside one since the program last moved, 0 if none. */
  ghost function SubLast(h: History, n: nat): int
    requires n <= |h.obs|
    decreases n, 0
  {
    if n == 0 then 0
    else if h.obs[n - 1].InSub? && h.obs[n - 1].motion in SubMoves(h, n) then h.obs[n - 1].motion
    else if Effective(h, n - 1) then 0
    else SubLast(h, n - 1)
  }

  /** Still a subroutine's line: seen inside one, or one of its moves after the last one seen. */
  ghost predicate Leftover(h: History, i: nat)
    requires i < |h.obs|
    decreases i, 1
  {
    var line := h.obs[i].motion;
    line in SeenLines(h, i) || (line > SubLast(h, i) && line in SubMoves(h, i))
  }

  /** A true program move: a new line number that no earlier subroutine can explain. */
  ghost predicate TrueMove(h: History, i: nat)
    requires i < |h.obs|
    decreases i, 2
  {
    Candidate(h, i) && h.obs[i].motion != StaleMotion(h, i) && !(EverHeld(h, i) && Leftover(h, i))
  }

  /** Sample i shows the program moving: its move lines count from the first true move on, until
      the next subroutine. */
  ghost predicate Effective(h: History, i: nat)
    requires i < |h.obs|
    decreases i, 3
  {
    Candidate(h, i) && exists k: nat :: k <= i && NoHold(h, k, i) && TrueMove(h, k)
  }

  ghost predicate Live(h: History, n: nat)
    requires n <= |h.obs|
  {
    exists k: nat :: k < n && NoHold(h, k, n) && TrueMove(h, k)
  }

  // What the tracker's fields are meant to be after n samples.

  /** The samples before n that show the program moving. */
  ghost function Moves(h: History, n: nat): set<nat>
    requires n <= |h.obs|
  {
    set i: nat | i < n && Effective(h, i)
  }

  ghost predicate FirstLine(obs: seq<Obs>, moves: set<nat>, line: Option<int>)
    requires forall i :: i in moves ==> i < |obs|
  {
    if line.None? then moves == {}
    else exists i :: i in moves && obs[i].motion == line.value && forall j :: j in moves ==> i <= j
  }

  ghost predicate LastLine(obs: seq<Obs>, moves: set<nat>, line: Option<int>)
    requires forall i :: i in moves ==> i < |obs|
  {
    if line.None? then moves == {}
    else exists i :: i in moves && obs[i].motion == line.value && forall j :: j in moves ==> j <= i
  }

  ghost predicate MaxLine(obs: seq<Obs>, moves: set<nat>, line: int)
    requires forall i :: i in moves ==> i < |obs|
  {
    && (forall i :: i in moves ==> obs[i].motion <= line)
    && (if moves == {} then line == 0 else exists i :: i in moves && obs[i].motion == line)
  }

  /** The run is inside a subroutine as far as motion goes: no program move since motion was last a subroutine's. */
  ghost predicate EndsInSub(h: History, n: nat)
    requires n <= |h.obs|
  {
    exists i: nat :: i < n && SubMotion(h, i) && forall j: nat :: i < j < n ==> !Effective(h, j)
  }

  ghost predicate SubMotion(h: History, i: nat)
    requires i < |h.obs|
  {
    h.obs[i].motion > 0
    && (h.obs[i].InSub?
        || (EverHeld(h, i) && !Live(h, i) && h.obs[i].motion != StaleMotion(h, i)
            && (Leftover(h, i) || !IsMoveLine(h.info, h.obs[i].motion))))
  }

  /** The executed line is one of the program's own, and has changed since the last subroutine (or idle). */
  ghost predicate OwnCurrent(h: History, i: nat)
    requires i < |h.obs|
  {
    h.obs[i].InProgram? && h.obs[i].current > 0 && h.obs[i].current !in SeenLines(h, i)
  }

  ghost predicate NewCurrent(h: History, i: nat)
    requires i < |h.obs|
  {
    OwnCurrent(h, i) && h.obs[i].current != StaleCurrent(h, i)
  }

  ghost predicate CurrentMoved(h: History, n: nat)
    requires n <= |h.obs|
  {
    exists k: nat :: k < n && NoHold(h, k, n) && NewCurrent(h, k)
  }

  ghost predicate ExecutedEnd(h: History, n: nat)
    requires n <= |h.obs|
  {
    exists i: nat :: i < n && OwnCurrent(h, i) && CurrentMoved(h, i + 1) && 0 < h.info.end <= h.obs[i].current
  }

  ghost predicate ReadEnd(h: History, n: nat)
    requires n <= |h.obs|
  {
    exists i: nat :: i < n && h.obs[i].InProgram? && 0 < h.info.end <= h.obs[i].read
  }

  // ------------------------------------------------------------------
  // The tracker computes that reading
  // ------------------------------------------------------------------

  /** The recorded subroutine lines stay within the tracker's limits. */
  ghost predicate Recorded(h: History) {
    |SeenLines(h, |h.obs|)| <= SUB_LINES_MAX && |SubMoves(h, |h.obs|)| <= SUB_LINES_MAX
  }

  ghost predicate SubsRead(h: History, n: nat, t: Tracker)
    requires n <= |h.obs|
  {
    && t.staleMotion == StaleMotion(h, n) && t.staleCurrent == StaleCurrent(h, n)
    && t.subLines == SeenLines(h, n) && t.subMoves == SubMoves(h, n) && t.subLast == SubLast(h, n)
    && t.afterSub == (EverHeld(h, n) && !Live(h, n)) && t.fromSub == EndsInSub(h, n)
  }

  ghost predicate LinesRead(obs: seq<Obs>, moves: set<nat>, t: Tracker)
    requires forall i :: i in moves ==> i < |obs|
  {
    FirstLine(obs, moves, t.startLine) && LastLine(obs, moves, t.lastLine) && MaxLine(obs, moves, t.maxLine)
  }

  ghost predicate MotionRead(h: History, n: nat, t: Tracker)
    requires n <= |h.obs|
  {
    && t.motionLive == Live(h, n) && (Live(h, n) ==> t.subLast == 0 && !t.fromSub)
    && LinesRead(h.obs, Moves(h, n), t)
  }

  ghost predicate EndRead(h: History, n: nat, t: Tracker)
    requires n <= |h.obs|
  {
    && t.currentLive == CurrentMoved(h, n)
    && t.endSeen == ExecutedEnd(h, n) && t.readEnd == ReadEnd(h, n)
  }

  lemma {:induction false} SubsetSize<T>(a: set<T>, b: set<T>)
    requires a <= b
    ensures |a| <= |b| && (|a| == |b| ==> a == b)
  {
    assert b == a + (b - a);
    assert |b| == |a| + |b - a|;
  }

  lemma LiveStep(h: History, n: nat)
    requires n < |h.obs|
    ensures Live(h, n + 1) == (h.obs[n].InProgram? && (Live(h, n) || TrueMove(h, n)))
    ensures Effective(h, n) == (Candidate(h, n) && (Live(h, n) || TrueMove(h, n)))
  {
  }

  lemma {:induction false} SubMovesGrow(h: History, n: nat, m: nat)
    requires n <= m <= |h.obs|
    ensures SubMoves(h, n) <= SubMoves(h, m)
  {
    if n < m {
      SubMovesGrow(h, n, m - 1);
    }
  }

  lemma SeenStep(h: History, n: nat)
    requires n < |h.obs|
    ensures SeenLines(h, n + 1) == if h.obs[n].InSub? then SeenLines(h, n) + Positive(h.obs[n]) else SeenLines(h, n)
  {
  }

  /** The line numbers of a sample inside a subroutine that are worth remembering. */
  function Positive(o: Obs): set<int>
    requires o.InSub?
  {
    (if o.motion > 0 then {o.motion} else {}) + (if o.current > 0 then {o.current} else {})
  }

  lemma SeenGrow(h: History, n: nat, m: nat)
    requires n <= m <= |h.obs|
    ensures SeenLines(h, n) <= SeenLines(h, m)
  {
  }

  lemma HeldStep(h: History, n: nat)
    requires n < |h.obs|
    ensures EverHeld(h, n + 1) == (EverHeld(h, n) || h.obs[n].InSub?)
  {
  }

  lemma RememberAll(lines: set<int>, line: int, all: set<int>)
    requires lines <= all && |all| <= SUB_LINES_MAX && (line > 0 ==> line in all)
    ensures Remember(lines, line) == lines + (if line > 0 then {line} else {})
  {
    SubsetSize(lines, all);
  }

  lemma MovesStep(h: History, n: nat)
    requires n < |h.obs|
    ensures Moves(h, n + 1) == Moves(h, n) + (if Effective(h, n) then {n} else {})
  {
  }

  /** One more program move, later than the others and on a positive line. */
  lemma LinesMoved(obs: seq<Obs>, moves: set<nat>, n: nat, t: Tracker, t': Tracker)
    requires n < |obs| && obs[n].motion > 0 && forall i :: i in moves ==> i < n
    requires LinesRead(obs, moves, t)
    requires var line := obs[n].motion;
             && t'.startLine == (if t.startLine.None? then Some(line) else t.startLine)
             && t'.lastLine == Some(line) && t'.maxLine == (if line > t.maxLine then line else t.maxLine)
    ensures LinesRead(obs, moves + {n}, t')
  {
  }

  /** How "the run ends in a subroutine" changes with one more sample. */
  lemma SubStep(h: History, n: nat)
    requires n < |h.obs|
    ensures EndsInSub(h, n + 1) == (SubMotion(h, n) || (EndsInSub(h, n) && !Effective(h, n)))
  {
  }

  lemma RememberBoth(lines: set<int>, o: Obs, all: set<int>)
    requires o.InSub? && lines + Positive(o) <= all && |all| <= SUB_LINES_MAX
    ensures Remember(Remember(lines, o.motion), o.current) == lines + Positive(o)
  {
    RememberAll(lines, o.motion, all);
    RememberAll(Remember(lines, o.motion), o.current, all);
  }

  lemma LinesRemembered(h: History, n: nat)
    requires Recorded(h) && n < |h.obs| && h.obs[n].InSub?
    ensures Remember(Remember(SeenLines(h, n), h.obs[n].motion), h.obs[n].current) == SeenLines(h, n + 1)
  {
    SeenStep(h, n);
    SeenGrow(h, n + 1, |h.obs|);
    RememberBoth(SeenLines(h, n), h.obs[n], SeenLines(h, |h.obs|));
  }

  lemma MovesRemembered(h: History, n: nat)
    requires Recorded(h) && n < |h.obs| && h.obs[n].InSub?
    ensures SubMoves(h, n + 1) ==
            if |SubMoves(h, n)| < SUB_LINES_MAX then SubMoves(h, n) + h.obs[n].moves else SubMoves(h, n)
  {
    SubMovesGrow(h, n + 1, |h.obs|);
    SubsetSize(SubMoves(h, n), SubMoves(h, |h.obs|));
  }

  lemma HoldSubs(h: History, n: nat, t: Tracker)
    requires Recorded(h) && n < |h.obs| && h.obs[n].InSub? && SubsRead(h, n, t)
    ensures SubsRead(h, n + 1, Hold(t, h.obs[n].motion, h.obs[n].current, h.obs[n].moves))
  {
    LinesRemembered(h, n);
    MovesRemembered(h, n);
    HeldStep(h, n);
    LiveStep(h, n);
    SubStep(h, n);
    assert !Effective(h, n);
  }

  lemma HoldRest(h: History, n: nat, t: Tracker)
    requires n < |h.obs| && h.obs[n].InSub? && MotionRead(h, n, t) && EndRead(h, n, t)
    ensures var o := h.obs[n]; var t' := Hold(t, o.motion, o.current, o.moves);
            MotionRead(h, n + 1, t') && EndRead(h, n + 1, t')
  {
    LiveStep(h, n);
    MovesStep(h, n);
    EndKept(h, n);
    CurrentStep(h, n);
  }

  lemma CurrentStep(h: History, n: nat)
    requires n < |h.obs|
    ensures CurrentMoved(h, n + 1) == (h.obs[n].InProgram? && (CurrentMoved(h, n) || NewCurrent(h, n)))
  {
  }

  lemma EndKept(h: History, n: nat)
    requires n < |h.obs| && h.obs[n].InSub?
    ensures ExecutedEnd(h, n + 1) == ExecutedEnd(h, n) && ReadEnd(h, n + 1) == ReadEnd(h, n)
  {
  }

  lemma SampleSubs(h: History, n: nat, t: Tracker)
    requires n < |h.obs| && h.obs[n].InProgram?
    requires SubsRead(h, n, t) && MotionRead(h, n, t)
    ensures SubsRead(h, n + 1, SampleMotion(t, h.obs[n].motion, h.info))
  {
    var m := h.obs[n].motion;
    SeenStep(h, n);
    HeldStep(h, n);
    LiveStep(h, n);
    SubStep(h, n);
    if m > 0 && m != t.staleMotion && SubsLine(t, m, h.info) {
      assert SubMotion(h, n) && !Effective(h, n);
    } else {
      assert !SubMotion(h, n);
    }
  }

  lemma SampleLines(h: History, n: nat, t: Tracker)
    requires n < |h.obs| && h.obs[n].InProgram?
    requires SubsRead(h, n, t) && MotionRead(h, n, t)
    ensures MotionRead(h, n + 1, SampleMotion(t, h.obs[n].motion, h.info))
  {
    LiveStep(h, n);
    MovesStep(h, n);
    SubsLineMeans(h, n, t);
    if Effective(h, n) {
      MotionCounts(h, n, t);
    } else {
      MotionIgnored(h, n, t);
    }
  }

  lemma SubsLineMeans(h: History, n: nat, t: Tracker)
    requires n < |h.obs| && SubsRead(h, n, t)
    ensures var m := h.obs[n].motion;
            SubsLine(t, m, h.info) == (EverHeld(h, n) && !Live(h, n) && (Leftover(h, n) || !IsMoveLine(h.info, m)))
  {
  }

  lemma MotionCounts(h: History, n: nat, t: Tracker)
    requires n < |h.obs| && Effective(h, n) && SubsRead(h, n, t) && MotionRead(h, n, t)
    ensures var t' := SampleMotion(t, h.obs[n].motion, h.info);
            && t'.motionLive && t'.subLast == 0 && !t'.fromSub
            && LinesRead(h.obs, Moves(h, n) + {n}, t')
  {
    LiveStep(h, n);
    SubsLineMeans(h, n, t);
    LinesMoved(h.obs, Moves(h, n), n, t, SampleMotion(t, h.obs[n].motion, h.info));
  }

  lemma MotionIgnored(h: History, n: nat, t: Tracker)
    requires n < |h.obs| && h.obs[n].InProgram? && !Effective(h, n) && SubsRead(h, n, t) && MotionRead(h, n, t)
    ensures var t' := SampleMotion(t, h.obs[n].motion, h.info);
            t' == t || (t' == t.(fromSub := true) && !t.motionLive)
  {
    LiveStep(h, n);
    SubsLineMeans(h, n, t);
  }

  lemma ExecutedStep(h: History, n: nat)
    requires n < |h.obs|
    ensures ExecutedEnd(h, n + 1) ==
            (ExecutedEnd(h, n) || (OwnCurrent(h, n) && CurrentMoved(h, n + 1) && 0 < h.info.end <= h.obs[n].current))
  {
    if ExecutedEnd(h, n) {
      var i: nat :| i < n && OwnCurrent(h, i) && CurrentMoved(h, i + 1) && 0 < h.info.end <= h.obs[i].current;
      assert i < n + 1;
    }
  }

  lemma ReadStep(h: History, n: nat)
    requires n < |h.obs|
    ensures ReadEnd(h, n + 1) == (ReadEnd(h, n) || (h.obs[n].InProgram? && 0 < h.info.end <= h.obs[n].read))
  {
    if ReadEnd(h, n) {
      var i: nat :| i < n && h.obs[i].InProgram? && 0 < h.info.end <= h.obs[i].read;
      assert i < n + 1;
    }
  }

  lemma CurrentLineStep(h: History, n: nat, t: Tracker)
    requires n < |h.obs| && h.obs[n].InProgram?
    requires t.subLines == SeenLines(h, n) && t.staleCurrent == StaleCurrent(h, n)
    ensures var t' := SampleEnd(t, h.obs[n].current, h.obs[n].read, h.info);
            && t'.currentLive == (t.currentLive || NewCurrent(h, n))
            && t'.endSeen == (t.endSeen || (OwnCurrent(h, n) && t'.currentLive && 0 < h.info.end <= h.obs[n].current))
  {
  }

  ghost predicate Reads(h: History, n: nat, t: Tracker)
    requires n <= |h.obs|
  {
    SubsRead(h, n, t) && MotionRead(h, n, t) && EndRead(h, n, t)
  }

  lemma HoldReads(h: History, n: nat, t: Tracker)
    requires Recorded(h) && n < |h.obs| && h.obs[n].InSub? && Reads(h, n, t)
    ensures Reads(h, n + 1, Next(t, h.obs[n], h.info))
  {
    HoldSubs(h, n, t);
    HoldRest(h, n, t);
  }

  /** After the first half of a sample: motion is read, the executed line not yet. */
  ghost predicate Halfway(h: History, n: nat, t: Tracker)
    requires n < |h.obs|
  {
    && SubsRead(h, n + 1, t) && MotionRead(h, n + 1, t) && EndRead(h, n, t)
    && t.subLines == SeenLines(h, n) && t.staleCurrent == StaleCurrent(h, n)
  }

  lemma MotionHalf(h: History, n: nat, t: Tracker)
    requires n < |h.obs| && h.obs[n].InProgram? && Reads(h, n, t)
    ensures Halfway(h, n, SampleMotion(t, h.obs[n].motion, h.info))
  {
    SampleSubs(h, n, t);
    SampleLines(h, n, t);
  }

  lemma EndHalf(h: History, n: nat, t: Tracker)
    requires n < |h.obs| && h.obs[n].InProgram? && Halfway(h, n, t)
    ensures Reads(h, n + 1, SampleEnd(t, h.obs[n].current, h.obs[n].read, h.info))
  {
    CurrentStep(h, n);
    ExecutedStep(h, n);
    ReadStep(h, n);
    CurrentLineStep(h, n, t);
  }

  lemma SampleReads(h: History, n: nat, t: Tracker)
    requires n < |h.obs| && h.obs[n].InProgram? && Reads(h, n, t)
    ensures Reads(h, n + 1, Next(t, h.obs[n], h.info))
  {
    MotionHalf(h, n, t);
    EndHalf(h, n, SampleMotion(t, h.obs[n].motion, h.info));
  }

  lemma NextReads(h: History, n: nat, t: Tracker)
    requires Recorded(h) && n < |h.obs| && Reads(h, n, t)
    ensures Reads(h, n + 1, Next(t, h.obs[n], h.info))
  {
    if h.obs[n].InSub? {
      HoldReads(h, n, t);
    } else {
      SampleReads(h, n, t);
    }
  }

  /** Every field of the tracker is the declarative reading of the samples so far. */
  ghost predicate Follows(h: History, n: nat)
    requires n <= |h.obs|
  {
    Reads(h, n, Track(h, n))
  }

  lemma OneMoreReads(h: History, n: nat)
    requires Recorded(h) && n < |h.obs| && Follows(h, n)
    ensures Follows(h, n + 1)
  {
    NextReads(h, n, Track(h, n));
  }

  lemma NothingRead(h: History)
    ensures Follows(h, 0)
  {
  }

  /** At every point of the cycle the tracker follows the declarative reading of the samples so far. */
  lemma {:induction false} TrackerReadsHistory(h: History, n: nat)
    requires Recorded(h) && n <= |h.obs|
    ensures Follows(h, n)
  {
    if n == 0 {
      NothingRead(h);
      assert Follows(h, n);
    } else {
      TrackerReadsHistory(h, n - 1);
      OneMoreReads(h, n - 1);
      assert Follows(h, n);
    }
  }

  // ------------------------------------------------------------------
  // What follows from the reading
  // ------------------------------------------------------------------

  lemma LinesUnique(obs: seq<Obs>, moves: set<nat>, t1: Tracker, t2: Tracker)
    requires forall i :: i in moves ==> i < |obs|
    requires LinesRead(obs, moves, t1) && LinesRead(obs, moves, t2)
    ensures t1.startLine == t2.startLine && t1.lastLine == t2.lastLine && t1.maxLine == t2.maxLine
  {
  }

  /** After a subroutine sample nothing changes the program's lines until a true program move: not a line
      seen inside the subroutine, not one of its later moves, not a line that is no move of the program. */
  lemma {:induction false} AfterHoldNothingMoves(h: History, j: nat, n: nat)
    requires Recorded(h) && j < n <= |h.obs| && h.obs[j].InSub?
    requires forall i: nat :: j < i < n ==> h.obs[i].InSub? || !TrueMove(h, i)
    ensures var t, t' := Track(h, j), Track(h, n);
            && t'.startLine == t.startLine && t'.lastLine == t.lastLine && t'.maxLine == t.maxLine
            && TrackedProgress(t', h.info) == TrackedProgress(t, h.info)
            && !t'.motionLive
  {
    TrackerReadsHistory(h, j);
    TrackerReadsHistory(h, n);
    forall i: nat | j <= i < n ensures !Effective(h, i) && !Live(h, i + 1) {
      NotYet(h, j, i);
    }
    assert Moves(h, n) == Moves(h, j);
    LinesUnique(h.obs, Moves(h, n), Track(h, j), Track(h, n));
  }

  lemma NotYet(h: History, j: nat, i: nat)
    requires j <= i < |h.obs| && h.obs[j].InSub?
    requires forall k: nat :: j < k <= i ==> h.obs[k].InSub? || !TrueMove(h, k)
    ensures !Effective(h, i) && !Live(h, i + 1)
  {
  }

  /** Without subroutine samples the program is moving from its first new move line on. */
  lemma WithoutSubroutines(h: History, i: nat)
    requires NoHold(h, 0, |h.obs|) && i < |h.obs|
    ensures Recorded(h) && SeenLines(h, |h.obs|) == {}
    ensures Effective(h, i) <==>
            Candidate(h, i) && exists k: nat :: k <= i && Candidate(h, k) && h.obs[k].motion != h.idleMotion
    ensures !EndsInSub(h, i + 1)
  {
    NoSubroutineSets(h, |h.obs|);
    forall k: nat | k <= i
      ensures TrueMove(h, k) <==> Candidate(h, k) && h.obs[k].motion != h.idleMotion
      ensures NoHold(h, k, i) && !SubMotion(h, k)
    {
      NoSubroutineSets(h, k);
    }
  }

  lemma {:induction false} NoSubroutineSets(h: History, n: nat)
    requires NoHold(h, 0, |h.obs|) && n <= |h.obs|
    ensures SeenLines(h, n) == {} && SubMoves(h, n) == {} && StaleMotion(h, n) == h.idleMotion && !EverHeld(h, n)
  {
    if n > 0 {
      NoSubroutineSets(h, n - 1);
    }
  }

  /** The samples show the program's end: M2 / M30 was executed; or read, while in a subroutine; or, with an end to
      reach and outside subroutines, the last move is at or past the last one that is run. */
  ghost predicate EndShown(h: History) {
    var n := |h.obs|;
    || ExecutedEnd(h, n)
    || (EndsInSub(h, n) && ReadEnd(h, n))
    || (!EndsInSub(h, n) && h.info.end > 0
        && (h.info.tail <= 0
            || exists i: nat :: i in Moves(h, n) && h.info.tail <= h.obs[i].motion
                                && forall j: nat :: j in Moves(h, n) ==> j <= i))
  }

  /** When the cycle goes idle it has reached the end exactly if its samples show it. */
  lemma ReachedEndMeans(h: History)
    requires Recorded(h)
    ensures ReachedEnd(Track(h, |h.obs|), h.info) <==> EndShown(h)
  {
    TrackerReadsHistory(h, |h.obs|);
    LastMoveReached(h.obs, Moves(h, |h.obs|), Track(h, |h.obs|).lastLine, h.info.tail);
  }

  /** The last line read is at or past the tail exactly if the last move is. */
  lemma LastMoveReached(obs: seq<Obs>, moves: set<nat>, line: Option<int>, tail: int)
    requires (forall i :: i in moves ==> i < |obs|) && LastLine(obs, moves, line)
    ensures line.Some? && line.value >= tail <==>
            exists i: nat :: i in moves && tail <= obs[i].motion && forall j: nat :: j in moves ==> j <= i
  {
    if line.Some? {
      var i :| i in moves && obs[i].motion == line.value && forall j :: j in moves ==> j <= i;
      forall k: nat | k in moves && forall j: nat :: j in moves ==> j <= k
        ensures k == i
      {
      }
    }
  }

  // ------------------------------------------------------------------
  // The class
  // ------------------------------------------------------------------

  class CycleLineTracker {
    var staleMotion: int
    var staleCurrent: int
    var motionLive: bool
    var currentLive: bool
    var startLine: Option<int>
    var lastLine: Option<int>
    var maxLine: int
    var endSeen: bool
    var subLines: set<int>
    var subMoves: set<int>
    var subLast: int
    var afterSub: bool
    var fromSub: bool
    var readEnd: bool

    function Fields(): Tracker
      reads this
    {
      Tracker(staleMotion, staleCurrent, motionLive, currentLive, startLine, lastLine, maxLine, endSeen,
              subLines, subMoves, subLast, afterSub, fromSub, readEnd)
    }

    constructor ()
      ensures Fields() == Begin(0, 0)
    {
      staleMotion, staleCurrent, motionLive, currentLive := 0, 0, false, false;
      startLine, lastLine, maxLine, endSeen := None, None, 0, false;
      subLines, subMoves, subLast, afterSub, fromSub, readEnd := {}, {}, 0, false, false, false;
    }

    method BeginCycle(idleMotion: int, idleCurrent: int)
      modifies this
      ensures Fields() == Begin(idleMotion, idleCurrent)
    {
      MarkStale(idleMotion, idleCurrent);
      startLine, lastLine, maxLine := None, None, 0;
      endSeen, readEnd := false, false;
      ForgetSubs();
    }

    method ForgetSubs()
      modifies this`subLines, this`subMoves, this`subLast, this`afterSub, this`fromSub
      ensures subLines == {} && subMoves == {} && subLast == 0 && !afterSub && !fromSub
    {
      subLines, subMoves, subLast := {}, {}, 0;
      afterSub, fromSub := false, false;
    }

    method HoldSample(motion: int, current: int, moves: set<int>)
      modifies this
      ensures Fields() == Hold(old(Fields()), motion, current, moves)
    {
      MarkStale(motion, current);
      RememberLines(motion, current);
      RememberMoves(motion, moves);
      EnterSub(motion);
    }

    method EnterSub(motion: int)
      modifies this`afterSub, this`fromSub
      ensures afterSub && fromSub == (old(fromSub) || motion > 0)
    {
      afterSub, fromSub := true, fromSub || motion > 0;
    }

    /** Until a new number appears, the line numbers say nothing. */
    method MarkStale(motion: int, current: int)
      modifies this`staleMotion, this`motionLive, this`staleCurrent, this`currentLive
      ensures staleMotion == motion && !motionLive && staleCurrent == current && !currentLive
    {
      staleMotion, motionLive := motion, false;
      staleCurrent, currentLive := current, false;
    }

    method RememberMoves(motion: int, moves: set<int>)
      modifies this`subMoves, this`subLast
      ensures subMoves == if |old(subMoves)| < SUB_LINES_MAX then old(subMoves) + moves else old(subMoves)
      ensures subLast == if motion in subMoves then motion else old(subLast)
    {
      if |subMoves| < SUB_LINES_MAX {
        subMoves := subMoves + moves;
      }
      if motion in subMoves {
        subLast := motion;
      }
    }

    method RememberLines(motion: int, current: int)
      modifies this`subLines
      ensures subLines == Remember(Remember(old(subLines), motion), current)
    {
      if motion > 0 && |subLines| < SUB_LINES_MAX {
        subLines := subLines + {motion};
      }
      if current > 0 && |subLines| < SUB_LINES_MAX {
        subLines := subLines + {current};
      }
    }

    method SampleLine(motion: int, current: int, read: int, info: ProgramInfo)
      modifies this
      ensures Fields() == Sample(old(Fields()), motion, current, read, info)
    {
      NoteMotion(motion, info);
      NoteEnd(current, read, info);
    }

    method NoteMotion(motion: int, info: ProgramInfo)
      modifies this
      ensures Fields() == SampleMotion(old(Fields()), motion, info)
    {
      var line := OwnLine(motion, info);
      if !motionLive && line > 0 && line != staleMotion {
        motionLive := true;
      }
      if motionLive && line > 0 {
        MoveTo(line);
      }
    }

    /** The motion line if it is a move of the program, else 0. */
    method OwnLine(motion: int, info: ProgramInfo) returns (line: int)
      modifies this`fromSub, this`afterSub, this`subLast
      ensures var isNew, subs := motion > 0 && motion != staleMotion, SubsLine(old(Fields()), motion, info);
              var own := motion > 0 && IsMoveLine(info, motion) && !(isNew && subs);
              && line == (if own then motion else if motion > 0 then 0 else motion)
              && fromSub == (if isNew && subs then true else if own && isNew then false else old(fromSub))
              && afterSub == (if own && isNew then false else old(afterSub))
              && subLast == (if own && isNew then 0 else old(subLast))
    {
      line := motion;
      if line > 0 && line != staleMotion && SubsLine(Fields(), line, info) {
        fromSub, line := true, 0;
      } else if line > 0 && !IsMoveLine(info, line) {
        line := 0;
      } else if line > 0 && line != staleMotion {
        fromSub, afterSub, subLast := false, false, 0;
      }
    }

    method MoveTo(line: int)
      modifies this`startLine, this`lastLine, this`maxLine
      ensures startLine == (if old(startLine).None? then Some(line) else old(startLine))
      ensures lastLine == Some(line) && maxLine == (if line > old(maxLine) then line else old(maxLine))
    {
      if startLine.None? {
        startLine := Some(line);
      }
      lastLine := Some(line);
      maxLine := if line > maxLine then line else maxLine;
    }

    method NoteEnd(current: int, read: int, info: ProgramInfo)
      modifies this`currentLive, this`endSeen, this`readEnd
      ensures Fields() == SampleEnd(old(Fields()), current, read, info)
    {
      var line := current;
      if info.end > 0 && read >= info.end {
        readEnd := true;
      }
      if line > 0 && line in subLines {
        line := 0;
      }
      if !currentLive && line > 0 && line != staleCurrent {
        currentLive := true;
      }
      if currentLive && info.end > 0 && line >= info.end {
        endSeen := true;
      }
    }
  }
}
