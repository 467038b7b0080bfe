/** Cycle and part accounting (cycle_time_calculator.py).

    `Calc` holds the calculator's fields; the functions below say what each control method
    does to them, and the class at the end performs the same updates field by field.
    `Ledger` is an independent book of physical parts: the list of segments each part was cut
    in. The theorems say that the calculator's few counters always agree with that book. */
module CycleTime {
  import opened Wrappers

  const NS_PER_MS := 1_000_000
  const MIN_VALID_CYCLE_MS := 1_000
  const MAX_HISTORY := 500

  /** The running cycle (`_CycleState`); the default value means "no cycle". */
  datatype Cycle = Cycle(
    startNs: Option<int>, pauseStartNs: Option<int>, totalPausedNs: int,
    running: bool, paused: bool, complete: bool,
    program: Option<string>, rfh: bool, classified: bool, progress: real)

  const NO_CYCLE := Cycle(None, None, 0, false, false, false, None, false, false, 0.0)

  datatype Calc = Calc(
    cycle: Cycle, completed: seq<int>, aborted: seq<int>,
    parts: nat, aborts: nat, rfhCount: nat, carryMs: int,
    partOpen: bool, openProgress: real, openProgram: Option<string>,
    partials: nat, partialEquiv: real)

  const INIT := Calc(NO_CYCLE, [], [], 0, 0, 0, 0, false, 0.0, None, 0, 0.0)

  function Max(a: real, b: real): real { if a < b then b else a }

  /** A deque with maxlen MAX_HISTORY. */
  function Push(d: seq<int>, x: int): seq<int> {
    if |d| < MAX_HISTORY then d + [x] else d[|d| - MAX_HISTORY + 1..] + [x]
  }

  function LastOf(d: seq<int>): seq<int> {
    if |d| <= MAX_HISTORY then d else d[|d| - MAX_HISTORY..]
  }

  lemma PushKeepsLast(d: seq<int>, x: int)
    ensures Push(LastOf(d), x) == LastOf(d + [x])
  {
  }

  // ------------------------------------------------------------------
  // What the control methods do to the fields
  // ------------------------------------------------------------------

  function Elapsed(c: Calc, now: int): int {
    match c.cycle.startNs
    case None => 0
    case Some(start) =>
      var end := if c.cycle.paused && c.cycle.pauseStartNs.Some? then c.cycle.pauseStartNs.value else now;
      var ms := (end - start - c.cycle.totalPausedNs) / NS_PER_MS;
      (if ms < 0 then 0 else ms) + c.carryMs
  }

  predicate ResolvedRfh(c: Calc) {
    if c.cycle.classified then c.cycle.rfh else c.partOpen
  }

  function Progress(c: Calc): real {
    if c.partOpen && ResolvedRfh(c) then Max(c.cycle.progress, c.openProgress) else c.cycle.progress
  }

  function ClosePart(c: Calc): Calc {
    c.(carryMs := 0, partOpen := false, openProgress := 0.0, openProgram := None)
  }

  function FinalizePartial(c: Calc): Calc {
    ClosePart(c.(partials := c.partials + 1, partialEquiv := c.partialEquiv + c.openProgress))
  }

  function LeavePartOpen(c: Calc, durationMs: int, progress: real): Calc {
    c.(carryMs := durationMs, partOpen := true, openProgress := progress, openProgram := c.cycle.program)
  }

  function SetStart(c: Calc, rfh: bool): Calc {
    var c1 := c.(cycle := c.cycle.(classified := true, rfh := rfh));
    if rfh then c1.(rfhCount := c1.rfhCount + 1)
    else (if c1.partOpen then FinalizePartial(c1) else c1).(carryMs := 0)
  }

  predicate OtherProgram(c: Calc, program: Option<string>) {
    c.partOpen && program.Some? && c.openProgram.Some? && program != c.openProgram
  }

  /** A running cycle of `program`, and the open part left behind if it belongs to another one. */
  function Started(c: Calc, now: int, program: Option<string>): Calc {
    var c1 := c.(cycle := NO_CYCLE.(startNs := Some(now), running := true, program := program));
    if OtherProgram(c1, program) then FinalizePartial(c1) else c1
  }

  function Start(c: Calc, now: int, rfh: Option<bool>, program: Option<string>): Calc {
    if c.cycle.running then c
    else if rfh.Some? then SetStart(Started(c, now, program), rfh.value)
    else Started(c, now, program)
  }

  function SetProgram(c: Calc, program: Option<string>): Calc {
    if !c.cycle.running || program.None? || program == c.cycle.program then c else
      var c1 := c.(cycle := c.cycle.(program := program));
      if OtherProgram(c1, program) then FinalizePartial(c1) else c1
  }

  function Classify(c: Calc, rfh: bool): Calc {
    if c.cycle.running && !c.cycle.classified then SetStart(c, rfh) else c
  }

  function Clamp(f: real): real { if f < 0.0 then 0.0 else if f > 1.0 then 1.0 else f }

  function SetProgress(c: Calc, f: real): Calc {
    if c.cycle.running then c.(cycle := c.cycle.(progress := Max(c.cycle.progress, Clamp(f)))) else c
  }

  function Pause(c: Calc, now: int): Calc {
    if !c.cycle.running || c.cycle.paused then c
    else c.(cycle := c.cycle.(pauseStartNs := Some(now), paused := true))
  }

  function Resume(c: Calc, now: int): Calc {
    if !c.cycle.running || !c.cycle.paused || c.cycle.pauseStartNs.None? then c
    else c.(cycle := c.cycle.(
            totalPausedNs := c.cycle.totalPausedNs + (now - c.cycle.pauseStartNs.value),
            pauseStartNs := None, paused := false))
  }

  function Signal(c: Calc): Calc {
    if c.cycle.running then c.(cycle := c.cycle.(complete := true)) else c
  }

  function Count(c: Calc, durationMs: int): Calc {
    ClosePart(c.(completed := Push(c.completed, durationMs), parts := c.parts + 1))
  }

  function RecordAbort(c: Calc, durationMs: int): Calc {
    LeavePartOpen(c.(aborts := c.aborts + 1,
                     aborted := if durationMs >= MIN_VALID_CYCLE_MS then Push(c.aborted, durationMs) else c.aborted),
                  durationMs, Progress(c))
  }

  predicate TooShort(c: Calc, now: int) {
    Elapsed(c, now) < MIN_VALID_CYCLE_MS && c.carryMs == 0
  }

  function Stop(c: Calc, now: int): Calc {
    if !c.cycle.running then c else
      var ms := Elapsed(c, now);
      (if TooShort(c, now) then c
       else if c.cycle.complete then Count(c, ms)
       else if ResolvedRfh(c) then LeavePartOpen(c, ms, Progress(c))
       else RecordAbort(c, ms)).(cycle := NO_CYCLE)
  }

  function Drop(c: Calc): Calc {
    if c.cycle.running then c.(cycle := NO_CYCLE) else c
  }

  function Abort(c: Calc, now: int): Calc {
    if c.cycle.running then RecordAbort(c, Elapsed(c, now)).(cycle := NO_CYCLE) else c
  }

  function ResetStats(c: Calc): Calc {
    if c.cycle.running then c else INIT.(cycle := c.cycle)
  }

  // ------------------------------------------------------------------
  // Calls, in any order; `at` is the monotonic clock the call reads
  // ------------------------------------------------------------------

  datatype Call =
    | CallStart(at: int, start: Option<bool>, program: Option<string>)
    | CallSetProgram(at: int, program: Option<string>)
    | CallClassify(at: int, rfh: bool)
    | CallProgress(at: int, fraction: real)
    | CallPause(at: int)
    | CallResume(at: int)
    | CallSignal(at: int)
    | CallStop(at: int)
    | CallDrop(at: int)
    | CallAbort(at: int)
    | CallReset(at: int)

  function Apply(c: Calc, call: Call): Calc {
    match call
    case CallStart(at, start, program) => Start(c, at, start, program)
    case CallSetProgram(_, program) => SetProgram(c, program)
    case CallClassify(_, rfh) => Classify(c, rfh)
    case CallProgress(_, f) => SetProgress(c, f)
    case CallPause(at) => Pause(c, at)
    case CallResume(at) => Resume(c, at)
    case CallSignal(_) => Signal(c)
    case CallStop(at) => Stop(c, at)
    case CallDrop(_) => Drop(c)
    case CallAbort(at) => Abort(c, at)
    case CallReset(_) => ResetStats(c)
  }

  function RunCalc(calls: seq<Call>): Calc {
    if |calls| == 0 then INIT else Apply(RunCalc(calls[..|calls| - 1]), calls[|calls| - 1])
  }

  /** The clock (time.perf_counter_ns) never goes back. */
  predicate Monotone(calls: seq<Call>) {
    forall i, j :: 0 <= i < j < |calls| ==> calls[i].at <= calls[j].at
  }

  // ------------------------------------------------------------------
  // The book of physical parts
  // ------------------------------------------------------------------

  /** One run of the machine on a part: its active time and the furthest point it reached. */
  datatype Segment = Segment(activeNs: int, progress: real)

  /** A cycle as the operator sees it: started, each finished pause, the pause going on. */
  datatype Machining = Machining(
    start: int, pauses: seq<(int, int)>, pausedAt: Option<int>,
    progress: real, fromTop: bool, known: bool, endSeen: bool, program: Option<string>)

  datatype Ledger = Ledger(
    run: Option<Machining>,
    open: seq<Segment>, openProgram: Option<string>,   // the unfinished part, [] = none
    finished: seq<seq<Segment>>, abandoned: seq<seq<Segment>>, abortLog: seq<int>,
    starts: nat, aborts: nat, continued: nat, discarded: nat, dropped: nat,
    leftOpen: nat, finishedLater: nat, resumed: nat)

  const EMPTY_LEDGER := Ledger(None, [], None, [], [], [], 0, 0, 0, 0, 0, 0, 0, 0)

  function PauseTime(pauses: seq<(int, int)>): int {
    if pauses == [] then 0
    else PauseTime(pauses[..|pauses| - 1]) + (pauses[|pauses| - 1].1 - pauses[|pauses| - 1].0)
  }

  /** Active time: until now (or the pause going on), minus the start, minus every finished pause. */
  function ActiveNs(m: Machining, now: int): int {
    (if m.pausedAt.Some? then m.pausedAt.value else now) - m.start - PauseTime(m.pauses)
  }

  /** Whole milliseconds, segment by segment. */
  function Duration(part: seq<Segment>): int {
    if part == [] then 0 else Duration(part[..|part| - 1]) + part[|part| - 1].activeNs / 1_000_000
  }

  function TotalNs(part: seq<Segment>): int {
    if part == [] then 0 else TotalNs(part[..|part| - 1]) + part[|part| - 1].activeNs
  }

  function Furthest(part: seq<Segment>): real {
    if part == [] then 0.0 else Max(part[|part| - 1].progress, Furthest(part[..|part| - 1]))
  }

  function FurthestSum(parts: seq<seq<Segment>>): real {
    if parts == [] then 0.0 else FurthestSum(parts[..|parts| - 1]) + Furthest(parts[|parts| - 1])
  }

  function Durations(parts: seq<seq<Segment>>): (d: seq<int>)
    ensures |d| == |parts|
  {
    if parts == [] then [] else Durations(parts[..|parts| - 1]) + [Duration(parts[|parts| - 1])]
  }

  function Abandon(l: Ledger): Ledger {
    l.(open := [], openProgram := None, abandoned := l.abandoned + [l.open])
  }

  /** The open part cannot be the one `program` works on. */
  predicate Foreign(l: Ledger, program: Option<string>) {
    l.open != [] && program.Some? && l.openProgram.Some? && program != l.openProgram
  }

  function BookStart(l: Ledger, at: int, program: Option<string>): (r: Ledger)
    ensures r.run.Some? && !r.run.value.known
  {
    var m := Machining(at, [], None, 0.0, false, false, false, program);
    var l1 := l.(run := Some(m), starts := l.starts + 1);
    if Foreign(l1, program) then Abandon(l1) else l1
  }

  function NoteStart(l: Ledger, m: Machining, rfh: bool): Ledger {
    var l1 := l.(run := Some(m.(known := true, fromTop := !rfh)), resumed := l.resumed + (if rfh then 1 else 0));
    if !rfh && l1.open != [] then Abandon(l1) else l1
  }

  /** The part as it stands once the running segment is added to the open ones. */
  function WithSegment(l: Ledger, m: Machining, now: int): seq<Segment> {
    l.open + [Segment(ActiveNs(m, now), m.progress)]
  }

  function KeepOpen(l: Ledger, part: seq<Segment>, program: Option<string>): Ledger {
    l.(open := part, openProgram := program, leftOpen := l.leftOpen + (if l.open == [] then 1 else 0))
  }

  function BookAbort(l: Ledger, m: Machining, now: int): Ledger {
    var part := WithSegment(l, m, now);
    KeepOpen(l.(aborts := l.aborts + 1,
                abortLog := l.abortLog + (if Duration(part) >= 1_000 then [Duration(part)] else [])),
             part, m.program).(run := None)
  }

  function BookStop(l: Ledger, m: Machining, now: int): Ledger {
    var part := WithSegment(l, m, now);
    if Duration(part) < 1_000 && Duration(l.open) == 0 then
      l.(run := None, discarded := l.discarded + 1)
    else if m.endSeen then
      l.(run := None, open := [], openProgram := None, finished := l.finished + [part],
         finishedLater := l.finishedLater + (if l.open == [] then 0 else 1))
    else if if m.known then !m.fromTop else l.open != [] then
      KeepOpen(l, part, m.program).(run := None, continued := l.continued + 1)
    else
      BookAbort(l, m, now)
  }

  function Book(l: Ledger, call: Call): Ledger {
    match (call, l.run)
    case (CallStart(at, start, program), None) =>
      var l1 := BookStart(l, at, program);
      if start.Some? then NoteStart(l1, l1.run.value, start.value) else l1
    case (CallSetProgram(_, program), Some(m)) =>
      if program.None? || program == m.program then l else
        var l1 := l.(run := Some(m.(program := program)));
        if Foreign(l1, program) then Abandon(l1) else l1
    case (CallClassify(_, rfh), Some(m)) => if m.known then l else NoteStart(l, m, rfh)
    case (CallProgress(_, f), Some(m)) => l.(run := Some(m.(progress := Max(m.progress, Clamp(f)))))
    case (CallPause(at), Some(m)) => if m.pausedAt.Some? then l else l.(run := Some(m.(pausedAt := Some(at))))
    case (CallResume(at), Some(m)) =>
      if m.pausedAt.None? then l
      else l.(run := Some(m.(pauses := m.pauses + [(m.pausedAt.value, at)], pausedAt := None)))
    case (CallSignal(_), Some(m)) => l.(run := Some(m.(endSeen := true)))
    case (CallStop(at), Some(m)) => BookStop(l, m, at)
    case (CallDrop(_), Some(m)) => l.(run := None, dropped := l.dropped + 1)
    case (CallAbort(at), Some(m)) => BookAbort(l, m, at)
    case (CallReset(_), None) => EMPTY_LEDGER
    case _ => l
  }

  function RunLedger(calls: seq<Call>): Ledger {
    if |calls| == 0 then EMPTY_LEDGER else Book(RunLedger(calls[..|calls| - 1]), calls[|calls| - 1])
  }

  // ------------------------------------------------------------------
  // The calculator always agrees with the book
  // ------------------------------------------------------------------

  ghost predicate SegmentsOk(part: seq<Segment>) {
    forall i :: 0 <= i < |part| ==> part[i].activeNs >= 0 && 0.0 <= part[i].progress <= 1.0
  }

  ghost predicate PartsOk(parts: seq<seq<Segment>>) {
    forall i :: 0 <= i < |parts| ==> parts[i] != [] && SegmentsOk(parts[i])
  }

  /** The cycle state and the machining agree, and no pause is longer than the run. */
  ghost predicate SameRun(c: Calc, m: Machining, now: int) {
    && c.cycle.startNs == Some(m.start) && c.cycle.pauseStartNs == m.pausedAt
    && c.cycle.totalPausedNs == PauseTime(m.pauses)
    && c.cycle.paused == m.pausedAt.Some? && c.cycle.complete == m.endSeen
    && c.cycle.program == m.program && c.cycle.progress == m.progress
    && c.cycle.classified == m.known && (m.known ==> c.cycle.rfh == !m.fromTop)
    && 0.0 <= m.progress <= 1.0
    && (m.pausedAt.Some? ==> m.pausedAt.value <= now) && ActiveNs(m, now) >= 0
  }

  ghost predicate RunsAgree(c: Calc, l: Ledger, now: int) {
    && c.cycle.running == l.run.Some?
    && (if l.run.Some? then SameRun(c, l.run.value, now) else c.cycle == NO_CYCLE)
    && (l.run.Some? && l.run.value.known && l.run.value.fromTop ==> l.open == [])
  }

  ghost predicate OpenAgrees(c: Calc, l: Ledger) {
    && c.partOpen == (l.open != []) && SegmentsOk(l.open)
    && c.carryMs == Duration(l.open) && c.openProgress == Furthest(l.open)
    && c.openProgram == l.openProgram && (l.open == [] ==> l.openProgram == None)
  }

  ghost predicate CountsAgree(c: Calc, l: Ledger) {
    && c.parts == |l.finished| && c.completed == LastOf(Durations(l.finished))
    && c.aborts == l.aborts && c.aborted == LastOf(l.abortLog)
    && c.rfhCount == l.resumed
    && c.partials == |l.abandoned| && c.partialEquiv == FurthestSum(l.abandoned)
    && PartsOk(l.finished) && PartsOk(l.abandoned)
  }

  ghost predicate Agrees(c: Calc, l: Ledger, now: int) {
    RunsAgree(c, l, now) && OpenAgrees(c, l) && CountsAgree(c, l)
  }

  /** Nothing is lost between the counters of one ledger. */
  ghost predicate Balanced(l: Ledger) {
    && l.leftOpen == l.finishedLater + |l.abandoned| + (if l.open == [] then 0 else 1)
    && l.starts == |l.finished| + l.aborts + l.continued + l.discarded + l.dropped
                   + (if l.run.Some? then 1 else 0)
    && l.finishedLater == Interrupted(l.finished)
  }

  /** Parts cut in more than one run. */
  function Interrupted(parts: seq<seq<Segment>>): nat {
    if parts == [] then 0
    else Interrupted(parts[..|parts| - 1]) + (if |parts[|parts| - 1]| > 1 then 1 else 0)
  }

  lemma AddSegment(part: seq<Segment>, s: Segment)
    requires SegmentsOk(part) && s.activeNs >= 0 && 0.0 <= s.progress <= 1.0
    ensures SegmentsOk(part + [s])
    ensures Duration(part + [s]) == Duration(part) + s.activeNs / NS_PER_MS
    ensures Furthest(part + [s]) == Max(s.progress, Furthest(part))
  {
  }

  lemma {:induction false} DurationNonneg(part: seq<Segment>)
    requires SegmentsOk(part)
    ensures Duration(part) >= 0 && 0.0 <= Furthest(part) <= 1.0
  {
    if part != [] {
      DurationNonneg(part[..|part| - 1]);
    }
  }

  lemma AddPart(parts: seq<seq<Segment>>, part: seq<Segment>)
    ensures Durations(parts + [part]) == Durations(parts) + [Duration(part)]
    ensures FurthestSum(parts + [part]) == FurthestSum(parts) + Furthest(part)
  {
  }

  lemma AddPause(pauses: seq<(int, int)>, p: (int, int))
    ensures PauseTime(pauses + [p]) == PauseTime(pauses) + (p.1 - p.0)
  {
  }

  /** Time only moves the clock forward: the agreement does not depend on when it is looked at. */
  lemma AgreesLater(c: Calc, l: Ledger, now: int, later: int)
    requires Agrees(c, l, now) && now <= later
    ensures Agrees(c, l, later)
  {
  }

  lemma ElapsedIsDuration(c: Calc, l: Ledger, now: int)
    requires Agrees(c, l, now) && l.run.Some?
    ensures Elapsed(c, now) == Duration(WithSegment(l, l.run.value, now))
    ensures l.open == [] || ResolvedRfh(c)
    ensures Progress(c) == Furthest(WithSegment(l, l.run.value, now))
    ensures SegmentsOk(WithSegment(l, l.run.value, now))
  {
    var m := l.run.value;
    AddSegment(l.open, Segment(ActiveNs(m, now), m.progress));
    DurationNonneg(l.open);
  }

  lemma PartsOkMore(parts: seq<seq<Segment>>, part: seq<Segment>)
    requires PartsOk(parts) && part != [] && SegmentsOk(part)
    ensures PartsOk(parts + [part])
  {
  }

  lemma AbandonAgrees(c: Calc, l: Ledger, now: int)
    requires Agrees(c, l, now) && l.open != []
    ensures Agrees(FinalizePartial(c), Abandon(l), now)
  {
    AddPart(l.abandoned, l.open);
    PartsOkMore(l.abandoned, l.open);
    assert CountsAgree(FinalizePartial(c), Abandon(l));
  }

  /** Classified as continued: both only note it. */
  lemma ContinueAgrees(c: Calc, l: Ledger, now: int)
    requires Agrees(c, l, now) && l.run.Some? && !l.run.value.known
    ensures Agrees(SetStart(c, true), NoteStart(l, l.run.value, true), now)
  {
  }

  /** Classified as from the top, with no part open. */
  lemma FromTopAgrees(c: Calc, l: Ledger, now: int)
    requires Agrees(c, l, now) && l.run.Some? && !l.run.value.known && l.open == []
    ensures Agrees(c.(cycle := c.cycle.(classified := true, rfh := false)),
                   l.(run := Some(l.run.value.(known := true, fromTop := true))), now)
  {
  }

  lemma NoteStartAgrees(c: Calc, l: Ledger, now: int, rfh: bool)
    requires Agrees(c, l, now) && l.run.Some? && !l.run.value.known
    ensures Agrees(SetStart(c, rfh), NoteStart(l, l.run.value, rfh), now)
  {
    if rfh {
      ContinueAgrees(c, l, now);
    } else {
      var c1, l1 := c, l;
      if l.open != [] {
        AbandonAgrees(c, l, now);
        c1, l1 := FinalizePartial(c), Abandon(l);
      }
      FromTopAgrees(c1, l1, now);
    }
  }

  lemma CountAgrees(c: Calc, l: Ledger, part: seq<Segment>, l': Ledger)
    requires CountsAgree(c, l) && part != [] && SegmentsOk(part)
    requires l'.finished == l.finished + [part]
    requires l'.resumed == l.resumed && l'.aborts == l.aborts && l'.abortLog == l.abortLog
    requires l'.abandoned == l.abandoned
    ensures CountsAgree(Count(c, Duration(part)), l')
  {
    AddPart(l.finished, part);
    PartsOkMore(l.finished, part);
    PushKeepsLast(Durations(l.finished), Duration(part));
  }

  lemma AbortAgrees(c: Calc, l: Ledger, now: int)
    requires Agrees(c, l, now) && l.run.Some?
    ensures Agrees(Abort(c, now), BookAbort(l, l.run.value, now), now)
  {
    ElapsedIsDuration(c, l, now);
    var ms := Elapsed(c, now);
    PushKeepsLast(l.abortLog, ms);
    var c', l' := Abort(c, now), BookAbort(l, l.run.value, now);
    assert l'.abortLog == if ms >= MIN_VALID_CYCLE_MS then l.abortLog + [ms] else l.abortLog;
    assert CountsAgree(c', l');
    assert OpenAgrees(c', l');
  }

  lemma StopAgrees(c: Calc, l: Ledger, now: int)
    requires Agrees(c, l, now) && l.run.Some?
    ensures Agrees(Stop(c, now), BookStop(l, l.run.value, now), now)
  {
    ElapsedIsDuration(c, l, now);
    var m := l.run.value;
    var part := WithSegment(l, m, now);
    var c', l' := Stop(c, now), BookStop(l, m, now);
    if TooShort(c, now) {
    } else if c.cycle.complete {
      CountAgrees(c, l, part, l');
    } else if ResolvedRfh(c) {
      assert OpenAgrees(c', l');
    } else {
      assert c' == Abort(c, now);
      AbortAgrees(c, l, now);
    }
  }

  /** A program that cannot be the open part's leaves that part behind. */
  lemma ForeignAgrees(c: Calc, l: Ledger, now: int, program: Option<string>)
    requires Agrees(c, l, now)
    ensures Agrees(if OtherProgram(c, program) then FinalizePartial(c) else c,
                   if Foreign(l, program) then Abandon(l) else l, now)
  {
    if Foreign(l, program) {
      AbandonAgrees(c, l, now);
    }
  }

  lemma StartedAgrees(c: Calc, l: Ledger, at: int, program: Option<string>)
    requires Agrees(c, l, at) && l.run.None?
    ensures Agrees(c.(cycle := NO_CYCLE.(startNs := Some(at), running := true, program := program)),
                   l.(run := Some(Machining(at, [], None, 0.0, false, false, false, program)), starts := l.starts + 1),
                   at)
  {
  }

  lemma BookStartAgrees(c: Calc, l: Ledger, at: int, program: Option<string>)
    requires Agrees(c, l, at) && l.run.None?
    ensures Agrees(Started(c, at, program), BookStart(l, at, program), at)
  {
    StartedAgrees(c, l, at, program);
    var c1 := c.(cycle := NO_CYCLE.(startNs := Some(at), running := true, program := program));
    var m := Machining(at, [], None, 0.0, false, false, false, program);
    ForeignAgrees(c1, l.(run := Some(m), starts := l.starts + 1), at, program);
  }

  lemma BeginAgrees(c: Calc, l: Ledger, at: int, start: Option<bool>, program: Option<string>)
    requires Agrees(c, l, at) && l.run.None?
    ensures Agrees(Start(c, at, start, program), Book(l, CallStart(at, start, program)), at)
  {
    BookStartAgrees(c, l, at, program);
    if start.Some? {
      NoteStartAgrees(Started(c, at, program), BookStart(l, at, program), at, start.value);
    }
  }

  lemma SetProgramAgrees(c: Calc, l: Ledger, at: int, program: Option<string>)
    requires Agrees(c, l, at)
    ensures Agrees(SetProgram(c, program), Book(l, CallSetProgram(at, program)), at)
  {
    if l.run.Some? && program.Some? && program != l.run.value.program {
      var c1 := c.(cycle := c.cycle.(program := program));
      var l1 := l.(run := Some(l.run.value.(program := program)));
      assert Agrees(c1, l1, at);
      ForeignAgrees(c1, l1, at, program);
    }
  }

  lemma PauseAgrees(c: Calc, l: Ledger, at: int)
    requires Agrees(c, l, at)
    ensures Agrees(Pause(c, at), Book(l, CallPause(at)), at)
  {
    if l.run.Some? && l.run.value.pausedAt.None? {
      assert SameRun(Pause(c, at), Book(l, CallPause(at)).run.value, at);
    } else {
      assert Pause(c, at) == c && Book(l, CallPause(at)) == l;
    }
  }

  lemma ResumeAgrees(c: Calc, l: Ledger, at: int)
    requires Agrees(c, l, at)
    ensures Agrees(Resume(c, at), Book(l, CallResume(at)), at)
  {
    if l.run.Some? && l.run.value.pausedAt.Some? {
      var m := l.run.value;
      AddPause(m.pauses, (m.pausedAt.value, at));
      assert SameRun(Resume(c, at), Book(l, CallResume(at)).run.value, at);
    } else {
      assert Resume(c, at) == c && Book(l, CallResume(at)) == l;
    }
  }

  /** The calls that only touch the running cycle, or clear everything. */
  lemma TouchAgrees(c: Calc, l: Ledger, call: Call)
    requires Agrees(c, l, call.at) && (call.CallProgress? || call.CallSignal?)
    ensures Agrees(Apply(c, call), Book(l, call), call.at)
  {
  }

  lemma ClearAgrees(c: Calc, l: Ledger, call: Call)
    requires Agrees(c, l, call.at) && (call.CallDrop? || call.CallReset?)
    ensures Agrees(Apply(c, call), Book(l, call), call.at)
  {
  }

  /** Calls that start, classify or end a cycle do nothing when there is none, or one already. */
  lemma IgnoredAgrees(c: Calc, l: Ledger, call: Call)
    requires Agrees(c, l, call.at)
    requires match call
             case CallStart(_, _, _) => l.run.Some?
             case CallClassify(_, _) => l.run.None? || l.run.value.known
             case CallStop(_) => l.run.None?
             case CallAbort(_) => l.run.None?
             case _ => false
    ensures Apply(c, call) == c && Book(l, call) == l
  {
  }

  /** One call: whatever it is, the calculator and the book stay in step. */
  lemma StepAgrees(c: Calc, l: Ledger, now: int, call: Call)
    requires Agrees(c, l, now) && now <= call.at
    ensures Agrees(Apply(c, call), Book(l, call), call.at)
  {
    AgreesLater(c, l, now, call.at);
    match call
    case CallStart(at, start, program) =>
      if l.run.None? { BeginAgrees(c, l, at, start, program); } else { IgnoredAgrees(c, l, call); }
    case CallSetProgram(at, program) => SetProgramAgrees(c, l, at, program);
    case CallClassify(at, rfh) =>
      if l.run.Some? && !l.run.value.known { NoteStartAgrees(c, l, at, rfh); } else { IgnoredAgrees(c, l, call); }
    case CallStop(at) =>
      if l.run.Some? { StopAgrees(c, l, at); } else { IgnoredAgrees(c, l, call); }
    case CallAbort(at) =>
      if l.run.Some? { AbortAgrees(c, l, at); } else { IgnoredAgrees(c, l, call); }
    case CallPause(at) => PauseAgrees(c, l, at);
    case CallResume(at) => ResumeAgrees(c, l, at);
    case CallProgress(_, _) => TouchAgrees(c, l, call);
    case CallSignal(_) => TouchAgrees(c, l, call);
    case _ => ClearAgrees(c, l, call);
  }

  lemma AbandonBalanced(l: Ledger)
    requires Balanced(l) && l.open != []
    ensures Balanced(Abandon(l))
  {
  }

  lemma NoteBalanced(l: Ledger, m: Machining, rfh: bool)
    requires Balanced(l) && l.run.Some?
    ensures Balanced(NoteStart(l, m, rfh))
  {
    if !rfh && l.open != [] {
      AbandonBalanced(l);
    }
  }

  lemma BeginBalanced(l: Ledger, call: Call)
    requires Balanced(l) && l.run.None? && call.CallStart?
    ensures Balanced(Book(l, call))
  {
    var m := Machining(call.at, [], None, 0.0, false, false, false, call.program);
    var l1 := l.(run := Some(m), starts := l.starts + 1);
    if l1.open != [] {
      AbandonBalanced(l1);
    }
    if call.start.Some? {
      var l2 := BookStart(l, call.at, call.program);
      NoteBalanced(l2, l2.run.value, call.start.value);
    }
  }

  lemma AbortBalanced(l: Ledger, m: Machining, now: int)
    requires Balanced(l) && l.run.Some?
    ensures Balanced(BookAbort(l, m, now))
  {
  }

  lemma InterruptedMore(parts: seq<seq<Segment>>, part: seq<Segment>)
    ensures Interrupted(parts + [part]) == Interrupted(parts) + if |part| > 1 then 1 else 0
  {
    assert (parts + [part])[..|parts|] == parts;
  }

  lemma StopBalanced(l: Ledger, m: Machining, now: int)
    requires Balanced(l) && l.run.Some?
    ensures Balanced(BookStop(l, m, now))
  {
    InterruptedMore(l.finished, WithSegment(l, m, now));
    AbortBalanced(l, m, now);
  }

  lemma SetProgramBalanced(l: Ledger, call: Call)
    requires Balanced(l) && l.run.Some? && call.CallSetProgram?
    ensures Balanced(Book(l, call))
  {
    if l.open != [] {
      AbandonBalanced(l.(run := Some(l.run.value.(program := call.program))));
    }
  }

  lemma StepBalanced(l: Ledger, call: Call)
    requires Balanced(l)
    ensures Balanced(Book(l, call))
  {
    match (call, l.run)
    case (CallStart(_, _, _), None) => BeginBalanced(l, call);
    case (CallSetProgram(_, program), Some(m)) => SetProgramBalanced(l, call);
    case (CallClassify(_, rfh), Some(m)) => NoteBalanced(l, m, rfh);
    case (CallStop(at), Some(m)) => StopBalanced(l, m, at);
    case (CallAbort(at), Some(m)) => AbortBalanced(l, m, at);
    case _ =>
  }

  function LastAt(calls: seq<Call>): int {
    if calls == [] then 0 else calls[|calls| - 1].at
  }

  /** Every call sequence with a monotonic clock: the counters are what the book of parts says. */
  lemma {:induction false} CalculatorKeepsTheBook(calls: seq<Call>)
    requires Monotone(calls)
    ensures Agrees(RunCalc(calls), RunLedger(calls), LastAt(calls))
    ensures Balanced(RunLedger(calls))
  {
    if calls != [] {
      var init, last := calls[..|calls| - 1], calls[|calls| - 1];
      CalculatorKeepsTheBook(init);
      if init == [] {
        AgreesLaterInit(last.at);
        StepAgrees(INIT, EMPTY_LEDGER, last.at, last);
      } else {
        StepAgrees(RunCalc(init), RunLedger(init), LastAt(init), last);
      }
      StepBalanced(RunLedger(init), last);
    }
  }

  lemma AgreesLaterInit(now: int)
    ensures Agrees(INIT, EMPTY_LEDGER, now)
  {
  }

  // ------------------------------------------------------------------
  // What this means for the numbers on the dashboard
  // ------------------------------------------------------------------

  /** The furthest point of a part is one that some run reached, and no run got further; 0 before there is one. */
  lemma {:induction false} FurthestMeans(part: seq<Segment>)
    requires SegmentsOk(part)
    ensures forall i :: 0 <= i < |part| ==> part[i].progress <= Furthest(part)
    ensures if part == [] then Furthest(part) == 0.0
            else Furthest(part) == 0.0 || exists i :: 0 <= i < |part| && part[i].progress == Furthest(part)
  {
    if part != [] {
      var init := part[..|part| - 1];
      FurthestMeans(init);
      if exists i :: 0 <= i < |init| && init[i].progress == Furthest(init) {
        var i :| 0 <= i < |init| && init[i].progress == Furthest(init);
        assert part[i] == init[i];
      }
    }
  }

  /** A reported fraction counts as the point between 0 and 1 nearest to it. */
  lemma FractionCounts(c: Calc, f: real)
    requires c.cycle.running && 0.0 <= c.cycle.progress <= 1.0
    ensures var q := SetProgress(c, f).cycle.progress;
            && c.cycle.progress <= q <= 1.0 && (f <= 1.0 ==> f <= q) && (f >= 1.0 ==> q == 1.0)
            && (q == c.cycle.progress || q == f || (q == 1.0 && f > 1.0))
    ensures SetProgress(c, f) == c.(cycle := c.cycle.(progress := SetProgress(c, f).cycle.progress))
  {
  }

  lemma {:induction false} DurationBounds(part: seq<Segment>)
    requires SegmentsOk(part) && part != []
    ensures Duration(part) * NS_PER_MS <= TotalNs(part) < (Duration(part) + |part|) * NS_PER_MS
  {
    if |part| > 1 {
      DurationBounds(part[..|part| - 1]);
    }
  }

  /** A counted duration is the sum over the part's segments of the whole milliseconds of active
      time, hence within one millisecond per segment of the true total. */
  ghost predicate CountedRight(duration: int, part: seq<Segment>) {
    duration == Duration(part) && duration * 1_000_000 <= TotalNs(part) < (duration + |part|) * 1_000_000
  }

  /** The durations kept are those of the newest counted parts, in order. */
  ghost predicate CountsNewest(c: Calc, l: Ledger) {
    && |c.completed| <= c.parts == |l.finished|
    && forall i :: 0 <= i < |c.completed| ==> CountedRight(c.completed[i], l.finished[c.parts - |c.completed| + i])
  }

  lemma CountedDurations(calls: seq<Call>)
    requires Monotone(calls)
    ensures CountsNewest(RunCalc(calls), RunLedger(calls))
  {
    CalculatorKeepsTheBook(calls);
    CountedOf(RunCalc(calls), RunLedger(calls));
  }

  lemma CountedOf(c: Calc, l: Ledger)
    requires CountsAgree(c, l)
    ensures CountsNewest(c, l)
  {
    forall i | 0 <= i < |c.completed|
      ensures CountedRight(c.completed[i], l.finished[c.parts - |c.completed| + i])
    {
      LastIndex(Durations(l.finished), i);
      DurationsAt(l.finished, c.parts - |c.completed| + i);
      DurationBounds(l.finished[c.parts - |c.completed| + i]);
    }
  }

  lemma {:induction false} DurationsAt(parts: seq<seq<Segment>>, i: nat)
    requires i < |parts|
    ensures Durations(parts)[i] == Duration(parts[i])
  {
    if i < |parts| - 1 {
      DurationsAt(parts[..|parts| - 1], i);
    }
  }

  lemma LastIndex(d: seq<int>, i: nat)
    requires i < |LastOf(d)|
    ensures |LastOf(d)| <= |d| && LastOf(d)[i] == d[|d| - |LastOf(d)| + i]
  {
  }

  /** Physical parts and starts are conserved over every call sequence. */
  lemma PartsConserved(calls: seq<Call>)
    requires Monotone(calls)
    ensures var c, l := RunCalc(calls), RunLedger(calls);
            && l.leftOpen == Interrupted(l.finished) + c.partials + (if c.partOpen then 1 else 0)
            && l.starts == c.parts + c.aborts + l.continued + l.discarded + l.dropped
                           + (if c.cycle.running then 1 else 0)
            && |c.completed| == (if c.parts < 500 then c.parts else 500)
            && c.partialEquiv == FurthestSum(l.abandoned) && 0.0 <= c.partialEquiv <= c.partials as real
            && (!c.partOpen ==> c.carryMs == 0 && c.openProgress == 0.0 && c.openProgram == None)
  {
    CalculatorKeepsTheBook(calls);
    FurthestSumBounds(RunLedger(calls).abandoned);
  }

  lemma {:induction false} FurthestSumBounds(parts: seq<seq<Segment>>)
    requires PartsOk(parts)
    ensures 0.0 <= FurthestSum(parts) <= |parts| as real
  {
    if parts != [] {
      FurthestSumBounds(parts[..|parts| - 1]);
      DurationNonneg(parts[|parts| - 1]);
    }
  }

  /** The displayed time never runs backwards, stands still while paused, and a resume does not change it. */
  lemma ElapsedSteady(calls: seq<Call>, t1: int, t2: int)
    requires Monotone(calls) && calls != [] && LastAt(calls) <= t1 <= t2
    ensures RunCalc(calls).cycle.running == RunLedger(calls).run.Some?
    ensures var c := RunCalc(calls);
            && (c.cycle.running ==>
                  var activeNs := ActiveNs(RunLedger(calls).run.value, t1);
                  0 <= activeNs && Elapsed(c, t1) == c.carryMs + activeNs / NS_PER_MS)
            && (!c.cycle.running ==> Elapsed(c, t1) == 0)
            && Elapsed(c, t1) <= Elapsed(c, t2)
            && (c.cycle.paused ==> Elapsed(c, t1) == Elapsed(c, t2) == Elapsed(Resume(c, t1), t1))
  {
    CalculatorKeepsTheBook(calls);
    DurationNonneg(RunLedger(calls).open);
  }

  // ------------------------------------------------------------------
  // The class
  // ------------------------------------------------------------------

  /** `now` is what time.perf_counter_ns() returns inside the call. */
  class CycleTimeCalculator {
    var cycle: Cycle
    var completed: seq<int>
    var aborted: seq<int>
    var parts: nat
    var aborts: nat
    var rfhCount: nat
    var carryMs: int
    var partOpen: bool
    var openProgress: real
    var openProgram: Option<string>
    var partials: nat
    var partialEquiv: real

    function Fields(): Calc
      reads this
    {
      Calc(cycle, completed, aborted, parts, aborts, rfhCount, carryMs, partOpen, openProgress, openProgram,
           partials, partialEquiv)
    }

    constructor ()
      ensures Fields() == INIT
    {
      cycle, completed, aborted, parts, aborts, rfhCount := NO_CYCLE, [], [], 0, 0, 0;
      carryMs, partOpen, openProgress, openProgram := 0, false, 0.0, None;
      partials, partialEquiv := 0, 0.0;
    }

    method StartCycle(now: int, runFromHere: Option<bool>, program: Option<string>)
      modifies this
      ensures Fields() == Start(old(Fields()), now, runFromHere, program)
    {
      if cycle.running {
        return;
      }
      cycle := NO_CYCLE.(startNs := Some(now), running := true, program := program);
      if partOpen && program.Some? && openProgram.Some? && program != openProgram {
        FinalizeOpenPart();
      }
      if runFromHere.Some? {
        SetStartPoint(runFromHere.value);
      }
    }

    method SetProgramOf(program: Option<string>)
      modifies this
      ensures Fields() == SetProgram(old(Fields()), program)
    {
      if !cycle.running || program.None? || program == cycle.program {
        return;
      }
      cycle := cycle.(program := program);
      if partOpen && openProgram.Some? && program != openProgram {
        FinalizeOpenPart();
      }
    }

    method ClassifyStart(runFromHere: bool)
      modifies this
      ensures Fields() == Classify(old(Fields()), runFromHere)
    {
      if cycle.running && !cycle.classified {
        SetStartPoint(runFromHere);
      }
    }

    method SetProgressTo(fraction: real)
      modifies this
      ensures Fields() == SetProgress(old(Fields()), fraction)
    {
      if cycle.running {
        var f := Clamp(fraction);
        cycle := cycle.(progress := Max(cycle.progress, f));
      }
    }

    method PauseCycle(now: int)
      modifies this
      ensures Fields() == Pause(old(Fields()), now)
    {
      if !cycle.running || cycle.paused {
        return;
      }
      cycle := cycle.(pauseStartNs := Some(now));
      cycle := cycle.(paused := true);
    }

    method ResumeCycle(now: int)
      requires cycle.paused ==> cycle.pauseStartNs.Some?
      modifies this
      ensures Fields() == Resume(old(Fields()), now)
    {
      if !cycle.running || !cycle.paused {
        return;
      }
      var pausedNs := now - cycle.pauseStartNs.value;
      cycle := cycle.(totalPausedNs := cycle.totalPausedNs + pausedNs);
      cycle := cycle.(pauseStartNs := None, paused := false);
    }

    method SignalCycleComplete()
      modifies this
      ensures Fields() == Signal(old(Fields()))
    {
      if !cycle.running || cycle.complete {
        return;
      }
      cycle := cycle.(complete := true);
    }

    method StopCycle(now: int)
      modifies this
      ensures Fields() == Stop(old(Fields()), now)
    {
      if !cycle.running {
        return;
      }
      var durationMs := Elapsed(Fields(), now);
      var rfh := ResolvedRfh(Fields());
      var progress := Progress(Fields());
      if durationMs < MIN_VALID_CYCLE_MS && carryMs == 0 {
      } else if cycle.complete {
        completed := Push(completed, durationMs);
        parts := parts + 1;
        CloseOpenPart();
      } else if rfh {
        LeaveOpen(durationMs, progress);
      } else {
        aborts := aborts + 1;
        if durationMs >= MIN_VALID_CYCLE_MS {
          aborted := Push(aborted, durationMs);
        }
        LeaveOpen(durationMs, progress);
      }
      cycle := NO_CYCLE;
    }

    method DropCycle()
      modifies this
      ensures Fields() == Drop(old(Fields()))
    {
      if cycle.running {
        cycle := NO_CYCLE;
      }
    }

    method AbortCycle(now: int)
      modifies this
      ensures Fields() == Abort(old(Fields()), now)
    {
      if !cycle.running {
        return;
      }
      var durationMs := Elapsed(Fields(), now);
      var progress := Progress(Fields());
      aborts := aborts + 1;
      if durationMs >= MIN_VALID_CYCLE_MS {
        aborted := Push(aborted, durationMs);
      }
      LeaveOpen(durationMs, progress);
      cycle := NO_CYCLE;
    }

    method Reset()
      modifies this
      ensures Fields() == ResetStats(old(Fields()))
    {
      if cycle.running {
        return;
      }
      ClearCounts();
      CloseOpenPart();
      partials, partialEquiv := 0, 0.0;
    }

    method ClearCounts()
      modifies this`completed, this`aborted, this`parts, this`aborts, this`rfhCount
      ensures completed == [] && aborted == [] && parts == 0 && aborts == 0 && rfhCount == 0
    {
      completed, aborted, parts, aborts, rfhCount := [], [], 0, 0, 0;
    }

    method SetStartPoint(runFromHere: bool)
      modifies this
      ensures Fields() == SetStart(old(Fields()), runFromHere)
    {
      cycle := cycle.(classified := true);
      cycle := cycle.(rfh := runFromHere);
      if runFromHere {
        rfhCount := rfhCount + 1;
      } else {
        if partOpen {
          FinalizeOpenPart();
        }
        carryMs := 0;
      }
    }

    method LeaveOpen(durationMs: int, progress: real)
      modifies this
      ensures Fields() == LeavePartOpen(old(Fields()), durationMs, progress)
    {
      carryMs := durationMs;
      partOpen := true;
      openProgress := progress;
      openProgram := cycle.program;
    }

    method CloseOpenPart()
      modifies this`carryMs, this`partOpen, this`openProgress, this`openProgram
      ensures Fields() == ClosePart(old(Fields()))
    {
      carryMs := 0;
      partOpen := false;
      openProgress := 0.0;
      openProgram := None;
    }

    method FinalizeOpenPart()
      modifies this
      ensures Fields() == FinalizePartial(old(Fields()))
    {
      var frac := openProgress;
      partials := partials + 1;
      partialEquiv := partialEquiv + frac;
      CloseOpenPart();
    }
  }
}
