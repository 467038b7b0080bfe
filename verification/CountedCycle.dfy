/** When a cycle counts as a finished part, in terms of everything it showed: the status loop (status.py) and the line
    tracker (program_tracker.py) together, over a whole cycle. */
module CountedCycle {
  import opened Wrappers
  import opened CT = CycleTime
  import opened PT = ProgramTracker
  import opened CM = CycleMachine

  function ObsOf(s: Stat): Obs {
    if s.inSub then InSub(s.motion, s.current, s.subMoves) else InProgram(s.motion, s.current, s.read)
  }

  /** What the samples among the events show. */
  function Observed(events: seq<Event>): seq<Obs> {
    if events == [] then [] else
      var n := |events| - 1;
      Observed(events[..n]) + if events[n].Sampled? then [ObsOf(events[n].s)] else []
  }

  /** The loop is idle and the first event starts a cycle; it goes on after every event, LinuxCNC is there and the
      program's landmarks stay the same. Samples that cannot be read and a program found late may be among them. */
  ghost predicate InCycle(before: seq<Event>, cycle: seq<Event>, info: ProgramInfo) {
    && RunLoop(before).m.mode.Idle? && cycle != [] && cycle[0].Sampled? && IsProgramRunning(cycle[0].s)
    && (forall k :: 0 <= k < |cycle| ==> Within(cycle[k], info))
    && (forall k {:trigger cycle[..k]} :: 0 < k < |cycle| ==> !RunLoop(before + cycle[..k]).m.mode.Idle?)
  }

  predicate Within(e: Event, info: ProgramInfo) { !e.LinuxCncGone? && (e.Sampled? ==> e.s.info == info) }

  /** The history of the cycle, with the line numbers last seen while idle. */
  function HistoryOf(before: seq<Event>, cycle: seq<Event>, info: ProgramInfo): History {
    History(Observed(cycle), IdleLines(before).0, IdleLines(before).1, info)
  }

  lemma {:induction false} TrackPrefix(h: History, more: seq<Obs>, n: nat)
    requires n <= |h.obs|
    ensures Track(h.(obs := h.obs + more), n) == Track(h, n)
  {
    if n > 0 {
      TrackPrefix(h, more, n - 1);
      assert (h.obs + more)[n - 1] == h.obs[n - 1];
    }
  }

  /** One more sample in the history is one more step of the tracker. */
  lemma TrackMore(h: History, o: Obs)
    ensures var h' := h.(obs := h.obs + [o]); Track(h', |h'.obs|) == Next(Track(h, |h.obs|), o, h.info)
  {
    TrackPrefix(h, [o], |h.obs|);
  }

  lemma RunOne(events: seq<Event>, e: Event)
    ensures RunLoop(events + [e]) == Round(RunLoop(events), e)
  {
    assert (events + [e])[..|events|] == events;
  }

  lemma SplitLast(before: seq<Event>, cycle: seq<Event>)
    requires cycle != []
    ensures before + cycle == before + cycle[..|cycle| - 1] + [cycle[|cycle| - 1]]
  {
  }

  lemma OneMoreEvent(before: seq<Event>, cycle: seq<Event>)
    requires cycle != []
    ensures var n := |cycle| - 1;
            RunLoop(before + cycle) == Round(RunLoop(before + cycle[..n]), cycle[n])
  {
    SplitLast(before, cycle);
    RunOne(before + cycle[..|cycle| - 1], cycle[|cycle| - 1]);
  }

  lemma CyclePrefix(before: seq<Event>, cycle: seq<Event>, info: ProgramInfo)
    requires InCycle(before, cycle, info) && |cycle| > 1
    ensures InCycle(before, cycle[..|cycle| - 1], info)
  {
    var init := cycle[..|cycle| - 1];
    forall k {:trigger init[..k]} | 0 < k < |init| ensures !RunLoop(before + init[..k]).m.mode.Idle? {
      assert init[..k] == cycle[..k];
    }
  }

  /** What one event does to the tracker of a cycle. */
  lemma TrackerStep(l: Loop, e: Event, info: ProgramInfo)
    requires Within(e, info) && (!l.m.mode.Idle? || !e.Sampled?)
    ensures Round(l, e).m.tracker == if e.Sampled? then Next(l.m.tracker, ObsOf(e.s), info) else l.m.tracker
  {
  }

  lemma StartStep(l: Loop, e: Event, info: ProgramInfo)
    requires Within(e, info) && l.m.mode.Idle? && e.Sampled? && IsProgramRunning(e.s)
    ensures Round(l, e).m.tracker == Next(Begin(l.m.idleMotion, l.m.idleCurrent), ObsOf(e.s), info)
  {
  }

  ghost predicate InStep(before: seq<Event>, cycle: seq<Event>, info: ProgramInfo) {
    var h := HistoryOf(before, cycle, info);
    RunLoop(before + cycle).m.tracker == Track(h, |h.obs|)
  }

  lemma TracksFirst(before: seq<Event>, cycle: seq<Event>, info: ProgramInfo)
    requires InCycle(before, cycle, info) && |cycle| == 1
    ensures InStep(before, cycle, info)
  {
    OneMoreEvent(before, cycle);
    assert before + cycle[..0] == before;
    IdleLinesKept(before);
    StartStep(RunLoop(before), cycle[0], info);
    TrackMore(HistoryOf(before, [], info), ObsOf(cycle[0].s));
  }

  lemma TracksNext(before: seq<Event>, cycle: seq<Event>, info: ProgramInfo)
    requires InCycle(before, cycle, info) && |cycle| > 1 && InStep(before, cycle[..|cycle| - 1], info)
    ensures InStep(before, cycle, info)
  {
    var n := |cycle| - 1;
    var e, h := cycle[n], HistoryOf(before, cycle[..n], info);
    OneMoreEvent(before, cycle);
    TrackerStep(RunLoop(before + cycle[..n]), e, info);
    if e.Sampled? {
      TrackMore(h, ObsOf(e.s));
    } else {
      assert HistoryOf(before, cycle, info) == h;
    }
  }

  /** All through a cycle the loop's tracker is the tracker of the cycle's own samples. */
  lemma {:induction false} TracksCycle(before: seq<Event>, cycle: seq<Event>, info: ProgramInfo)
    requires InCycle(before, cycle, info)
    ensures InStep(before, cycle, info)
    decreases cycle
  {
    if |cycle| == 1 {
      TracksFirst(before, cycle, info);
    } else {
      CyclePrefix(before, cycle, info);
      TracksCycle(before, cycle[..|cycle| - 1], info);
      TracksNext(before, cycle, info);
    }
  }

  /** The sample that ends a running cycle counts a finished part exactly if the machine is on and not in E-stop, the
      samples of the cycle show the program's end, and the cycle was not too short. */
  lemma CountedMeans(before: seq<Event>, cycle: seq<Event>, s: Stat)
    requires InCycle(before, cycle + [Sampled(s)], s.info) && cycle != []
    requires RunLoop(before + cycle).m.mode.Running? && IsIdle(s)
    requires Recorded(HistoryOf(before, cycle + [Sampled(s)], s.info))
    ensures var l, l' := RunLoop(before + cycle), RunLoop(before + cycle + [Sampled(s)]);
            && l'.m.mode.Idle?
            && (l'.outcome == Some(Completed) <==> l'.m.counter.parts == l.m.counter.parts + 1)
            && (l'.outcome == Some(Completed) <==>
                  && s.on && !s.estop && EndShown(HistoryOf(before, cycle + [Sampled(s)], s.info))
                  && !TooShort(BeforeEnd(l.m, s), s.at))
  {
    var whole, l := cycle + [Sampled(s)], RunLoop(before + cycle);
    var h := HistoryOf(before, whole, s.info);
    assert before + cycle + [Sampled(s)] == before + whole;
    TracksCycle(before, whole, s.info);
    ReachedEndMeans(h);
    LoopCoupled(before + cycle);
    UpdateCoupled(l.m, s);
    OutcomeExact(before + cycle, s);
    EndTracker(l, s);
    assert whole[..|cycle|] == cycle;
    OneMoreEvent(before, whole);
  }

  lemma EndTracker(l: Loop, s: Stat)
    ensures Round(l, Sampled(s)).m.tracker == TrackerAfter(l.m, s)
    ensures Round(l, Sampled(s)).m == Update(l.m, s)
  {
  }

  // ------------------------------------------------------------------
  // How a cycle started, and how far it got
  // ------------------------------------------------------------------

  /** What the calculator has been told of a cycle is what the tracker knows: whether and where the program has started
      to move, and how far it is. */
  predicate Noted(m: Machine, info: ProgramInfo) {
    var c, t := m.counter.cycle, m.tracker;
    && !m.mode.Idle? && c.running && c.classified == t.startLine.Some?
    && (t.startLine.Some? ==> c.rfh == !IsNearStart(info, t.startLine.value))
    && c.progress == TrackedProgress(t, info)
  }

  lemma FractionGrows(info: ProgramInfo, a: int, b: int)
    requires a <= b
    ensures Fraction(info, a) <= Fraction(info, b)
  {
    if info.firstMotion < a && b < info.tail && info.firstMotion > 0 {
      var span := (info.tail - info.firstMotion) as real;
      QuotientBounds((a - info.firstMotion) as real, (b - info.firstMotion) as real);
      assert (a - info.firstMotion) as real / span * span == (a - info.firstMotion) as real;
      assert (b - info.firstMotion) as real / span * span == (b - info.firstMotion) as real;
      QuotientOrder((a - info.firstMotion) as real / span, (b - info.firstMotion) as real / span, span);
    }
  }

  lemma QuotientOrder(p: real, q: real, span: real)
    requires span > 0.0 && p * span <= q * span
    ensures p <= q
  {
  }

  /** A sample leaves the first line where it is and moves the last one only ahead. */
  lemma LinesGrow(t: Tracker, s: Stat)
    ensures var t' := Tracked(t, s);
            && (t.startLine.Some? ==> t'.startLine == t.startLine) && t.maxLine <= t'.maxLine
            && (s.inSub ==> t'.startLine == t.startLine && t'.maxLine == t.maxLine)
            && TrackedProgress(t, s.info) <= TrackedProgress(t', s.info)
  {
    FractionGrows(s.info, t.maxLine, Tracked(t, s).maxLine);
  }

  /** Line tracking of one sample tells the calculator what the tracker then knows. */
  lemma TrackingNotes(c: Calc, t: Tracker, s: Stat)
    requires c.cycle.running && c.cycle.classified == t.startLine.Some?
    requires t.startLine.Some? ==> c.cycle.rfh == !IsNearStart(s.info, t.startLine.value)
    requires c.cycle.progress == TrackedProgress(t, s.info)
    ensures var t' := Tracked(t, s); var c' := ApplyAll(c, TrackCalls(t', s)).cycle;
            && c'.running && c'.classified == t'.startLine.Some?
            && (t'.startLine.Some? ==> c'.rfh == !IsNearStart(s.info, t'.startLine.value))
            && c'.progress == TrackedProgress(t', s.info)
  {
    var t' := Tracked(t, s);
    LinesGrow(t, s);
    if !s.inSub && t'.startLine.Some? {
      var classify := CallClassify(s.at, RunFromHere(t', s.info).value);
      var progress := CallProgress(s.at, TrackedProgress(t', s.info));
      assert TrackCalls(t', s) == [classify] + [progress];
      ApplyConcat(c, [classify], [progress]);
      One(c, classify);
      One(Apply(c, classify), progress);
    }
  }

  lemma StartNoted(l: Loop, s: Stat)
    requires LoopOk(l) && l.m.mode.Idle? && IsProgramRunning(s)
    ensures Noted(Round(l, Sampled(s)).m, s.info)
  {
    UpdateCases(l.m, s);
    TrackingNotes(Start(l.m.counter, s.at, None, ProgramOf(s.info)), Begin(l.m.idleMotion, l.m.idleCurrent), s);
  }

  lemma StepNoted(l: Loop, e: Event, info: ProgramInfo)
    requires LoopOk(l) && Noted(l.m, info) && Within(e, info) && !Round(l, e).m.mode.Idle?
    ensures Noted(Round(l, e).m, info)
  {
    if e.Sampled? {
      UpdateCases(l.m, e.s);
      TrackingNotes(l.m.counter, l.m.tracker, e.s);
    }
  }

  lemma {:induction false} CycleNoted(before: seq<Event>, cycle: seq<Event>, info: ProgramInfo)
    requires InCycle(before, cycle, info) && !RunLoop(before + cycle).m.mode.Idle?
    ensures Noted(RunLoop(before + cycle).m, info)
    decreases cycle
  {
    var n := |cycle| - 1;
    var l := RunLoop(before + cycle[..n]);
    OneMoreEvent(before, cycle);
    LoopCoupled(before + cycle[..n]);
    if n == 0 {
      assert before + cycle[..0] == before;
      StartNoted(l, cycle[0].s);
    } else {
      CyclePrefix(before, cycle, info);
      CycleNoted(before, cycle[..n], info);
      StepNoted(l, cycle[n], info);
    }
  }

  /** The program a cycle is of: the one the machine had when it started, or the one found last since. */
  function ProgramShown(cycle: seq<Event>): Option<string>
    requires cycle != [] && cycle[0].Sampled?
  {
    var n := |cycle| - 1;
    if n == 0 then if |cycle[0].s.info.path| > 0 then Some(cycle[0].s.info.path) else None
    else if cycle[n].ProgramFound? then Some(cycle[n].path)
    else ProgramShown(cycle[..n])
  }

  lemma TrackingKeepsProgram(c: Calc, t: Tracker, s: Stat)
    requires c.cycle.running
    ensures ApplyAll(c, TrackCalls(t, s)).cycle.program == c.cycle.program
  {
    var calls := TrackCalls(t, s);
    if calls != [] {
      assert calls == [calls[0]] + [calls[1]];
      ApplyConcat(c, [calls[0]], [calls[1]]);
      One(c, calls[0]);
      One(Apply(c, calls[0]), calls[1]);
    }
  }

  lemma ProgramStep(l: Loop, e: Event)
    requires LoopOk(l) && !e.LinuxCncGone? && (l.m.mode.Idle? ==> e.Sampled?) && !Round(l, e).m.mode.Idle?
    ensures Round(l, e).m.counter.cycle.program
         == if l.m.mode.Idle? then (if |e.s.info.path| > 0 then Some(e.s.info.path) else None)
            else if e.ProgramFound? then Some(e.path) else l.m.counter.cycle.program
  {
    if e.Sampled? {
      UpdateCases(l.m, e.s);
      var t := TrackerAfter(l.m, e.s);
      if l.m.mode.Idle? {
        TrackingKeepsProgram(Start(l.m.counter, e.s.at, None, ProgramOf(e.s.info)), t, e.s);
      } else {
        TrackingKeepsProgram(l.m.counter, t, e.s);
      }
    }
  }

  /** All through a cycle the calculator knows its program. */
  lemma {:induction false} ProgramKnown(before: seq<Event>, cycle: seq<Event>, info: ProgramInfo)
    requires InCycle(before, cycle, info) && !RunLoop(before + cycle).m.mode.Idle?
    ensures RunLoop(before + cycle).m.counter.cycle.program == ProgramShown(cycle)
    decreases cycle
  {
    var n := |cycle| - 1;
    OneMoreEvent(before, cycle);
    LoopCoupled(before + cycle[..n]);
    if n == 0 {
      assert before + cycle[..0] == before;
    } else {
      CyclePrefix(before, cycle, info);
      ProgramKnown(before, cycle[..n], info);
    }
    ProgramStep(RunLoop(before + cycle[..n]), cycle[n]);
  }

  /** Sample i is the first, or the furthest, of those that show the program moving. */
  ghost predicate FirstMove(h: History, i: nat) {
    i in Moves(h, |h.obs|) && forall j :: j in Moves(h, |h.obs|) ==> i <= j
  }

  ghost predicate FurthestMove(h: History, i: nat) {
    i in Moves(h, |h.obs|) && forall j :: j in Moves(h, |h.obs|) ==> h.obs[j].motion <= h.obs[i].motion
  }

  /** Too far into the program to have come from its top: beyond the first move by more than five lines and by more
      than a fiftieth of the way to the last one. */
  predicate FarFromStart(info: ProgramInfo, line: int) {
    info.firstMotion > 0 && line - info.firstMotion > 5 && 50 * (line - info.firstMotion) > info.tail - info.firstMotion
  }

  /** Where a line is on the way from the first move to the last: 0 up to the first, 1 from the last on, in proportion
      between them; 0 if the program has no moves. */
  predicate PlaceOf(info: ProgramInfo, line: int, p: real) {
    if info.firstMotion <= 0 || info.tail <= 0 then p == 0.0
    else if info.tail <= info.firstMotion then p == if line >= info.tail then 1.0 else 0.0
    else if line <= info.firstMotion then p == 0.0
    else if line >= info.tail then p == 1.0
    else p * (info.tail - info.firstMotion) as real == (line - info.firstMotion) as real
  }

  lemma NearMeans(info: ProgramInfo, line: int)
    ensures IsNearStart(info, line) <==> !FarFromStart(info, line)
  {
    var span := info.tail - info.firstMotion;
    var d := line - info.firstMotion;
    if span > 0 {
      assert d > span / 50 <==> 50 * d > span;
    }
  }

  lemma FractionMeans(info: ProgramInfo, line: int)
    ensures PlaceOf(info, line, Fraction(info, line))
  {
  }

  /** All through a cycle, whatever its samples: it is classified exactly if some sample has shown the program moving,
      as a Run From Here exactly if the first of those is far from the program's start; and the progress noted is the
      place of the furthest of them, nothing before there is one. */
  lemma StartClassified(before: seq<Event>, cycle: seq<Event>, info: ProgramInfo)
    requires InCycle(before, cycle, info) && !RunLoop(before + cycle).m.mode.Idle?
    requires Recorded(HistoryOf(before, cycle, info))
    ensures var c, h := RunLoop(before + cycle).m.counter.cycle, HistoryOf(before, cycle, info);
            && (c.classified <==> Moves(h, |h.obs|) != {})
            && (forall i: nat :: FirstMove(h, i) ==> (c.rfh <==> FarFromStart(info, h.obs[i].motion)))
            && (forall i: nat :: FurthestMove(h, i) ==> PlaceOf(info, h.obs[i].motion, c.progress))
            && (Moves(h, |h.obs|) == {} ==> c.progress == 0.0)
  {
    var m, h := RunLoop(before + cycle).m, HistoryOf(before, cycle, info);
    CycleNoted(before, cycle, info);
    TracksCycle(before, cycle, info);
    TrackerReadsHistory(h, |h.obs|);
    LinesShow(h, m.tracker);
    if m.tracker.startLine.Some? {
      NearMeans(info, m.tracker.startLine.value);
      FractionMeans(info, m.tracker.maxLine);
    }
  }

  /** The tracker's lines are those of the first and of the furthest move. */
  lemma LinesShow(h: History, t: Tracker)
    requires LinesRead(h.obs, Moves(h, |h.obs|), t)
    ensures t.startLine.Some? <==> Moves(h, |h.obs|) != {}
    ensures forall i: nat :: FirstMove(h, i) ==> t.startLine == Some(h.obs[i].motion)
    ensures forall i: nat :: FurthestMove(h, i) ==> t.maxLine == h.obs[i].motion
  {
    forall i: nat | FirstMove(h, i) ensures t.startLine == Some(h.obs[i].motion) {
      var k :| k in Moves(h, |h.obs|) && h.obs[k].motion == t.startLine.value
               && forall j :: j in Moves(h, |h.obs|) ==> k <= j;
      assert k == i;
    }
    forall i: nat | FurthestMove(h, i) ensures t.maxLine == h.obs[i].motion {
      var k :| k in Moves(h, |h.obs|) && h.obs[k].motion == t.maxLine;
    }
  }
}
