/** The cycle state machine and the part of the status loop that drives it
    (status.py, `_CycleStateMachine`, `_disconnect_linuxcnc`, the MES outcome in `main`). */
module CycleMachine {
  import opened Wrappers
  import opened CT = CycleTime
  import opened PT = ProgramTracker

  datatype Mode = Idle | Running | Paused

  /** One polled LinuxCNC status. `info` is what the program scanner knows once it is waited for;
      `subMoves` the move lines of the subroutine file LinuxCNC is in. */
  datatype Stat = Stat(
    at: int, on: bool, auto: bool, interpIdle: bool, interpPaused: bool, paused: bool, estop: bool,
    motion: int, current: int, read: int, inSub: bool, subMoves: set<int>, info: ProgramInfo)

  predicate IsProgramRunning(s: Stat) {
    s.on && s.auto && !s.interpIdle && !s.interpPaused && !s.paused
  }

  predicate IsProgramPaused(s: Stat) { s.on && s.auto && s.paused }

  predicate IsIdle(s: Stat) { !IsProgramRunning(s) && !IsProgramPaused(s) }

  datatype Machine = Machine(mode: Mode, counter: Calc, tracker: Tracker, idleMotion: int, idleCurrent: int)

  const START := Machine(Idle, CT.INIT, Begin(0, 0), 0, 0)

  // ------------------------------------------------------------------
  // One sample: the calls it makes on the calculator, and what it leaves behind
  // ------------------------------------------------------------------

  function ApplyAll(c: Calc, calls: seq<Call>): Calc
    decreases calls
  {
    if calls == [] then c else ApplyAll(Apply(c, calls[0]), calls[1..])
  }

  function Tracked(t: Tracker, s: Stat): Tracker {
    if s.inSub then Hold(t, s.motion, s.current, s.subMoves)
    else Sample(t, s.motion, s.current, s.read, s.info)
  }

  function TrackCalls(t: Tracker, s: Stat): seq<Call> {
    var rfh := RunFromHere(t, s.info);
    if s.inSub || rfh.None? then []
    else [CallClassify(s.at, rfh.value), CallProgress(s.at, TrackedProgress(t, s.info))]
  }

  function ProgramOf(info: ProgramInfo): Option<string> {
    if info.path == "" then None else Some(info.path)
  }

  /** The tracker after this sample. */
  function TrackerAfter(m: Machine, s: Stat): Tracker {
    if m.mode.Idle? then
      if IsProgramRunning(s) then Tracked(Begin(m.idleMotion, m.idleCurrent), s) else m.tracker
    else Tracked(m.tracker, s)
  }

  function EndCalls(m: Machine, s: Stat, t: Tracker): seq<Call> {
    if !s.on || s.estop then [CallAbort(s.at)]
    else (if ReachedEnd(t, s.info) then [CallSignal(s.at)] else []) + [CallStop(s.at)]
  }

  function UpdateCalls(m: Machine, s: Stat): seq<Call> {
    var t := TrackerAfter(m, s);
    match m.mode
    case Idle =>
      if IsProgramRunning(s) then [CallStart(s.at, None, ProgramOf(s.info))] + TrackCalls(t, s) else []
    case Running =>
      TrackCalls(t, s) + (if IsProgramPaused(s) then [CallPause(s.at)]
                          else if IsIdle(s) then EndCalls(m, s, t) else [])
    case Paused =>
      TrackCalls(t, s) + (if IsProgramRunning(s) then [CallResume(s.at)]
                          else if IsIdle(s) then [CallAbort(s.at)] else [])
  }

  function ModeAfter(mode: Mode, s: Stat): Mode {
    if mode.Idle? then if IsProgramRunning(s) then Running else Idle
    else if IsProgramRunning(s) then Running
    else if IsProgramPaused(s) then Paused
    else Idle
  }

  /** The mode after a sample, in terms of what LinuxCNC says. */
  lemma ModeMeans(mode: Mode, s: Stat)
    ensures ModeAfter(mode, s) == Running <==>
              s.on && s.auto && !(s.interpIdle || s.interpPaused || s.paused)
    ensures ModeAfter(mode, s) == Paused <==> mode != Idle && s.on && s.auto && s.paused
  {
  }

  function Update(m: Machine, s: Stat): Machine {
    var mode := ModeAfter(m.mode, s);
    Machine(mode, ApplyAll(m.counter, UpdateCalls(m, s)), TrackerAfter(m, s),
            if mode.Idle? then s.motion else m.idleMotion, if mode.Idle? then s.current else m.idleCurrent)
  }

  /** LinuxCNC went away: the running cycle is aborted and the machine starts over from IDLE. */
  function Disconnect(m: Machine, at: int): Machine {
    Machine(Idle, if m.counter.cycle.running then Abort(m.counter, at) else m.counter, m.tracker, 0, 0)
  }

  // ------------------------------------------------------------------
  // The status loop: samples, a status that cannot be read, a program found later, LinuxCNC going away
  // ------------------------------------------------------------------

  datatype Event =
    | Sampled(s: Stat)
    | Unreadable(at: int)   // the update raises while it reads the status
    | ProgramFound(at: int, path: string)
    | LinuxCncGone(at: int)

  datatype Outcome = Completed | Aborted | Unknown

  /** `counts` = (parts, aborts) when the current cycle started; `outcome` = what the cycle that ended in
      this round was reported as, if one ended. */
  datatype Loop = Loop(m: Machine, counts: (nat, nat), outcome: Option<Outcome>)

  const LOOP_START := Loop(START, (0, 0), None)

  function EventCalls(m: Machine, e: Event): seq<Call> {
    match e
    case Sampled(s) => UpdateCalls(m, s)
    case Unreadable(_) => []
    case ProgramFound(at, path) => if m.mode.Idle? then [] else [CallSetProgram(at, Some(path))]
    case LinuxCncGone(at) => if m.counter.cycle.running then [CallAbort(at)] else []
  }

  function Round(l: Loop, e: Event): Loop {
    match e
    case Sampled(s) =>
      var m := Update(l.m, s);
      if l.m.mode.Idle? && m.mode.Running? then
        Loop(m, (m.counter.parts, m.counter.aborts), None)
      else if !l.m.mode.Idle? && m.mode.Idle? then
        Loop(m, l.counts, Some(if m.counter.parts > l.counts.0 then Completed
                               else if m.counter.aborts > l.counts.1 then Aborted else Unknown))
      else Loop(m, l.counts, None)
    case Unreadable(_) => l.(outcome := None)
    case ProgramFound(at, path) =>
      if l.m.mode.Idle? then l.(outcome := None)
      else l.(m := l.m.(counter := SetProgram(l.m.counter, Some(path))), outcome := None)
    case LinuxCncGone(at) =>
      Loop(Disconnect(l.m, at), l.counts, if l.m.mode.Idle? then None else Some(Unknown))
  }

  function RunLoop(events: seq<Event>): Loop {
    if events == [] then LOOP_START else Round(RunLoop(events[..|events| - 1]), events[|events| - 1])
  }

  // ------------------------------------------------------------------
  // Coupling
  // ------------------------------------------------------------------

  /** The machine's mode and the calculator's flags say the same. */
  predicate Coupled(m: Machine) {
    && (m.mode.Idle? <==> !m.counter.cycle.running)
    && (m.mode.Paused? <==> m.counter.cycle.running && m.counter.cycle.paused)
    && (m.counter.cycle.running ==> !m.counter.cycle.complete)
    && (m.counter.cycle.paused <==> m.counter.cycle.pauseStartNs.Some?)
  }

  /** The call does what it is for: none of the calculator's "ignore this call" guards is taken. */
  predicate Taken(c: Calc, call: Call) {
    match call
    case CallStart(_, _, _) => !c.cycle.running
    case CallPause(_) => c.cycle.running && !c.cycle.paused
    case CallResume(_) => c.cycle.running && c.cycle.paused
    case CallSignal(_) => c.cycle.running && !c.cycle.complete
    case CallReset(_) => !c.cycle.running
    case _ => c.cycle.running
  }

  predicate AllTaken(c: Calc, calls: seq<Call>)
    decreases calls
  {
    calls != [] ==> Taken(c, calls[0]) && AllTaken(Apply(c, calls[0]), calls[1..])
  }

  lemma {:induction false} ApplyConcat(c: Calc, a: seq<Call>, b: seq<Call>)
    ensures ApplyAll(c, a + b) == ApplyAll(ApplyAll(c, a), b)
    ensures AllTaken(c, a + b) <==> AllTaken(c, a) && AllTaken(ApplyAll(c, a), b)
    decreases a
  {
    if a == [] {
      assert a + b == b;
    } else {
      assert (a + b)[1..] == a[1..] + b;
      ApplyConcat(Apply(c, a[0]), a[1..], b);
    }
  }

  lemma One(c: Calc, call: Call)
    ensures ApplyAll(c, [call]) == Apply(c, call)
    ensures AllTaken(c, [call]) <==> Taken(c, call)
  {
  }

  /** Line tracking changes where the part started and how far it got, not whether it runs or what is counted. */
  lemma TrackingOnly(c: Calc, t: Tracker, s: Stat)
    requires c.cycle.running
    ensures var c' := ApplyAll(c, TrackCalls(t, s));
            && AllTaken(c, TrackCalls(t, s))
            && c'.cycle.running && c'.cycle.paused == c.cycle.paused && c'.cycle.complete == c.cycle.complete
            && c'.cycle.pauseStartNs == c.cycle.pauseStartNs
            && c'.parts == c.parts && c'.aborts == c.aborts
  {
    var calls := TrackCalls(t, s);
    if calls != [] {
      assert calls[1..] == [calls[1]];
      One(Apply(c, calls[0]), calls[1]);
    }
  }

  /** The calculator just before the calls that end, pause or resume the cycle. */
  function BeforeEnd(m: Machine, s: Stat): Calc {
    ApplyAll(m.counter, TrackCalls(TrackerAfter(m, s), s))
  }

  lemma EndsOnce(c: Calc, m: Machine, s: Stat, t: Tracker)
    requires c.cycle.running && !c.cycle.complete
    ensures AllTaken(c, EndCalls(m, s, t))
    ensures ApplyAll(c, EndCalls(m, s, t))
         == if !s.on || s.estop then Abort(c, s.at)
            else Stop(if ReachedEnd(t, s.info) then Signal(c) else c, s.at)
  {
    One(c, CallAbort(s.at));
    One(c, CallStop(s.at));
    ApplyConcat(c, [CallSignal(s.at)], [CallStop(s.at)]);
    One(c, CallSignal(s.at));
    One(Signal(c), CallStop(s.at));
  }

  lemma IdleCases(m: Machine, s: Stat)
    requires Coupled(m) && m.mode.Idle?
    ensures AllTaken(m.counter, UpdateCalls(m, s))
    ensures ApplyAll(m.counter, UpdateCalls(m, s))
         == if IsProgramRunning(s) then
              ApplyAll(Start(m.counter, s.at, None, ProgramOf(s.info)), TrackCalls(TrackerAfter(m, s), s))
            else m.counter
  {
    if IsProgramRunning(s) {
      var tracking := TrackCalls(TrackerAfter(m, s), s);
      var start := CallStart(s.at, None, ProgramOf(s.info));
      One(m.counter, start);
      ApplyConcat(m.counter, [start], tracking);
      TrackingOnly(Apply(m.counter, start), TrackerAfter(m, s), s);
    }
  }

  /** The calls after line tracking, in a cycle. */
  function LastCalls(m: Machine, s: Stat): seq<Call>
    requires !m.mode.Idle?
  {
    if IsProgramPaused(s) then if m.mode.Running? then [CallPause(s.at)] else []
    else if IsProgramRunning(s) then if m.mode.Paused? then [CallResume(s.at)] else []
    else if m.mode.Running? then EndCalls(m, s, TrackerAfter(m, s))
    else [CallAbort(s.at)]
  }

  lemma BusyCases(m: Machine, s: Stat)
    requires Coupled(m) && !m.mode.Idle?
    ensures AllTaken(m.counter, UpdateCalls(m, s))
    ensures ApplyAll(m.counter, UpdateCalls(m, s)) == ApplyAll(BeforeEnd(m, s), LastCalls(m, s))
  {
    var c, t := BeforeEnd(m, s), TrackerAfter(m, s);
    TrackingOnly(m.counter, t, s);
    ApplyConcat(m.counter, TrackCalls(t, s), LastCalls(m, s));
    assert UpdateCalls(m, s) == TrackCalls(t, s) + LastCalls(m, s);
    LastCases(m, s, c);
  }

  lemma LastCases(m: Machine, s: Stat, c: Calc)
    requires !m.mode.Idle? && c.cycle.running && !c.cycle.complete && (m.mode.Paused? <==> c.cycle.paused)
    ensures AllTaken(c, LastCalls(m, s))
    ensures ApplyAll(c, LastCalls(m, s)) ==
            match (m.mode, ModeAfter(m.mode, s))
            case (Running, Paused) => Pause(c, s.at)
            case (Paused, Running) => Resume(c, s.at)
            case (Paused, Idle) => Abort(c, s.at)
            case (Running, Idle) =>
              if !s.on || s.estop then Abort(c, s.at)
              else Stop(if ReachedEnd(TrackerAfter(m, s), s.info) then Signal(c) else c, s.at)
            case _ => c
  {
    EndsOnce(c, m, s, TrackerAfter(m, s));
    One(c, CallPause(s.at));
    One(c, CallResume(s.at));
    One(c, CallAbort(s.at));
  }

  /** Where the calculator is after one sample, by cases. */
  lemma UpdateCases(m: Machine, s: Stat)
    requires Coupled(m)
    ensures AllTaken(m.counter, UpdateCalls(m, s))
    ensures var c, t, c' := BeforeEnd(m, s), TrackerAfter(m, s), Update(m, s).counter;
            match (m.mode, ModeAfter(m.mode, s))
            case (Idle, Idle) => c' == m.counter
            case (Idle, _) => c' == ApplyAll(Start(m.counter, s.at, None, ProgramOf(s.info)), TrackCalls(t, s))
            case (Running, Paused) => c' == Pause(c, s.at)
            case (Paused, Running) => c' == Resume(c, s.at)
            case (Paused, Idle) => c' == Abort(c, s.at)
            case (Running, Idle) =>
              c' == if !s.on || s.estop then Abort(c, s.at)
                    else Stop(if ReachedEnd(t, s.info) then Signal(c) else c, s.at)
            case _ => c' == c
  {
    if m.mode.Idle? {
      IdleCases(m, s);
    } else {
      BusyCases(m, s);
      TrackingOnly(m.counter, TrackerAfter(m, s), s);
      LastCases(m, s, BeforeEnd(m, s));
    }
  }

  /** One sample from a coupled machine: it stays coupled, no guard is taken, at most one part or abort is
      recorded and only on the way to IDLE, and exactly these samples record one. */
  lemma UpdateCoupled(m: Machine, s: Stat)
    requires Coupled(m)
    ensures Coupled(Update(m, s)) && AllTaken(m.counter, UpdateCalls(m, s))
    ensures var m' := Update(m, s); var c, t := BeforeEnd(m, s), TrackerAfter(m, s);
            && m.counter.parts <= m'.counter.parts && m.counter.aborts <= m'.counter.aborts
            && m'.counter.parts + m'.counter.aborts <= m.counter.parts + m.counter.aborts + 1
            && (m'.counter.parts > m.counter.parts <==>
                && m.mode.Running? && m'.mode.Idle? && s.on && !s.estop
                && ReachedEnd(t, s.info) && !TooShort(c, s.at))
            && (m'.counter.aborts > m.counter.aborts <==>
                || (m.mode.Paused? && m'.mode.Idle?)
                || (m.mode.Running? && m'.mode.Idle?
                    && (!s.on || s.estop || (!ReachedEnd(t, s.info) && !ResolvedRfh(c) && !TooShort(c, s.at)))))
  {
    UpdateCases(m, s);
    var t := TrackerAfter(m, s);
    if m.mode.Idle? {
      if IsProgramRunning(s) {
        TrackingOnly(Start(m.counter, s.at, None, ProgramOf(s.info)), t, s);
      }
    } else {
      TrackingOnly(m.counter, t, s);
    }
  }

  ghost predicate LoopOk(l: Loop) {
    && Coupled(l.m)
    && (!l.m.mode.Idle? ==> l.counts == (l.m.counter.parts, l.m.counter.aborts))
  }

  lemma RoundKeeps(l: Loop, e: Event)
    requires LoopOk(l)
    ensures LoopOk(Round(l, e))
  {
    if e.Sampled? {
      UpdateCoupled(l.m, e.s);
    }
  }

  lemma {:induction false} LoopCoupled(events: seq<Event>)
    ensures LoopOk(RunLoop(events))
  {
    if events != [] {
      LoopCoupled(events[..|events| - 1]);
      RoundKeeps(RunLoop(events[..|events| - 1]), events[|events| - 1]);
    }
  }

  /** The outcome reported for a cycle that a sample ended is what the calculator did with that cycle. */
  lemma OutcomeExact(events: seq<Event>, s: Stat)
    ensures var l := RunLoop(events); var l' := RunLoop(events + [Sampled(s)]);
            && (l'.outcome.Some? <==> !l.m.mode.Idle? && l'.m.mode.Idle?)
            && (l'.outcome == Some(Completed) <==> l'.m.counter.parts == l.m.counter.parts + 1)
            && (l'.outcome == Some(Aborted) <==> l'.m.counter.aborts == l.m.counter.aborts + 1)
  {
    assert (events + [Sampled(s)])[..|events|] == events;
    LoopCoupled(events);
    UpdateCoupled(RunLoop(events).m, s);
  }

  /** And in any other round: losing LinuxCNC in a cycle ends it as unknown and records an abort; nothing else ends one
      or counts anything. */
  lemma OutcomeOtherwise(events: seq<Event>, e: Event)
    requires !e.Sampled?
    ensures var l := RunLoop(events); var l' := RunLoop(events + [e]);
            && (e.LinuxCncGone? && !l.m.mode.Idle? ==>
                  && l'.outcome == Some(Unknown) && l'.m.mode.Idle?
                  && l'.m.counter.aborts == l.m.counter.aborts + 1 && l'.m.counter.parts == l.m.counter.parts)
            && (!e.LinuxCncGone? || l.m.mode.Idle? ==>
                  && l'.outcome.None? && l'.m.mode == l.m.mode
                  && l'.m.counter.aborts == l.m.counter.aborts && l'.m.counter.parts == l.m.counter.parts)
  {
    assert (events + [e])[..|events|] == events;
    LoopCoupled(events);
  }

  /** The motion and the executed line of the last sample that found or left the machine idle, 0 since a connection was
      lost or none has been. */
  function IdleLines(events: seq<Event>): (int, int) {
    if events == [] then (0, 0) else
      var n := |events| - 1;
      match events[n]
      case Sampled(s) => if RunLoop(events).m.mode.Idle? then (s.motion, s.current) else IdleLines(events[..n])
      case LinuxCncGone(_) => (0, 0)
      case _ => IdleLines(events[..n])
  }

  lemma {:induction false} IdleLinesKept(events: seq<Event>)
    ensures IdleLines(events) == (RunLoop(events).m.idleMotion, RunLoop(events).m.idleCurrent)
  {
    if events != [] {
      IdleLinesKept(events[..|events| - 1]);
    }
  }

  // ------------------------------------------------------------------
  // The calculator of the loop is the calculator of CycleTime's theorems
  // ------------------------------------------------------------------

  function AllCalls(events: seq<Event>): seq<Call> {
    if events == [] then []
    else AllCalls(events[..|events| - 1])
         + EventCalls(RunLoop(events[..|events| - 1]).m, events[|events| - 1])
  }

  function At(e: Event): int {
    match e
    case Sampled(s) => s.at
    case Unreadable(at) => at
    case ProgramFound(at, _) => at
    case LinuxCncGone(at) => at
  }

  predicate MonotoneEvents(events: seq<Event>) {
    forall i, j :: 0 <= i < j < |events| ==> At(events[i]) <= At(events[j])
  }

  lemma {:induction false} RunThen(a: seq<Call>, b: seq<Call>)
    ensures RunCalc(a + b) == ApplyAll(RunCalc(a), b)
    decreases b
  {
    if b == [] {
      assert a + b == a;
    } else {
      RunThen(a + [b[0]], b[1..]);
      assert a + [b[0]] + b[1..] == a + b;
      assert (a + [b[0]])[..|a|] == a;
    }
  }

  lemma RoundCounter(l: Loop, e: Event)
    ensures Round(l, e).m.counter == ApplyAll(l.m.counter, EventCalls(l.m, e))
  {
    match e
    case Sampled(_) =>
    case Unreadable(_) =>
    case ProgramFound(at, path) => One(l.m.counter, CallSetProgram(at, Some(path)));
    case LinuxCncGone(at) => One(l.m.counter, CallAbort(at));
  }

  ghost predicate AllAt(calls: seq<Call>, at: int) {
    forall i :: 0 <= i < |calls| ==> calls[i].at == at
  }

  lemma SampleCallsAt(m: Machine, s: Stat)
    ensures AllAt(UpdateCalls(m, s), s.at)
  {
    var t := TrackerAfter(m, s);
    assert AllAt(TrackCalls(t, s), s.at);
    assert AllAt(EndCalls(m, s, t), s.at);
  }

  lemma RoundCalls(l: Loop, e: Event)
    ensures Round(l, e).m.counter == ApplyAll(l.m.counter, EventCalls(l.m, e))
    ensures AllAt(EventCalls(l.m, e), At(e))
  {
    RoundCounter(l, e);
    if e.Sampled? {
      SampleCallsAt(l.m, e.s);
    }
  }

  /** Calls no earlier than the latest so far keep the order. */
  lemma ConcatMonotone(a: seq<Call>, b: seq<Call>, at: int)
    requires Monotone(a) && AllAt(b, at) && (a != [] ==> LastAt(a) <= at)
    ensures Monotone(a + b) && (a + b != [] ==> LastAt(a + b) <= at)
  {
    LastIsLatest(a);
  }

  lemma LastIsLatest(calls: seq<Call>)
    requires Monotone(calls)
    ensures forall i :: 0 <= i < |calls| ==> calls[i].at <= LastAt(calls)
  {
  }

  /** Whatever the loop samples, its calculator is the result of one sequence of calls in clock order, so
      everything CycleTime proves about call sequences holds for it. */
  lemma {:induction false} LoopMakesCalls(events: seq<Event>)
    requires MonotoneEvents(events)
    ensures RunLoop(events).m.counter == RunCalc(AllCalls(events))
    ensures Monotone(AllCalls(events))
    ensures AllCalls(events) != [] ==> LastAt(AllCalls(events)) <= At(events[|events| - 1])
  {
    if events != [] {
      var before, e := events[..|events| - 1], events[|events| - 1];
      LoopMakesCalls(before);
      OneMoreRound(RunLoop(before), AllCalls(before), e);
    }
  }

  lemma OneMoreRound(l: Loop, calls: seq<Call>, e: Event)
    requires l.m.counter == RunCalc(calls) && Monotone(calls) && (calls != [] ==> LastAt(calls) <= At(e))
    ensures var all := calls + EventCalls(l.m, e);
            && Round(l, e).m.counter == RunCalc(all)
            && Monotone(all) && (all != [] ==> LastAt(all) <= At(e))
  {
    RoundCalls(l, e);
    RunThen(calls, EventCalls(l.m, e));
    ConcatMonotone(calls, EventCalls(l.m, e), At(e));
  }

  /** The counters on the dashboard account for every start and every unfinished part. */
  lemma DashboardConserved(events: seq<Event>)
    requires MonotoneEvents(events)
    ensures var c, l := RunLoop(events).m.counter, RunLedger(AllCalls(events));
            && l.leftOpen == Interrupted(l.finished) + c.partials + (if c.partOpen then 1 else 0)
            && l.starts == c.parts + c.aborts + l.continued + l.discarded + l.dropped
                           + (if RunLoop(events).m.mode.Idle? then 0 else 1)
            && 0.0 <= c.partialEquiv <= c.partials as real
  {
    LoopMakesCalls(events);
    PartsConserved(AllCalls(events));
    LoopCoupled(events);
  }

  // ------------------------------------------------------------------
  // The class
  // ------------------------------------------------------------------

  class CycleStateMachine {
    const counter: CycleTimeCalculator
    const tracker: CycleLineTracker
    var mode: Mode
    var idleMotion: int
    var idleCurrent: int

    function Fields(): Machine
      reads this, counter, tracker
    {
      Machine(mode, counter.Fields(), tracker.Fields(), idleMotion, idleCurrent)
    }

    constructor (calculator: CycleTimeCalculator)
      requires calculator.Fields() == CT.INIT
      ensures counter == calculator && Fields() == START && fresh(tracker)
    {
      counter := calculator;
      tracker := new CycleLineTracker();
      mode, idleMotion, idleCurrent := Idle, 0, 0;
    }

    method Reset()
      modifies this
      ensures Fields() == old(Fields()).(mode := Idle, idleMotion := 0, idleCurrent := 0)
    {
      mode, idleMotion, idleCurrent := Idle, 0, 0;
    }

    method TrackSample(s: Stat)
      modifies counter, tracker
      ensures tracker.Fields() == Tracked(old(tracker.Fields()), s)
      ensures counter.Fields() == ApplyAll(old(counter.Fields()), TrackCalls(tracker.Fields(), s))
    {
      if s.inSub {
        tracker.HoldSample(s.motion, s.current, s.subMoves);
        return;
      }
      tracker.SampleLine(s.motion, s.current, s.read, s.info);
      var t := tracker.Fields();
      var rfh := RunFromHere(t, s.info);
      if rfh.Some? {
        ghost var c0 := counter.Fields();
        counter.ClassifyStart(rfh.value);
        counter.SetProgressTo(TrackedProgress(t, s.info));
        assert tracker.Fields() == t;
        One(c0, CallClassify(s.at, rfh.value));
        One(Classify(c0, rfh.value), CallProgress(s.at, TrackedProgress(t, s.info)));
        ApplyConcat(c0, [CallClassify(s.at, rfh.value)], [CallProgress(s.at, TrackedProgress(t, s.info))]);
      }
    }

    /** A running cycle goes idle: aborted if the machine is not ready, else stopped, and complete if the end was
        reached. */
    method EndRunning(s: Stat)
      modifies counter
      ensures counter.Fields()
           == if !s.on || s.estop then Abort(old(counter.Fields()), s.at)
              else Stop(if ReachedEnd(tracker.Fields(), s.info) then Signal(old(counter.Fields()))
                        else old(counter.Fields()), s.at)
    {
      if !s.on || s.estop {
        counter.AbortCycle(s.at);
      } else {
        if ReachedEnd(tracker.Fields(), s.info) {
          counter.SignalCycleComplete();
        }
        counter.StopCycle(s.at);
      }
    }

    method UpdateSample(s: Stat)
      requires Coupled(Fields())
      modifies this, counter, tracker
      ensures Fields() == Update(old(Fields()), s)
    {
      UpdateCases(Fields(), s);
      if counter.cycle.running {
        TrackingOnly(counter.Fields(), TrackerAfter(Fields(), s), s);
      }
      match mode {
        case Idle =>
          if IsProgramRunning(s) {
            tracker.BeginCycle(idleMotion, idleCurrent);
            counter.StartCycle(s.at, None, ProgramOf(s.info));
            TrackSample(s);
            mode := Running;
          } else {
            idleMotion, idleCurrent := s.motion, s.current;
          }
        case Running =>
          TrackSample(s);
          if IsProgramPaused(s) {
            counter.PauseCycle(s.at);
            mode := Paused;
          } else if IsIdle(s) {
            EndRunning(s);
            idleMotion, idleCurrent := s.motion, s.current;
            mode := Idle;
          }
        case Paused =>
          TrackSample(s);
          if IsProgramRunning(s) {
            counter.ResumeCycle(s.at);
            mode := Running;
          } else if IsIdle(s) {
            counter.AbortCycle(s.at);
            idleMotion, idleCurrent := s.motion, s.current;
            mode := Idle;
          }
      }
    }
  }
}
