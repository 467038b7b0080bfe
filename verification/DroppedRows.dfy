/** What becomes of rows the operator drops (agent_mes_spool.py, `drop_waiting_for_other_site`, beside a running
    forwarder): no request is read with them any more, but one read before can still be sent, and deliver them. */
module DroppedRows {
  import opened Wrappers
  import opened MesSpool
  import opened MesForward
  import opened Draining
  import D = Delivery

  /** A request that has left, or has been read and is about to, carries the row. */
  ghost predicate Carried(w: D.World, s: nat) {
    exists b :: b in D.Underway(w) && s in b
  }

  lemma {:induction false} TakenFrom(ledger: seq<nat>, batch: seq<nat>, events: map<nat, Event>)
    ensures forall s :: s in D.TakeIn(ledger, batch, events) ==> s in ledger || s in batch
  {
    if batch != [] {
      TakenFrom(ledger, batch[..|batch| - 1], events);
    }
  }

  ghost predicate Left(w: D.World, s: nat) { exists f :: 0 <= f < |w.flights| && s in w.flights[f] }

  ghost predicate OnlyCarried(w: D.World) { forall s :: s in w.ledger ==> Left(w, s) }

  lemma LeftIsCarried(w: D.World, s: nat)
    requires Left(w, s)
    ensures Carried(w, s)
  {
    var f :| 0 <= f < |w.flights| && s in w.flights[f];
    assert w.flights[f] in D.Underway(w);
  }

  /** A request that has left carries every row that has arrived. */
  lemma StepOnlyCarried(sv: D.Service, w: D.World, a: D.Action)
    requires OnlyCarried(w)
    ensures OnlyCarried(D.Act(sv, w, a))
  {
    var w' := D.Act(sv, w, a);
    assert w.flights <= w'.flights;
    if D.Enabled(sv, w, a) && a.Arrive? {
      TakenFrom(w.ledger, w.flights[a.flight], w.events);
    }
    forall s | s in w'.ledger ensures Left(w', s) {
      if s in w.ledger {
        var f :| 0 <= f < |w.flights| && s in w.flights[f];
        assert w'.flights[f] == w.flights[f];
      } else {
        assert s in w'.flights[a.flight];
      }
    }
  }

  /** The service's ledger holds only rows of requests that have left. */
  lemma {:induction false} RunOnlyCarried(sv: D.Service, actions: seq<D.Action>)
    ensures OnlyCarried(D.ActAll(sv, actions))
  {
    if actions != [] {
      RunOnlyCarried(sv, actions[..|actions| - 1]);
      StepOnlyCarried(sv, D.ActAll(sv, actions[..|actions| - 1]), actions[|actions| - 1]);
    }
  }

  /** No request is read with a dropped row. */
  lemma StepNotSent(sv: D.Service, w: D.World, a: D.Action, s: nat)
    requires D.Inv(sv, w) && s in w.dropped && !Carried(w, s)
    ensures s in D.Act(sv, w, a).dropped && !Carried(D.Act(sv, w, a), s)
  {
    var w' := D.Act(sv, w, a);
    if D.Enabled(sv, w, a) && a.Read? {
      BatchMeans(w.db, w.link);
      assert D.AccountedRow(w, s);
      assert s !in Batch(w.db, w.link);
    } else {
      assert forall b :: b in D.Underway(w') ==> b in D.Underway(w);
    }
  }

  lemma OneStep(sv: D.Service, actions: seq<D.Action>, a: D.Action)
    ensures D.ActAll(sv, actions + [a]) == D.Act(sv, D.ActAll(sv, actions), a)
  {
    assert (actions + [a])[..|actions|] == actions;
  }

  /** Over every continuation: a dropped row that no request carries is carried by none. */
  lemma {:induction false} NeverSent(sv: D.Service, before: seq<D.Action>, after: seq<D.Action>, s: nat)
    requires s in D.ActAll(sv, before).dropped && !Carried(D.ActAll(sv, before), s)
    ensures var w := D.ActAll(sv, before + after); s in w.dropped && !Carried(w, s)
    decreases after
  {
    if after == [] {
      assert before + after == before;
    } else {
      var n := |after| - 1;
      var most := before + after[..n];
      NeverSent(sv, before, after[..n], s);
      D.RunKeeps(sv, most);
      StepNotSent(sv, D.ActAll(sv, most), after[n], s);
      OneStep(sv, most, after[n]);
      assert most + [after[n]] == before + after;
    }
  }

  lemma ArrivesNow(sv: D.Service, w: D.World, f: nat, s: nat)
    requires D.Inv(sv, w) && f < |w.flights| && s in w.flights[f]
    ensures s in D.Act(sv, w, D.Arrive(f)).ledger
  {
    var b := w.flights[f];
    var i :| 0 <= i < |b| && b[i] == s;
    D.TakeInKeeps(sv, w, b, |b|);
    assert b[..|b|] == b;
  }

  /** Read, and about to leave. */
  predicate AboutToLeave(w: D.World, s: nat) { w.waiting.Some? && !w.posted && s in w.waiting.value.batch }

  lemma LeftOrAboutTo(w: D.World, s: nat)
    requires Carried(w, s)
    ensures Left(w, s) || AboutToLeave(w, s)
  {
    var b :| b in D.Underway(w) && s in b;
    var f :| 0 <= f < |D.Underway(w)| && D.Underway(w)[f] == b;
    assert f < |w.flights| ==> w.flights[f] == b;
  }

  lemma LeftArrives(sv: D.Service, before: seq<D.Action>, s: nat)
    requires Left(D.ActAll(sv, before), s)
    ensures exists after :: s in D.ActAll(sv, before + after).ledger
  {
    var w := D.ActAll(sv, before);
    D.RunKeeps(sv, before);
    var f :| 0 <= f < |w.flights| && s in w.flights[f];
    ArrivesNow(sv, w, f, s);
    OneStep(sv, before, D.Arrive(f));
  }

  lemma CarriedArrives(sv: D.Service, before: seq<D.Action>, s: nat)
    requires Carried(D.ActAll(sv, before), s)
    ensures exists after :: s in D.ActAll(sv, before + after).ledger
  {
    var w := D.ActAll(sv, before);
    LeftOrAboutTo(w, s);
    if Left(w, s) {
      LeftArrives(sv, before, s);
    } else {
      OneStep(sv, before, D.Post);
      var w' := D.ActAll(sv, before + [D.Post]);
      assert s in w'.flights[|w.flights|];
      LeftArrives(sv, before + [D.Post], s);
      var after :| s in D.ActAll(sv, before + [D.Post] + after).ledger;
      assert before + [D.Post] + after == before + ([D.Post] + after);
    }
  }

  /** For every run and every row dropped in it: the row can still arrive if and only if a request that has left, or
      is read and about to leave, carries it. */
  lemma DroppedArrivesIff(sv: D.Service, before: seq<D.Action>, s: nat)
    requires s in D.ActAll(sv, before).dropped
    ensures Carried(D.ActAll(sv, before), s) <==> exists after :: s in D.ActAll(sv, before + after).ledger
  {
    if Carried(D.ActAll(sv, before), s) {
      CarriedArrives(sv, before, s);
    } else {
      forall after ensures s !in D.ActAll(sv, before + after).ledger {
        NeverSent(sv, before, after, s);
        RunOnlyCarried(sv, before + after);
        if s in D.ActAll(sv, before + after).ledger {
          LeftIsCarried(D.ActAll(sv, before + after), s);
        }
      }
    }
  }

  // ------------------------------------------------------------------
  // It does happen
  // ------------------------------------------------------------------

  const TYPES := {"cycle.observed", "scan.received"}
  const SERVICE := D.Service(TYPES, DEFAULT_LIMITS)
  const ONLINE := Capable(STARTED.(connected := true), Some(TYPES), DEFAULT_LIMITS)

  /** A cycle the agent observed while enrolled at another site, and a scan of MillWright's. */
  const FIRST_EVENT := Event(2, "cycle.observed", Agent(0, 1, 1), Some("old site"), 0, 100)
  const SECOND_EVENT := Event(3, "scan.received", MillWright(0, 1), None, 0, 100)

  const OPENED := EMPTY.(meta := Some(Identity(0, 1, 0)), site := Some("old site"))
  const COUNTED := OPENED.(meta := Some(Identity(0, 1, 1)))
  const ONE_ROW: Rows := map[1 := Row(FIRST_EVENT, Pending, 0)]
  const TWO_ROWS: Rows := map[1 := Row(FIRST_EVENT, Dropped("moved"), 5), 2 := Row(SECOND_EVENT, Pending, 0)]

  ghost predicate Reached(w: D.World) { exists actions :: D.ActAll(SERVICE, actions) == w }

  lemma Step(w: D.World, a: D.Action)
    requires Reached(w)
    ensures Reached(D.Act(SERVICE, w, a))
  {
    var actions :| D.ActAll(SERVICE, actions) == w;
    OneStep(SERVICE, actions, a);
  }

  lemma AppendsOne(db: Db, e: Event)
    requires !HasEvent(db.rows, e.id)
    ensures var op := OpAppend(Identity(0, 1, 1), [Raw(e, true)], None, 0);
            Do(db, op) == db.(lastRow := db.lastRow + 1, rows := db.rows[db.lastRow + 1 := Row(e, Pending, 0)])
  {
    var work, items := Work(db, Identity(0, 1, 1)), [Raw(e, true)];
    assert items[..0] == [];
    assert StoreAll(work, items, 0) == StoreOne(work, items[0], 0);
  }

  /** The only waiting row is the batch. */
  lemma OnlyRowSent(db: Db, link: Link, s: nat)
    requires Numbered(db) && Sane(link) && NoneOversized(db, link) && WaitingSet(db, link.types) == {s}
    ensures Batch(db, link) == [s]
  {
    assert Ahead(db, link, s) == {} && s in WaitingSet(db, link.types);
    if Batch(db, link) == [] {
      Blocked(db, link, s);
    }
    BatchMeans(db, link);
    var b := Batch(db, link);
    forall i | 0 <= i < |b| ensures b[i] == s {
      assert b[i] in b && b[i] in WaitingSet(db, link.types);
    }
  }

  /** The first request has left, and the agent has crashed. */
  function Sent(): D.World {
    D.World(COUNTED.(lastRow := 1, rows := ONE_ROW), STARTED, None, true, [[1]], [], map[1 := FIRST_EVENT], {}, {})
  }

  /** A step of other spool work. */
  lemma Works(w: D.World, op: Op, db: Db)
    requires Reached(w) && !op.OpAcked? && Do(w.db, op) == db && D.UniqueIds(D.Remembered(w.events, db.rows))
    ensures Reached(D.With(w, db))
  {
    Step(w, D.SpoolWork(op));
  }

  /** The first row has been stored. */
  function Stored1(): D.World {
    D.FIRST.(db := COUNTED.(lastRow := 1, rows := ONE_ROW), events := map[1 := FIRST_EVENT])
  }

  lemma OpenedReached()
    ensures Reached(D.FIRST.(db := OPENED))
  {
    assert D.ActAll(SERVICE, []) == D.FIRST;
    var db := EMPTY.(meta := Some(Identity(0, 1, 0)));
    assert D.With(D.FIRST, db) == D.FIRST.(db := db);
    Works(D.FIRST, OpOpen(None, 0), db);
    assert D.With(D.FIRST.(db := db), OPENED) == D.FIRST.(db := OPENED);
    Works(D.FIRST.(db := db), OpSite("old site"), OPENED);
  }

  const CYCLE := OpAppend(Identity(0, 1, 0), [Own("cycle.observed", 0, 100, true)], None, 2)

  lemma CycleAppended()
    ensures Do(OPENED, CYCLE) == COUNTED.(lastRow := 1, rows := ONE_ROW)
  {
    assert CYCLE.items[..0] == [];
    assert StoreAll(Work(OPENED, CYCLE.me), CYCLE.items, 2) == StoreOne(Work(OPENED, CYCLE.me), CYCLE.items[0], 2);
    assert map[][1 := Row(FIRST_EVENT, Pending, 0)] == ONE_ROW;
  }

  lemma FirstRemembered()
    ensures D.With(D.FIRST.(db := OPENED), Stored1().db) == Stored1()
  {
    assert D.Remembered(map[], ONE_ROW) == map[1 := FIRST_EVENT];
  }

  lemma FirstStored()
    ensures Reached(Stored1())
  {
    OpenedReached();
    CycleAppended();
    FirstRemembered();
    Works(D.FIRST.(db := OPENED), CYCLE, Stored1().db);
  }

  lemma FirstSent()
    ensures Reached(Sent())
  {
    FirstStored();
    Goes(Stored1(), 1);
    Step(Stored1().(link := ONLINE, waiting := Some(D.Request([1], ONE_ROW)), posted := true, flights := [[1]]),
         D.Crash);
  }

  /** Connecting, asking for the capabilities and reading the one waiting row. */
  lemma ReadsOne(w: D.World, s: nat)
    requires Reached(w) && w.link == STARTED && w.waiting.None?
    requires Numbered(w.db) && NoneOversized(w.db, ONLINE) && WaitingSet(w.db, ONLINE.types) == {s}
    ensures Reached(w.(link := ONLINE, waiting := Some(D.Request([s], w.db.rows)), posted := false))
  {
    Step(w, D.Connect);
    Step(w.(link := STARTED.(connected := true)), D.Ask(Answer(200, None), true));
    OnlyRowSent(w.db, ONLINE, s);
    Step(w.(link := ONLINE), D.Read);
  }

  /** And sending it. */
  lemma Goes(w: D.World, s: nat)
    requires Reached(w) && w.link == STARTED && w.waiting.None?
    requires Numbered(w.db) && NoneOversized(w.db, ONLINE) && WaitingSet(w.db, ONLINE.types) == {s}
    ensures Reached(w.(link := ONLINE, waiting := Some(D.Request([s], w.db.rows)), posted := true,
                       flights := w.flights + [[s]]))
  {
    ReadsOne(w, s);
    Step(w.(link := ONLINE, waiting := Some(D.Request([s], w.db.rows)), posted := false), D.Post);
  }

  const DROPPED_ROW: Rows := map[1 := Row(FIRST_EVENT, Dropped("moved"), 5)]
  const BOTH_EVENTS: map<nat, Event> := map[1 := FIRST_EVENT, 2 := SECOND_EVENT]

  /** The operator has dropped the row. */
  function Discarded(): D.World {
    Sent().(db := COUNTED.(lastRow := 1, rows := DROPPED_ROW), dropped := {1})
  }

  lemma DropRemembered()
    ensures D.With(Sent(), Discarded().db) == Discarded()
  {
    assert D.Remembered(Sent().events, DROPPED_ROW) == Sent().events;
  }

  lemma ThenDropped()
    ensures Reached(Discarded())
  {
    FirstSent();
    assert DropOtherSite(Sent().db, Some("new site"), "moved", 5).rows == DROPPED_ROW;
    DropRemembered();
    Works(Sent(), OpDrop(Some("new site"), "moved", 5), Discarded().db);
  }

  /** A second row has been stored. */
  function Stored2(): D.World {
    Discarded().(db := COUNTED.(lastRow := 2, rows := TWO_ROWS), events := BOTH_EVENTS)
  }

  lemma SecondRemembered()
    ensures D.With(Discarded(), Stored2().db) == Stored2()
  {
    assert D.Remembered(Discarded().events, TWO_ROWS) == BOTH_EVENTS;
  }

  lemma ThenStored()
    ensures Reached(Stored2())
  {
    ThenDropped();
    AppendsOne(Discarded().db, SECOND_EVENT);
    assert DROPPED_ROW[2 := Row(SECOND_EVENT, Pending, 0)] == TWO_ROWS;
    SecondRemembered();
    Works(Discarded(), OpAppend(Identity(0, 1, 1), [Raw(SECOND_EVENT, true)], None, 0), Stored2().db);
  }

  lemma TakesBoth()
    ensures D.TakeIn([], [2], BOTH_EVENTS) == [2] && D.TakeIn([2], [1], BOTH_EVENTS) == [2, 1]
  {
    assert [2][..0] == [] && [1][..0] == [];
  }

  /** Both requests arrive, the later one first. */
  lemma ArriveBackwards(w: D.World)
    requires Reached(w) && w.flights == [[1], [2]] && w.ledger == [] && w.events == BOTH_EVENTS
    ensures Reached(w.(ledger := [2, 1]))
  {
    TakesBoth();
    Step(w, D.Arrive(1));
    Step(w.(ledger := [2]), D.Arrive(0));
  }

  /** A row is sent and the agent crashes; the row is dropped; a second row is stored, sent and arrives -- and then
      the first request does. */
  lemma DroppedArrivesLate()
    ensures exists actions :: var w := D.ActAll(SERVICE, actions); w.ledger == [2, 1] && w.dropped == {1}
  {
    ThenStored();
    Goes(Stored2(), 2);
    var w := Stored2().(link := ONLINE, waiting := Some(D.Request([2], TWO_ROWS)), posted := true,
                        flights := [[1], [2]]);
    ArriveBackwards(w);
    var actions :| D.ActAll(SERVICE, actions) == w.(ledger := [2, 1]);
  }

  /** The row has been read and not sent when it is dropped. */
  function ReadThenDropped(): D.World {
    Stored1().(db := Discarded().db, link := ONLINE, waiting := Some(D.Request([1], ONE_ROW)), dropped := {1})
  }

  function JustRead(): D.World { Stored1().(link := ONLINE, waiting := Some(D.Request([1], ONE_ROW)), posted := false) }

  lemma ReadRemembered()
    ensures D.With(JustRead(), Discarded().db) == ReadThenDropped()
  {
    assert D.Remembered(JustRead().events, DROPPED_ROW) == JustRead().events;
  }

  lemma ThenDroppedRead()
    ensures Reached(ReadThenDropped())
  {
    FirstStored();
    ReadsOne(Stored1(), 1);
    ReadRemembered();
    assert DropOtherSite(JustRead().db, Some("new site"), "moved", 5).rows == DROPPED_ROW;
    Works(JustRead(), OpDrop(Some("new site"), "moved", 5), Discarded().db);
  }

  lemma PostedArrives()
    ensures D.Act(SERVICE, D.Act(SERVICE, ReadThenDropped(), D.Post), D.Arrive(0)).ledger == [1]
  {
    assert [1][..0] == [];
    assert D.Act(SERVICE, ReadThenDropped(), D.Post).flights == [[1]];
    assert D.TakeIn([], [1], map[1 := FIRST_EVENT]) == [1];
  }

  lemma TwoSteps(before: seq<D.Action>, a: D.Action, b: D.Action)
    ensures D.ActAll(SERVICE, before + [a, b]) == D.Act(SERVICE, D.Act(SERVICE, D.ActAll(SERVICE, before), a), b)
  {
    Regroup(before, a, b);
    OneStep(SERVICE, before, a);
    OneStep(SERVICE, before + [a], b);
  }

  lemma Regroup(before: seq<D.Action>, a: D.Action, b: D.Action)
    ensures before + [a, b] == before + [a] + [b]
  {
  }

  /** A row is read, dropped before anything has left, sent all the same, and arrives. */
  lemma DroppedBetweenReadAndSend()
    ensures exists before, after ::
              && D.ActAll(SERVICE, before).dropped == {1} && D.ActAll(SERVICE, before).flights == []
              && D.ActAll(SERVICE, before + after).ledger == [1]
  {
    ThenDroppedRead();
    var before :| D.ActAll(SERVICE, before) == ReadThenDropped();
    PostedArrives();
    TwoSteps(before, D.Post, D.Arrive(0));
  }
}
