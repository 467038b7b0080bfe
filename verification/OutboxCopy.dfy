/** Copying MillWright's outbox into the spool (agent_mes_link.py, `OutboxReader`): exactly once over crashes,
    refused commits, pruning and fresh epochs. */
module OutboxCopy {
  import opened Wrappers
  import opened MesSpool

  const SOURCE := "millwright"
  const BATCH := 200

  /** The outbox of one epoch: every event ever appended, numbered from 1, and the numbers deleted since. */
  datatype Box = Box(history: seq<Event>, gone: set<nat>)

  datatype Ack = Ack(epoch: nat, number: nat)

  /** Where the reader's `step` stands. */
  datatype Phase = Idle | Connected(epoch: nat) | Fetched(epoch: nat, numbers: seq<nat>, events: seq<Event>)
                 | Committed(epoch: nat, last: nat)

  /** `boxes` by epoch, the last one current; `stored` is, for each epoch, what commits have put into the spool. */
  datatype World = World(boxes: seq<Box>, db: Db, ack: Option<Ack>, phase: Phase, stored: seq<seq<Event>>)

  const FIRST := World([Box([], {})], EMPTY, None, Idle, [[]])

  // ------------------------------------------------------------------
  // One pass of the reader, statement by statement
  // ------------------------------------------------------------------

  /** The numbers above `from` still in the outbox, at most `limit` of them. */
  function Above(box: Box, from: nat, limit: nat): seq<nat>
    decreases |box.history| - from
  {
    if from >= |box.history| || limit == 0 then []
    else if from + 1 in box.gone then Above(box, from + 1, limit)
    else [from + 1] + Above(box, from + 1, limit - 1)
  }

  lemma {:induction false} AboveBounds(box: Box, from: nat, limit: nat)
    ensures var r := Above(box, from, limit);
            |r| <= limit && forall i :: 0 <= i < |r| ==> from < r[i] <= |box.history|
    decreases |box.history| - from
  {
    if from < |box.history| && limit > 0 {
      if from + 1 in box.gone {
        AboveBounds(box, from + 1, limit);
      } else {
        AboveBounds(box, from + 1, limit - 1);
      }
    }
  }

  function Bodies(box: Box, numbers: seq<nat>): seq<Event>
    requires forall i :: 0 <= i < |numbers| ==> 0 < numbers[i] <= |box.history|
  {
    seq(|numbers|, i requires 0 <= i < |numbers| => box.history[numbers[i] - 1])
  }

  /** Where to read on: the cursor, if it is of this epoch. */
  function Position(db: Db, epoch: nat): nat {
    if SOURCE in db.cursors && db.cursors[SOURCE].epoch == epoch then db.cursors[SOURCE].position else 0
  }

  function Read(db: Db, epoch: nat, box: Box): Phase {
    var numbers := Above(box, Position(db, epoch), BATCH);
    AboveBounds(box, Position(db, epoch), BATCH);
    Fetched(epoch, numbers, Bodies(box, numbers))
  }

  function AsItems(events: seq<Event>, accepted: seq<bool>): seq<Item>
    requires |accepted| == |events|
  {
    seq(|events|, i requires 0 <= i < |events| => Raw(events[i], accepted[i]))
  }

  function Last(numbers: seq<nat>): nat
    requires numbers != []
  {
    numbers[|numbers| - 1]
  }

  /** The events in the rows from `from` + 1 on: what a commit has just added. */
  function Added(db: Db, from: nat, n: nat): seq<Event>
    requires forall s :: from < s <= from + n ==> s in db.rows
  {
    seq(n, i requires 0 <= i < n => db.rows[from + 1 + i].event)
  }

  // ------------------------------------------------------------------
  // The world
  // ------------------------------------------------------------------

  datatype Action =
    | Log(event: Event)
    | PruneBox(numbers: set<nat>)
    | FreshEpoch
    | Connect
    | Select
    | Commit(accepted: seq<bool>, full: bool, uuid: nat)
    | WriteAck
    | Crash
    | SpoolWork(op: Op)

  /** Work on the spool by others: it moves no cursor. */
  predicate NoCursor(op: Op) {
    op.OpAppend? ==> op.cursor.None? && forall i :: 0 <= i < |op.items| ==> op.items[i].Own?
  }

  /** MillWright prunes only what the acknowledgement file of its own epoch covers. */
  predicate Covered(w: World, numbers: set<nat>) {
    w.ack.Some? && w.ack.value.epoch == |w.boxes| - 1 && forall n :: n in numbers ==> 1 <= n <= w.ack.value.number
  }

  /** `inPlace`: a fresh epoch reuses the database file that an open connection reads. */
  predicate Enabled(w: World, a: Action) {
    match a
    case Log(_) => true
    case PruneBox(numbers) => Covered(w, numbers)
    case FreshEpoch => true
    case Connect => w.phase.Idle?
    case Select => w.phase.Connected?
    case Commit(accepted, _, _) => w.phase.Fetched? && |accepted| == |w.phase.events|
    case WriteAck => w.phase.Committed?
    case Crash => true
    case SpoolWork(op) => NoCursor(op)
  }

  predicate Shaped(w: World) {
    && w.boxes != [] && |w.stored| == |w.boxes|
    && match w.phase
       case Idle => true
       case Connected(e) => e < |w.boxes|
       case Fetched(e, numbers, events) => e < |w.boxes| && |numbers| == |events|
       case Committed(e, _) => e < |w.boxes|
  }

  function Current(w: World): nat
    requires Shaped(w)
  {
    |w.boxes| - 1
  }

  function Meta(db: Db): Identity {
    if db.meta.Some? then db.meta.value else Identity(0, 0, 0)
  }

  /** The commit of a fetched batch, or the acknowledgement of an old one written again when there is nothing
      new. A refused append leaves everything where it is. */
  function Store(w: World, accepted: seq<bool>, full: bool, uuid: nat): World
    requires Shaped(w) && w.phase.Fetched? && |accepted| == |w.phase.events|
  {
    var e, numbers := w.phase.epoch, w.phase.numbers;
    if numbers == [] then
      if SOURCE in w.db.cursors && w.db.cursors[SOURCE].epoch == e
      then w.(phase := Committed(e, w.db.cursors[SOURCE].position)) else w.(phase := Idle)
    else
      var items := AsItems(w.phase.events, accepted);
      var me := Meta(w.db);
      var r := Append(w.db, me, items, Some(Cursor(SOURCE, e, Last(numbers))), uuid);
      if full || r.Err? then w.(phase := Idle) else
        StoresEach(Work(w.db, me), items, uuid);
        w.(db := r.value.db, phase := Committed(e, Last(numbers)),
           stored := w.stored[e := w.stored[e] + Added(r.value.db, w.db.lastRow, |items|)])
  }

  function Act(inPlace: bool, w: World, a: Action): World
    requires Shaped(w)
  {
    if !Enabled(w, a) then w else
      match a
      case Log(event) =>
        var box := w.boxes[Current(w)];
        w.(boxes := w.boxes[Current(w) := box.(history := box.history + [event])])
      case PruneBox(numbers) =>
        var box := w.boxes[Current(w)];
        w.(boxes := w.boxes[Current(w) := box.(gone := box.gone + numbers)])
      case FreshEpoch => w.(boxes := w.boxes + [Box([], {})], stored := w.stored + [[]])
      case Connect => w.(phase := Connected(Current(w)))
      case Select =>
        w.(phase := Read(w.db, w.phase.epoch, w.boxes[if inPlace then Current(w) else w.phase.epoch]))
      case Commit(accepted, full, uuid) => Store(w, accepted, full, uuid)
      case WriteAck => w.(ack := Some(Ack(w.phase.epoch, w.phase.last)), phase := Idle)
      case Crash => w.(phase := Idle)
      case SpoolWork(op) => w.(db := Do(w.db, op))
  }

  lemma ActShaped(inPlace: bool, w: World, a: Action)
    requires Shaped(w)
    ensures Shaped(Act(inPlace, w, a))
  {
  }

  function ActAll(inPlace: bool, actions: seq<Action>): (w: World)
    ensures Shaped(w)
  {
    if actions == [] then FIRST else
      ActShaped(inPlace, ActAll(inPlace, actions[..|actions| - 1]), actions[|actions| - 1]);
      Act(inPlace, ActAll(inPlace, actions[..|actions| - 1]), actions[|actions| - 1])
  }

  // ------------------------------------------------------------------
  // Exactly once
  // ------------------------------------------------------------------

  /** What is stored of an epoch is the beginning of its outbox, in order and once each; the acknowledgement does
      not pass it, so nothing beyond it is ever pruned; the cursor, while it is of that epoch, says how far. */
  predicate Exact(w: World, e: nat)
    requires Shaped(w) && e < |w.boxes|
  {
    && w.stored[e] <= w.boxes[e].history
    && (w.ack.Some? && w.ack.value.epoch == e ==> w.ack.value.number <= |w.stored[e]|)
    && (forall n :: n in w.boxes[e].gone ==> 1 <= n <= |w.stored[e]|)
    && (SOURCE in w.db.cursors && w.db.cursors[SOURCE].epoch == e ==> w.db.cursors[SOURCE].position == |w.stored[e]|)
  }

  ghost predicate ExactlyOnce(w: World)
    requires Shaped(w)
  {
    forall e :: 0 <= e < |w.boxes| ==> Exact(w, e)
  }

  /** No epoch after the cursor's has been read, nor any before the first cursor. */
  predicate Unread(w: World, e: nat)
    requires Shaped(w)
  {
    SOURCE !in w.db.cursors || w.db.cursors[SOURCE].epoch < e
  }

  predicate Fresh(w: World, e: nat, numbers: seq<nat>, events: seq<Event>)
    requires Shaped(w) && e < |w.boxes|
  {
    var from := |w.stored[e]|;
    && (forall i :: 0 <= i < |numbers| ==> numbers[i] == from + 1 + i)
    && w.stored[e] + events <= w.boxes[e].history
  }

  ghost predicate Inv(w: World)
    requires Shaped(w)
  {
    && ExactlyOnce(w) && Numbered(w.db)
    && (forall e :: 0 <= e < |w.boxes| && Unread(w, e) ==> w.stored[e] == [])
    && (SOURCE in w.db.cursors ==> w.db.cursors[SOURCE].epoch < |w.boxes|)
    && (w.ack.Some? ==> w.ack.value.epoch < |w.boxes|)
    && match w.phase
       case Idle => true
       case Connected(e) => SOURCE in w.db.cursors ==> w.db.cursors[SOURCE].epoch <= e
       case Fetched(e, numbers, events) =>
         (SOURCE in w.db.cursors ==> w.db.cursors[SOURCE].epoch <= e) && Fresh(w, e, numbers, events)
       case Committed(e, last) => last == |w.stored[e]|
  }

  lemma {:induction false} AboveAll(box: Box, from: nat, limit: nat)
    requires from <= |box.history| && forall n :: n in box.gone ==> n <= from
    ensures var r := Above(box, from, limit);
            && |r| == (if |box.history| - from < limit then |box.history| - from else limit)
            && forall i :: 0 <= i < |r| ==> r[i] == from + 1 + i
    decreases |box.history| - from
  {
    if from < |box.history| && limit > 0 {
      AboveAll(box, from + 1, limit - 1);
    }
  }

  lemma RowsAfter(box: Box, from: nat, limit: nat)
    requires from <= |box.history| && forall n :: n in box.gone ==> n <= from
    ensures var numbers := Above(box, from, limit);
            && (forall i :: 0 <= i < |numbers| ==> from < numbers[i] <= |box.history|)
            && (forall i :: 0 <= i < |numbers| ==> numbers[i] == from + 1 + i)
            && box.history[..from] + Bodies(box, numbers) <= box.history
  {
    AboveAll(box, from, limit);
    AboveBounds(box, from, limit);
    var numbers := Above(box, from, limit);
    assert Bodies(box, numbers) == box.history[from..from + |numbers|];
    assert box.history[..from] + box.history[from..from + |numbers|] == box.history[..from + |numbers|];
  }

  /** The rows fetched are the ones right after what is stored. */
  lemma SelectKeeps(w: World)
    requires Shaped(w) && Inv(w) && w.phase.Connected?
    ensures Inv(Act(false, w, Select))
  {
    var e := w.phase.epoch;
    assert Exact(w, e);
    RowsAfter(w.boxes[e], |w.stored[e]|, BATCH);
    assert w.boxes[e].history[..|w.stored[e]|] == w.stored[e];
    assert Position(w.db, e) == |w.stored[e]|;
    var w' := Act(false, w, Select);
    assert forall d :: 0 <= d < |w.boxes| && Exact(w, d) ==> Exact(w', d);
    assert forall d :: 0 <= d < |w.boxes| ==> Unread(w', d) == Unread(w, d);
  }

  /** And as many as there are, up to 200. */
  lemma BatchIsFull(w: World)
    requires Shaped(w) && Inv(w) && w.phase.Connected?
    ensures var e := w.phase.epoch; var fetched := Act(false, w, Select).phase;
            var left := |w.boxes[e].history| - |w.stored[e]|;
            fetched.Fetched? && |fetched.numbers| == if left < 200 then left else 200
  {
    var e := w.phase.epoch;
    assert Exact(w, e);
    AboveAll(w.boxes[e], |w.stored[e]|, BATCH);
    assert Position(w.db, e) == |w.stored[e]|;
  }

  lemma NewRowEvents(work: Work, events: seq<Event>, accepted: seq<bool>, uuid: nat, i: nat)
    requires |accepted| == |events| && i < |events|
    ensures NewRows(work, AsItems(events, accepted), uuid)[work.db.lastRow + 1 + i].event == events[i]
  {
    NewRowsAt(work, AsItems(events, accepted), uuid, i);
  }

  lemma StoredEvents(work: Work, events: seq<Event>, accepted: seq<bool>, uuid: nat)
    requires |accepted| == |events| && Numbered(work.db)
    ensures var db' := Stored(work, AsItems(events, accepted), uuid).db; var from := work.db.lastRow;
            && (forall s :: from < s <= from + |events| ==> s in db'.rows)
            && Added(db', from, |events|) == events && Numbered(db')
  {
    forall i | 0 <= i < |events|
      ensures NewRows(work, AsItems(events, accepted), uuid)[work.db.lastRow + 1 + i].event == events[i]
    {
      NewRowEvents(work, events, accepted, uuid, i);
    }
  }

  lemma AddedEvents(db: Db, me: Identity, events: seq<Event>, accepted: seq<bool>, cursor: Cursor, uuid: nat)
    requires |accepted| == |events| && Numbered(db)
    requires Append(db, me, AsItems(events, accepted), Some(cursor), uuid).Ok?
    ensures var db' := Append(db, me, AsItems(events, accepted), Some(cursor), uuid).value.db;
            && (forall s :: db.lastRow < s <= db.lastRow + |events| ==> s in db'.rows)
            && Added(db', db.lastRow, |events|) == events
            && Numbered(db') && db'.cursors == db.cursors[cursor.source := cursor]
  {
    StoresEach(Work(db, me), AsItems(events, accepted), uuid);
    StoredEvents(Work(db, me), events, accepted, uuid);
  }

  /** The append of a fetched batch goes through. */
  predicate Takes(w: World, accepted: seq<bool>, full: bool, uuid: nat)
    requires Shaped(w) && w.phase.Fetched? && |accepted| == |w.phase.events|
  {
    && w.phase.numbers != [] && !full
    && Append(w.db, Meta(w.db), AsItems(w.phase.events, accepted),
              Some(Cursor(SOURCE, w.phase.epoch, Last(w.phase.numbers))), uuid).Ok?
  }

  /** After a fetched batch the reader goes on to acknowledge exactly if it was taken, or there was nothing new and the
      cursor is of this epoch; else the pass is over, and nothing has changed. */
  lemma PassGoesOn(w: World, accepted: seq<bool>, full: bool, uuid: nat)
    requires Shaped(w) && w.phase.Fetched? && |accepted| == |w.phase.events|
    ensures var w' := Store(w, accepted, full, uuid);
            && (w'.phase.Committed? <==>
                  || Takes(w, accepted, full, uuid)
                  || (w.phase.numbers == [] && "millwright" in w.db.cursors
                      && w.db.cursors["millwright"].epoch == w.phase.epoch))
            && (!Takes(w, accepted, full, uuid) ==> w' == w.(phase := w'.phase))
            && (w'.phase.Committed? ==> w'.phase.epoch == w.phase.epoch)
            && (!w'.phase.Committed? ==> w'.phase.Idle?)
  {
  }

  lemma NothingStored(w: World, accepted: seq<bool>, full: bool, uuid: nat)
    requires Shaped(w) && Inv(w) && w.phase.Fetched? && |accepted| == |w.phase.events|
    requires !Takes(w, accepted, full, uuid)
    ensures Inv(Store(w, accepted, full, uuid))
  {
    var w' := Store(w, accepted, full, uuid);
    assert Exact(w, w.phase.epoch);
    assert forall d :: 0 <= d < |w.boxes| && Exact(w, d) ==> Exact(w', d);
    assert forall d :: 0 <= d < |w.boxes| ==> Unread(w', d) == Unread(w, d);
  }

  lemma BatchStored(w: World, accepted: seq<bool>, full: bool, uuid: nat)
    requires Shaped(w) && Inv(w) && w.phase.Fetched? && |accepted| == |w.phase.events|
    requires Takes(w, accepted, full, uuid)
    ensures Inv(Store(w, accepted, full, uuid))
  {
    var e, numbers, events := w.phase.epoch, w.phase.numbers, w.phase.events;
    var w' := Store(w, accepted, full, uuid);
    AddedEvents(w.db, Meta(w.db), events, accepted, Cursor(SOURCE, e, Last(numbers)), uuid);
    assert Exact(w, e) && w'.stored[e] == w.stored[e] + events;
    forall d | 0 <= d < |w.boxes| && d != e ensures Exact(w', d) && (Unread(w', d) ==> w'.stored[d] == []) {
      assert Exact(w, d);
    }
  }

  lemma SpoolWorkKeeps(w: World, op: Op)
    requires Shaped(w) && Inv(w) && NoCursor(op)
    ensures Inv(Act(false, w, SpoolWork(op)))
  {
    var w' := Act(false, w, SpoolWork(op));
    Lifecycle(w.db, op, 0);
    if op.OpAppend? {
      StoresEach(Work(w.db, op.me), op.items, op.uuid);
    }
    assert w'.db.cursors == w.db.cursors;
    assert forall d :: 0 <= d < |w.boxes| && Exact(w, d) ==> Exact(w', d);
    assert forall d :: 0 <= d < |w.boxes| ==> Unread(w', d) == Unread(w, d);
  }

  lemma MillWrightKeeps(w: World, a: Action)
    requires Shaped(w) && Inv(w) && (a.Log? || a.PruneBox?) && Enabled(w, a)
    ensures Inv(Act(false, w, a))
  {
    var w' := Act(false, w, a);
    var last := |w.boxes| - 1;
    assert Exact(w, last) && w.boxes[last].history <= w'.boxes[last].history;
    forall d | 0 <= d < |w.boxes| ensures Exact(w', d) {
      assert Exact(w, d);
    }
    assert forall d :: 0 <= d < |w.boxes| ==> Unread(w', d) == Unread(w, d);
  }

  lemma FreshKeeps(w: World)
    requires Shaped(w) && Inv(w)
    ensures Inv(Act(false, w, FreshEpoch))
  {
    var w' := Act(false, w, FreshEpoch);
    forall d | 0 <= d < |w.boxes|
      ensures w'.stored[d] == w.stored[d] && w'.boxes[d] == w.boxes[d] && Exact(w', d) && Unread(w', d) == Unread(w, d)
    {
      assert Exact(w, d);
    }
  }

  lemma PhaseKeeps(w: World, a: Action)
    requires Shaped(w) && Inv(w) && (a.Connect? || a.WriteAck? || a.Crash?) && Enabled(w, a)
    ensures Inv(Act(false, w, a))
  {
    var w' := Act(false, w, a);
    assert forall d :: 0 <= d < |w.boxes| && Exact(w, d) ==> Exact(w', d);
    assert forall d :: 0 <= d < |w.boxes| ==> Unread(w', d) == Unread(w, d);
  }

  lemma StepKeeps(w: World, a: Action)
    requires Shaped(w) && Inv(w)
    ensures Inv(Act(false, w, a))
  {
    if Enabled(w, a) {
      match a
      case Select => SelectKeeps(w);
      case Commit(accepted, full, uuid) =>
        if Takes(w, accepted, full, uuid) {
          BatchStored(w, accepted, full, uuid);
        } else {
          NothingStored(w, accepted, full, uuid);
        }
      case SpoolWork(op) => SpoolWorkKeeps(w, op);
      case Connect => PhaseKeeps(w, a);
      case WriteAck => PhaseKeeps(w, a);
      case Crash => PhaseKeeps(w, a);
      case FreshEpoch => FreshKeeps(w);
      case _ => MillWrightKeeps(w, a);
    }
  }

  lemma FirstInv()
    ensures Inv(FIRST)
  {
    assert forall e :: 0 <= e < 1 ==> Exact(FIRST, e);
  }

  lemma {:induction false} RunKeeps(actions: seq<Action>)
    ensures Inv(ActAll(false, actions))
  {
    if actions == [] {
      FirstInv();
    } else {
      RunKeeps(actions[..|actions| - 1]);
      StepKeeps(ActAll(false, actions[..|actions| - 1]), actions[|actions| - 1]);
    }
  }

  ghost predicate Reached(w: World) { exists actions :: ActAll(true, actions) == w }

  lemma Step(w: World, a: Action)
    requires Shaped(w) && Reached(w)
    ensures Reached(Act(true, w, a))
  {
    var actions :| ActAll(true, actions) == w;
    assert (actions + [a])[..|actions|] == actions;
    assert ActAll(true, actions + [a]) == Act(true, w, a);
  }

  /** The batch of an old epoch holding the fresh epoch's first event. */
  function Mixed(event: Event): World {
    World([Box([], {}), Box([event], {})], EMPTY, None, Fetched(0, [1], [event]), [[], []])
  }

  /** Just before that batch is read. */
  function Renewed(event: Event): World {
    Mixed(event).(phase := Connected(0))
  }

  lemma RenewedReached(event: Event)
    ensures Reached(Renewed(event))
  {
    assert ActAll(true, []) == FIRST;
    Step(FIRST, Connect);
    var w1 := FIRST.(phase := Connected(0));
    Step(w1, FreshEpoch);
    var w2 := w1.(boxes := [Box([], {}), Box([], {})], stored := [[], []]);
    assert Act(true, w1, FreshEpoch) == w2;
    assert w2.boxes[1].history + [event] == [event];
    Step(w2, Log(event));
    assert Act(true, w2, Log(event)) == Renewed(event);
  }

  lemma MixedReached(event: Event)
    ensures Reached(Mixed(event))
  {
    RenewedReached(event);
    var box := Box([event], {});
    assert Above(box, 0, BATCH) == [1] by {
      assert Above(box, 1, BATCH - 1) == [];
    }
    assert Bodies(box, [1]) == [event];
    Step(Renewed(event), Select);
  }

  lemma MixedStored(event: Event)
    ensures !ExactlyOnce(Store(Mixed(event), [true], false, 0))
  {
    var items, work := AsItems([event], [true]), Work(EMPTY, Meta(EMPTY));
    assert items[..0] == [];
    assert Storable(work, items, 0, 0);
    StoresWhen(work, items, 0);
    AddedEvents(EMPTY, Meta(EMPTY), [event], [true], Cursor(SOURCE, 0, 1), 0);
    assert Store(Mixed(event), [true], false, 0).stored[0] == [event];
    assert !Exact(Store(Mixed(event), [true], false, 0), 0);
  }

  /** If an open connection could see a fresh epoch's rows, they would be stored as the old epoch's. */
  lemma InPlaceBreaks(event: Event)
    ensures exists actions :: !ExactlyOnce(ActAll(true, actions))
  {
    MixedReached(event);
    MixedStored(event);
    Step(Mixed(event), Commit([true], false, 0));
    var actions :| ActAll(true, actions) == Act(true, Mixed(event), Commit([true], false, 0));
  }

  /** For every interleaving of MillWright's appends, prunes and fresh epochs with reader steps, other spool work
      and crashes between any two statements: the outbox is copied exactly once -- precisely because a fresh epoch
      is a new file. */
  lemma CopiesExactlyOnce(inPlace: bool)
    ensures !inPlace <==> forall actions :: ExactlyOnce(ActAll(inPlace, actions))
  {
    if inPlace {
      InPlaceBreaks(Event(0, "", MillWright(1, 1), None, 0, 0));
    } else {
      forall actions ensures ExactlyOnce(ActAll(false, actions)) {
        RunKeeps(actions);
      }
    }
  }
}
