/** Producer numbers over crashes, re-created databases and restored copies: the agent's spool as a machine whose
    steps are single transactions and single file replacements (agent_mes_spool.py). */
module SpoolIdentity {
  import opened Wrappers
  import opened MesSpool

  /** What may happen besides crashes: older copies put back, sidecar writes failing (the agent goes on with a
      warning), copies taken while the sidecar does not match the database. */
  datatype Policy = Policy(restores: bool, failures: bool, looseCopies: bool)

  /** The agent process. Opening and Between hold the spool's lock: their transaction is committed and the sidecar
      not yet written. */
  datatype Proc = Down | Opening(me: Identity) | Up(me: Identity) | Between(me: Identity)

  /** `handed` is every event `pending` has returned so far, `uuid` the next unused UUID. */
  datatype World = World(db: Db, side: Option<Identity>, proc: Proc, copies: seq<Db>, handed: seq<Event>, uuid: nat)

  const FIRST := World(EMPTY, None, Down, [], [], 0)

  datatype Action =
    | Open
    | Commit(items: seq<Item>, cursor: Option<Cursor>)
    | WriteSidecar
    | FailSidecar
    | Hand(limit: nat, types: Types)
    | Change(op: Op)
    | Crash
    | Delete
    | Copy
    | Restore(i: nat)

  /** Events of other producers come from MillWright's outbox. */
  predicate Foreign(items: seq<Item>) {
    forall i :: 0 <= i < |items| && items[i].Raw? ==> items[i].event.producer.MillWright?
  }

  predicate Matches(w: World) { w.db.meta.Some? && w.side == w.db.meta }

  function EventsAt(rows: Rows, places: seq<nat>): seq<Event>
    requires forall i :: 0 <= i < |places| ==> places[i] in rows
  {
    seq(|places|, i requires 0 <= i < |places| => rows[places[i]].event)
  }

  function HandedBy(db: Db, limit: nat, types: Types): seq<Event> {
    OldestFirst(db.rows, 1, db.lastRow, limit, types);
    EventsAt(db.rows, PendingRows(db, limit, types))
  }

  predicate Enabled(p: Policy, w: World, a: Action) {
    match a
    case Open => w.proc.Down?
    case Commit(items, _) => w.proc.Up? && Foreign(items) && Append(w.db, w.proc.me, items, a.cursor, w.uuid).Ok?
    case WriteSidecar => w.proc.Opening? || w.proc.Between?
    case FailSidecar => p.failures && w.proc.Between?
    case Hand(_, _) => w.proc.Up?
    case Change(op) => op.OpAcked? || op.OpDrop? || op.OpPrune? || op.OpSite?
    case Crash => true
    case Delete => w.proc.Down?
    case Copy => p.looseCopies || Matches(w)
    case Restore(i) => p.restores && w.proc.Down? && i < |w.copies|
  }

  /** One step; a step that is not possible changes nothing. */
  function Act(p: Policy, w: World, a: Action): World {
    if !Enabled(p, w, a) then w else
      match a
      case Open =>
        var me := Opened(w.db, w.side, w.uuid);
        w.(db := w.db.(meta := Some(me)), proc := Opening(me), uuid := w.uuid + 2)
      case Commit(items, cursor) =>
        var t := Append(w.db, w.proc.me, items, cursor, w.uuid).value;
        w.(db := t.db, proc := if t.me == w.proc.me then w.proc else Between(t.me), uuid := w.uuid + |items|)
      case WriteSidecar => w.(side := Some(w.proc.me), proc := Up(w.proc.me))
      case FailSidecar => w.(proc := Up(w.proc.me))
      case Hand(limit, types) => w.(handed := w.handed + HandedBy(w.db, limit, types))
      case Change(op) => w.(db := Do(w.db, op))
      case Crash => w.(proc := Down)
      case Delete => w.(db := EMPTY)
      case Copy => w.(copies := w.copies + [w.db])
      case Restore(i) => w.(db := w.copies[i])
  }

  function ActAll(p: Policy, actions: seq<Action>): World {
    if actions == [] then FIRST else Act(p, ActAll(p, actions[..|actions| - 1]), actions[|actions| - 1])
  }

  /** No two different agent events were handed out under one number. */
  ghost predicate Distinct(handed: seq<Event>) {
    forall i, j :: 0 <= i < |handed| && 0 <= j < |handed| && SameNumber(handed[i], handed[j]) ==> handed[i] == handed[j]
  }

  predicate SameNumber(e: Event, f: Event) { e.producer.Agent? && e.producer == f.producer }

  // ------------------------------------------------------------------
  // Where events can come from
  // ------------------------------------------------------------------

  predicate InRows(rows: Rows, e: Event) { exists s :: s in rows && rows[s].event == e }

  /** Events that can no longer be taken back: handed out, or kept in a copy that may be restored. */
  ghost predicate Settled(p: Policy, w: World, e: Event) {
    e in w.handed || (p.restores && exists i :: 0 <= i < |w.copies| && InRows(w.copies[i].rows, e))
  }

  ghost predicate Known(p: Policy, w: World, e: Event) { Settled(p, w, e) || InRows(w.db.rows, e) }

  predicate UpTo(e: Event, id: Identity) {
    e.producer.Agent? && e.producer.epoch == id.epoch ==> e.producer.number <= id.number
  }

  predicate Behind(a: Identity, b: Identity) { a.epoch == b.epoch ==> a.number <= b.number }

  ghost predicate Unique(p: Policy, w: World) {
    forall e, f :: Known(p, w, e) && Known(p, w, f) && SameNumber(e, f) ==> e == f
  }

  /** A database's own rows never pass its own count. */
  ghost predicate Counted(db: Db) {
    forall e :: InRows(db.rows, e) && e.producer.Agent? ==> db.meta.Some? && UpTo(e, db.meta.value)
  }

  ghost predicate SettledUpTo(p: Policy, w: World, id: Identity) {
    && (forall e :: Settled(p, w, e) ==> UpTo(e, id))
    && (p.restores ==> forall i :: 0 <= i < |w.copies| && w.copies[i].meta.Some? ==> Behind(w.copies[i].meta.value, id))
  }

  ghost predicate FreshUuids(p: Policy, w: World) {
    && (forall e :: Known(p, w, e) && e.producer.Agent? ==> e.producer.epoch < w.uuid)
    && (w.db.meta.Some? ==> w.db.meta.value.epoch < w.uuid)
    && (w.side.Some? ==> w.side.value.epoch < w.uuid)
    && (forall i :: 0 <= i < |w.copies| && w.copies[i].meta.Some? ==> w.copies[i].meta.value.epoch < w.uuid)
  }

  /** What restoring copies needs: the sidecar is at or ahead of everything settled, and of every copy. */
  ghost predicate Restorable(p: Policy, w: World) {
    && (w.side.Some? ==> SettledUpTo(p, w, w.side.value))
    && (w.side.None? ==> w.copies == [] && w.handed == [])
    && (w.side.Some? && w.db.meta.Some? ==> w.side.value.producer == w.db.meta.value.producer)
    && (w.proc.Up? ==> w.side == Some(w.proc.me))
    && (w.proc.Between? ==> w.side.Some?)
    && (forall i :: 0 <= i < |w.copies| ==> CopyOf(w, w.copies[i]))
  }

  ghost predicate CopyOf(w: World, c: Db) {
    && Numbered(c) && Counted(c) && c.meta.Some? && w.side.Some? && c.meta.value.producer == w.side.value.producer
  }

  ghost predicate Inv(p: Policy, w: World) {
    && Numbered(w.db) && Counted(w.db) && Unique(p, w) && FreshUuids(p, w)
    && (!w.proc.Down? ==> w.db.meta == Some(w.proc.me) && SettledUpTo(p, w, w.proc.me))
    && (if p.restores then Restorable(p, w) else w.db.meta.Some? ==> SettledUpTo(p, w, w.db.meta.value))
  }

  predicate Sound(p: Policy) { !(p.restores && (p.failures || p.looseCopies)) }

  // ------------------------------------------------------------------
  // Every step keeps the invariant
  // ------------------------------------------------------------------

  lemma OpenKeeps(p: Policy, w: World)
    requires Inv(p, w) && w.proc.Down?
    ensures Inv(p, Act(p, w, Open))
  {
    var w' := Act(p, w, Open);
    var me := w'.proc.me;
    assert forall e :: Settled(p, w', e) <==> Settled(p, w, e);
    assert forall e :: Known(p, w', e) <==> Known(p, w, e);
    assert me.epoch == w.uuid + 1 || Some(me) == w.db.meta;
  }

  lemma WriteKeeps(p: Policy, w: World)
    requires Inv(p, w) && Enabled(p, w, WriteSidecar)
    ensures Inv(p, Act(p, w, WriteSidecar))
  {
  }

  lemma FailKeeps(p: Policy, w: World)
    requires Sound(p) && Inv(p, w) && Enabled(p, w, FailSidecar)
    ensures Inv(p, Act(p, w, FailSidecar))
  {
  }

  lemma CrashKeeps(p: Policy, w: World)
    requires Inv(p, w)
    ensures Inv(p, Act(p, w, Crash))
  {
  }

  lemma DeleteKeeps(p: Policy, w: World)
    requires Inv(p, w) && w.proc.Down?
    ensures Inv(p, Act(p, w, Delete))
  {
    var w' := Act(p, w, Delete);
    assert forall e :: Settled(p, w', e) <==> Settled(p, w, e);
    assert forall e :: Known(p, w', e) ==> Known(p, w, e);
  }

  lemma HandedInRows(db: Db, limit: nat, types: Types, e: Event)
    requires e in HandedBy(db, limit, types)
    ensures InRows(db.rows, e)
  {
    OldestFirst(db.rows, 1, db.lastRow, limit, types);
  }

  lemma HandKeeps(p: Policy, w: World, limit: nat, types: Types)
    requires Inv(p, w) && w.proc.Up?
    ensures Inv(p, Act(p, w, Hand(limit, types)))
  {
    var w' := Act(p, w, Hand(limit, types));
    forall e | Settled(p, w', e) ensures Settled(p, w, e) || InRows(w.db.rows, e) {
      if e in HandedBy(w.db, limit, types) {
        HandedInRows(w.db, limit, types, e);
      }
    }
    assert forall e :: Known(p, w', e) ==> Known(p, w, e);
  }

  lemma ChangeKeeps(p: Policy, w: World, op: Op)
    requires Inv(p, w) && Enabled(p, w, Change(op))
    ensures Inv(p, Act(p, w, Change(op)))
  {
    var w' := Act(p, w, Change(op));
    forall e | InRows(w'.db.rows, e) ensures InRows(w.db.rows, e) {
      var s :| s in w'.db.rows && w'.db.rows[s].event == e;
      assert s in w.db.rows;
    }
    assert forall e :: Settled(p, w', e) <==> Settled(p, w, e);
    assert forall e :: Known(p, w', e) ==> Known(p, w, e);
  }

  lemma CopyKeeps(p: Policy, w: World)
    requires Sound(p) && Inv(p, w) && Enabled(p, w, Copy)
    ensures Inv(p, Act(p, w, Copy))
  {
    var w' := Act(p, w, Copy);
    assert w'.copies[|w.copies|] == w.db;
    forall e | Settled(p, w', e) ensures Settled(p, w, e) || (p.restores && InRows(w.db.rows, e)) {
      if e !in w.handed {
        var i :| 0 <= i < |w'.copies| && InRows(w'.copies[i].rows, e);
        assert i < |w.copies| ==> w'.copies[i] == w.copies[i];
      }
    }
    assert forall e :: Known(p, w', e) ==> Known(p, w, e);
    assert forall i :: 0 <= i < |w.copies| ==> w'.copies[i] == w.copies[i];
  }

  lemma RestoreKeeps(p: Policy, w: World, i: nat)
    requires Inv(p, w) && Enabled(p, w, Restore(i))
    ensures Inv(p, Act(p, w, Restore(i)))
  {
  }

  lemma {:induction false} OwnCountGrows(items: seq<Item>, i: nat, j: nat)
    requires i < j <= |items| && items[i].Own?
    ensures OwnCount(items[..i]) < OwnCount(items[..j])
    decreases j
  {
    assert items[..j][..j - 1] == items[..j - 1];
    if i < j - 1 {
      OwnCountGrows(items, i, j - 1);
    }
  }

  /** The event of a row just stored: an old one, or the one some item became. */
  lemma NewOrOld(w: World, items: seq<Item>, cursor: Option<Cursor>, e: Event)
    requires w.proc.Up? && Append(w.db, w.proc.me, items, cursor, w.uuid).Ok?
    requires InRows(Append(w.db, w.proc.me, items, cursor, w.uuid).value.db.rows, e) && !InRows(w.db.rows, e)
    ensures exists i :: 0 <= i < |items| && e == EventAt(w.proc.me, w.db.site, items, w.uuid, i)
  {
    var work := Work(w.db, w.proc.me);
    StoresEach(work, items, w.uuid);
    var rows := w.db.rows + NewRows(work, items, w.uuid);
    var s :| s in rows && rows[s].event == e;
    var i := s - w.db.lastRow - 1;
    assert s in NewRows(work, items, w.uuid);
    NewRowsAt(work, items, w.uuid, i);
    assert e == EventAt(w.proc.me, w.db.site, items, w.uuid, i);
  }

  /** A stored own event has a number above all earlier ones of its epoch, up to the new count. */
  lemma OwnNumber(w: World, items: seq<Item>, i: nat)
    requires w.proc.Up? && Foreign(items) && i < |items|
    ensures var me := w.proc.me; var e := EventAt(me, w.db.site, items, w.uuid, i);
            e.producer.Agent? ==>
              && items[i].Own? && e.producer.epoch == me.epoch && e.producer.id == me.producer
              && me.number < e.producer.number == me.number + OwnCount(items[..i]) + 1 <= me.number + OwnCount(items)
  {
    if items[i].Own? {
      OwnCountGrows(items, i, |items|);
      assert items[..|items|] == items;
    }
  }

  lemma CommitUniqueNew(p: Policy, w: World, items: seq<Item>, cursor: Option<Cursor>, e: Event, f: Event)
    requires Inv(p, w) && Enabled(p, w, Commit(items, cursor))
    requires Known(p, Act(p, w, Commit(items, cursor)), e) && !Known(p, w, e) && Known(p, w, f)
    ensures !SameNumber(e, f)
  {
    NewOrOld(w, items, cursor, e);
    var i :| 0 <= i < |items| && e == EventAt(w.proc.me, w.db.site, items, w.uuid, i);
    OwnNumber(w, items, i);
    assert UpTo(f, w.proc.me);
  }

  lemma CommitUniqueBoth(p: Policy, w: World, items: seq<Item>, cursor: Option<Cursor>, e: Event, f: Event)
    requires Inv(p, w) && Enabled(p, w, Commit(items, cursor))
    requires var w' := Act(p, w, Commit(items, cursor)); Known(p, w', e) && Known(p, w', f) && SameNumber(e, f)
    requires !Known(p, w, e) && !Known(p, w, f)
    ensures e == f
  {
    var me := w.proc.me;
    NewOrOld(w, items, cursor, e);
    NewOrOld(w, items, cursor, f);
    var i :| 0 <= i < |items| && e == EventAt(me, w.db.site, items, w.uuid, i);
    var j :| 0 <= j < |items| && f == EventAt(me, w.db.site, items, w.uuid, j);
    OwnNumber(w, items, i);
    OwnNumber(w, items, j);
    if i < j { OwnCountGrows(items, i, j); }
    if j < i { OwnCountGrows(items, j, i); }
  }

  lemma CommitKeeps(p: Policy, w: World, items: seq<Item>, cursor: Option<Cursor>)
    requires Inv(p, w) && Enabled(p, w, Commit(items, cursor))
    ensures Inv(p, Act(p, w, Commit(items, cursor)))
  {
    var w' := Act(p, w, Commit(items, cursor));
    var me := w.proc.me;
    StoresEach(Work(w.db, me), items, w.uuid);
    assert forall e :: Settled(p, w', e) <==> Settled(p, w, e);
    forall e | InRows(w'.db.rows, e) && e.producer.Agent? && !InRows(w.db.rows, e)
      ensures e.producer.epoch == me.epoch && e.producer.number <= w'.db.meta.value.number
    {
      NewOrOld(w, items, cursor, e);
      var i :| 0 <= i < |items| && e == EventAt(me, w.db.site, items, w.uuid, i);
      OwnNumber(w, items, i);
    }
    forall e, f | Known(p, w', e) && Known(p, w', f) && SameNumber(e, f) ensures e == f {
      if !Known(p, w, e) && !Known(p, w, f) {
        CommitUniqueBoth(p, w, items, cursor, e, f);
      } else if !Known(p, w, e) {
        CommitUniqueNew(p, w, items, cursor, e, f);
      } else if !Known(p, w, f) {
        CommitUniqueNew(p, w, items, cursor, f, e);
      }
    }
  }

  lemma StepKeeps(p: Policy, w: World, a: Action)
    requires Sound(p) && Inv(p, w)
    ensures Inv(p, Act(p, w, a))
  {
    if Enabled(p, w, a) {
      match a
      case Open => OpenKeeps(p, w);
      case Commit(items, cursor) => CommitKeeps(p, w, items, cursor);
      case WriteSidecar => WriteKeeps(p, w);
      case FailSidecar => FailKeeps(p, w);
      case Hand(limit, types) => HandKeeps(p, w, limit, types);
      case Change(op) => ChangeKeeps(p, w, op);
      case Crash => CrashKeeps(p, w);
      case Delete => DeleteKeeps(p, w);
      case Copy => CopyKeeps(p, w);
      case Restore(i) => RestoreKeeps(p, w, i);
    }
  }

  lemma {:induction false} RunKeeps(p: Policy, actions: seq<Action>)
    requires Sound(p)
    ensures Inv(p, ActAll(p, actions))
  {
    if actions != [] {
      RunKeeps(p, actions[..|actions| - 1]);
      StepKeeps(p, ActAll(p, actions[..|actions| - 1]), actions[|actions| - 1]);
    }
  }

  // ------------------------------------------------------------------
  // The policies under which numbers are unique
  // ------------------------------------------------------------------

  const ZERO := Identity(0, 1, 0)
  const ONE := Identity(0, 1, 1)
  const FRESH := EMPTY.(meta := Some(ZERO))

  function OneItem(content: nat): seq<Item> { [Own("cycle.observed", content, 100, true)] }

  /** The event that takes number 1, whichever it is. */
  function NumberOne(uuid: nat, content: nat): Event {
    Event(uuid, "cycle.observed", Agent(0, 1, 1), None, content, 100)
  }

  function WithOne(e: Event): Db {
    Db(Some(ONE), None, 1, map[1 := Row(e, Pending, 0)], map[])
  }

  ghost predicate Reached(p: Policy, w: World) { exists actions :: ActAll(p, actions) == w }

  lemma Step(p: Policy, w: World, a: Action)
    requires Reached(p, w)
    ensures Reached(p, Act(p, w, a))
  {
    var actions :| ActAll(p, actions) == w;
    assert (actions + [a])[..|actions|] == actions;
    assert ActAll(p, actions + [a]) == Act(p, w, a);
  }

  lemma FirstCommit(p: Policy, w: World, content: nat)
    requires Reached(p, w) && w.db == FRESH && w.proc == Up(ZERO)
    ensures Reached(p, w.(db := WithOne(NumberOne(w.uuid, content)), proc := Between(ONE), uuid := w.uuid + 1))
  {
    var work, items := Work(FRESH, ZERO), OneItem(content);
    assert items[..0] == [];
    assert StoreAll(work, items, w.uuid) == StoreOne(work, items[0], w.uuid);
    assert FRESH.rows[1 := Row(NumberOne(w.uuid, content), Pending, 0)]
        == map[1 := Row(NumberOne(w.uuid, content), Pending, 0)];
    Step(p, w, Commit(items, None));
  }

  lemma Opens(p: Policy, w: World)
    requires Reached(p, w) && w.proc.Down?
    ensures var me := Opened(w.db, w.side, w.uuid);
            Reached(p, w.(db := w.db.(meta := Some(me)), side := Some(me), proc := Up(me), uuid := w.uuid + 2))
  {
    Step(p, w, Open);
    Step(p, Act(p, w, Open), WriteSidecar);
  }

  /** Putting back a copy that the sidecar does not give away. */
  lemma PutBack(p: Policy, w: World, i: nat)
    requires p.restores && Reached(p, w) && i < |w.copies| && w.side.Some? && w.copies[i].meta == w.side
    ensures Reached(p, w.(db := w.copies[i], proc := Up(w.side.value), uuid := w.uuid + 2))
  {
    Step(p, w, Crash);
    Step(p, Act(p, w, Crash), Restore(i));
    Opens(p, w.(proc := Down, db := w.copies[i]));
    assert w.copies[i].(meta := w.side) == w.copies[i];
  }

  /** A number is stored; a copy from before it exists, and the sidecar has not caught up. */
  lemma UpToFirstCommit(p: Policy)
    ensures Reached(p, World(WithOne(NumberOne(2, 1)), Some(ZERO), Between(ONE), [FRESH], [], 3))
  {
    assert ActAll(p, []) == FIRST;
    Opens(p, FIRST);
    var w := World(FRESH, Some(ZERO), Up(ZERO), [], [], 2);
    Step(p, w, Copy);
    FirstCommit(p, w.(copies := [FRESH]), 1);
  }

  lemma HandsOut(p: Policy, w: World, e: Event)
    requires Reached(p, w) && w.db == WithOne(e) && w.proc.Up?
    ensures Reached(p, w.(handed := w.handed + [e]))
  {
    OldestFirst(w.db.rows, 1, 1, 1, None);
    assert PendingRows(w.db, 1, None) == [1];
    assert HandedBy(w.db, 1, None) == [e];
    Step(p, w, Hand(1, None));
  }

  lemma Twice(p: Policy, w: World, e: Event, f: Event)
    requires Reached(p, w) && w.handed == [e, f] && SameNumber(e, f) && e != f
    ensures exists actions :: !Distinct(ActAll(p, actions).handed)
  {
    var actions :| ActAll(p, actions) == w;
    assert SameNumber(w.handed[0], w.handed[1]) && !Distinct(w.handed);
  }

  /** The number is handed out while the sidecar still says 0: the older copy is not recognised. */
  lemma FailedSidecarBreaks(p: Policy)
    requires p.restores && p.failures
    ensures exists actions :: !Distinct(ActAll(p, actions).handed)
  {
    var e, f := NumberOne(2, 1), NumberOne(5, 2);
    UpToFirstCommit(p);
    var w0 := World(WithOne(e), Some(ZERO), Between(ONE), [FRESH], [], 3);
    Step(p, w0, FailSidecar);
    HandsOut(p, w0.(proc := Up(ONE)), e);
    PutBack(p, w0.(proc := Up(ONE), handed := [e]), 0);
    var w1 := World(FRESH, Some(ZERO), Up(ZERO), [FRESH], [e], 5);
    FirstCommit(p, w1, 2);
    var w2 := World(WithOne(f), Some(ZERO), Between(ONE), [FRESH], [e], 6);
    Step(p, w2, WriteSidecar);
    HandsOut(p, w2.(side := Some(ONE), proc := Up(ONE)), f);
    Twice(p, w2.(side := Some(ONE), proc := Up(ONE), handed := [e, f]), e, f);
  }

  /** A copy taken between commit and sidecar holds a number the sidecar has not seen; a second event takes it. */
  lemma LooseCopyBreaks(p: Policy)
    requires p.restores && p.looseCopies
    ensures exists actions :: !Distinct(ActAll(p, actions).handed)
  {
    var e, f := NumberOne(2, 1), NumberOne(5, 2);
    UpToFirstCommit(p);
    var w0 := World(WithOne(e), Some(ZERO), Between(ONE), [FRESH], [], 3);
    Step(p, w0, Copy);
    PutBack(p, w0.(copies := [FRESH, WithOne(e)]), 0);
    var w1 := World(FRESH, Some(ZERO), Up(ZERO), [FRESH, WithOne(e)], [], 5);
    FirstCommit(p, w1, 2);
    var w2 := World(WithOne(f), Some(ZERO), Between(ONE), [FRESH, WithOne(e)], [], 6);
    Step(p, w2, WriteSidecar);
    var w3 := w2.(side := Some(ONE), proc := Up(ONE));
    HandsOut(p, w3, f);
    PutBack(p, w3.(handed := [f]), 1);
    HandsOut(p, w3.(handed := [f], db := WithOne(e), uuid := 8), e);
    Twice(p, w3.(handed := [f, e], db := WithOne(e), uuid := 8), f, e);
  }

  /** Over every run of appends, crashes at any point, openings, re-created databases and restored copies, no two
      different agent events are handed out under one (producer, epoch, number) -- if copies are never put back,
      or else every sidecar write succeeds and copies are taken while the sidecar matches. Otherwise some run
      hands out two. */
  lemma NumbersUnique(p: Policy)
    ensures Sound(p) <==> forall actions :: Distinct(ActAll(p, actions).handed)
  {
    if Sound(p) {
      forall actions ensures Distinct(ActAll(p, actions).handed) {
        RunKeeps(p, actions);
        var w := ActAll(p, actions);
        assert forall i :: 0 <= i < |w.handed| ==> Known(p, w, w.handed[i]);
      }
    } else if p.failures {
      FailedSidecarBreaks(p);
    } else {
      LooseCopyBreaks(p);
    }
  }
}
