/** The durable spool of MES events: what each transaction does to the database (agent_mes_spool.py). */
module MesSpool {
  import opened Wrappers

  /** Who made an event, and its number in that producer's epoch. Producer ids, epochs and event ids are UUIDs,
      drawn from a counter that never repeats. */
  datatype Producer = Agent(id: nat, epoch: nat, number: nat) | MillWright(epoch: nat, number: nat)

  /** `content` stands for everything else in the body, `size` for the length of its encoding. */
  datatype Event = Event(id: nat, kind: string, producer: Producer, site: Option<string>, content: nat, size: nat)

  datatype State = Pending | Acked | Dropped(reason: string)

  /** `closedAt` is the time a row was acknowledged or dropped. */
  datatype Row = Row(event: Event, state: State, closedAt: int)

  /** What the `meta` table, the sidecar file and the running agent each hold. */
  datatype Identity = Identity(producer: nat, epoch: nat, number: nat)

  datatype Cursor = Cursor(source: string, epoch: nat, position: nat)

  type Rows = map<nat, Row>

  /** Rows by their number; `lastRow` is SQLite's sequence for the table, the highest number ever committed. */
  datatype Db = Db(meta: Option<Identity>, site: Option<string>, lastRow: nat, rows: Rows,
                   cursors: map<string, Cursor>)

  /** Row numbers start at 1 and never pass the sequence, pruned rows included. */
  predicate Numbered(db: Db) {
    forall s :: s in db.rows ==> 1 <= s <= db.lastRow
  }

  const EMPTY := Db(None, None, 0, map[], map[])

  datatype Error = Full | Rejected | Duplicate

  /** An event to store: the agent's own, numbered here, or one from another producer, kept as it is.
      `accepted` is what the contract says of it. */
  datatype Item =
    | Own(kind: string, content: nat, size: nat, accepted: bool)
    | Raw(event: Event, accepted: bool)

  // ------------------------------------------------------------------
  // Opening: which epoch this database continues
  // ------------------------------------------------------------------

  function ProducerOf(db: Db, side: Option<Identity>, uuid: nat): nat {
    if db.meta.Some? then db.meta.value.producer else if side.Some? then side.value.producer else uuid
  }

  /** The sidecar knows of numbers this database does not: it is an older copy. */
  predicate OlderCopy(db: Db, side: Option<Identity>) {
    && db.meta.Some? && side.Some?
    && side.value.producer == db.meta.value.producer
    && (side.value.epoch != db.meta.value.epoch || side.value.number > db.meta.value.number)
  }

  function Opened(db: Db, side: Option<Identity>, uuid: nat): Identity {
    if db.meta.None? || OlderCopy(db, side) then Identity(ProducerOf(db, side, uuid), uuid + 1, 0)
    else db.meta.value
  }

  /** Opening, with UUIDs never drawn before: the producer is the database's, else the sidecar's; the identity is
      kept if and only if there is one and the database is no older copy; otherwise numbers start again in an epoch
      that neither the database nor the sidecar has had. */
  lemma OpeningMeans(db: Db, side: Option<Identity>, uuid: nat)
    requires (db.meta.Some? ==> db.meta.value.epoch <= uuid) && (side.Some? ==> side.value.epoch <= uuid)
    ensures var me := Opened(db, side, uuid);
            && (db.meta.Some? ==> me.producer == db.meta.value.producer)
            && (db.meta.None? && side.Some? ==> me.producer == side.value.producer)
            && (Some(me) == db.meta <==>
                  db.meta.Some? && match side
                                   case None => true
                                   case Some(known) =>
                                     known.producer == db.meta.value.producer ==>
                                       known.epoch == db.meta.value.epoch && known.number <= db.meta.value.number)
            && (Some(me) != db.meta ==>
                  && me.number == 0 && (db.meta.Some? ==> me.epoch != db.meta.value.epoch)
                  && (side.Some? ==> me.epoch != side.value.epoch))
            && (Some(me) == db.meta && side.Some? && side.value.producer == me.producer ==>
                  side.value.epoch == me.epoch && side.value.number <= me.number)
  {
  }

  // ------------------------------------------------------------------
  // One append transaction
  // ------------------------------------------------------------------

  predicate HasEvent(rows: Rows, id: nat) {
    exists s :: s in rows && rows[s].event.id == id
  }

  function Insert(db: Db, event: Event): Result<Db, Error> {
    if HasEvent(db.rows, event.id) then Err(Duplicate)
    else Ok(db.(lastRow := db.lastRow + 1, rows := db.rows[db.lastRow + 1 := Row(event, Pending, 0)]))
  }

  /** The open transaction: the table so far, and the number last given to an own event. */
  datatype Work = Work(db: Db, me: Identity)

  function Stamped(me: Identity, site: Option<string>, item: Item, uuid: nat): Event {
    match item
    case Own(kind, content, size, _) =>
      Event(uuid, kind, Agent(me.producer, me.epoch, me.number + 1), site, content, size)
    case Raw(event, _) => event
  }

  function StoreOne(w: Work, item: Item, uuid: nat): Result<Work, Error> {
    if !item.accepted then Err(Rejected) else
      match Insert(w.db, Stamped(w.me, w.db.site, item, uuid))
      case Err(e) => Err(e)
      case Ok(db) => Ok(Work(db, if item.Own? then w.me.(number := w.me.number + 1) else w.me))
  }

  function StoreAll(w: Work, items: seq<Item>, uuid: nat): Result<Work, Error> {
    if items == [] then Ok(w) else
      var n := |items| - 1;
      match StoreAll(w, items[..n], uuid)
      case Err(e) => Err(e)
      case Ok(w') => StoreOne(w', items[n], uuid + n)
  }

  function MoveCursor(db: Db, cursor: Option<Cursor>): Db {
    if cursor.None? then db else db.(cursors := db.cursors[cursor.value.source := cursor.value])
  }

  function SaveNumber(db: Db, me: Identity, number: nat): Db {
    if db.meta.None? || number == me.number then db else db.(meta := Some(db.meta.value.(number := number)))
  }

  /** The whole transaction: every item, the cursor and the producer's last number, or nothing. */
  function Append(db: Db, me: Identity, items: seq<Item>, cursor: Option<Cursor>, uuid: nat): Result<Work, Error> {
    match StoreAll(Work(db, me), items, uuid)
    case Err(e) => Err(e)
    case Ok(w) => Ok(Work(SaveNumber(MoveCursor(w.db, cursor), me, w.me.number), w.me))
  }

  // ------------------------------------------------------------------
  // What the transaction stored
  // ------------------------------------------------------------------

  function OwnCount(items: seq<Item>): nat {
    if items == [] then 0
    else OwnCount(items[..|items| - 1]) + (if items[|items| - 1].Own? then 1 else 0)
  }

  /** The event the i-th item becomes. */
  function EventAt(me: Identity, site: Option<string>, items: seq<Item>, uuid: nat, i: nat): Event
    requires i < |items|
  {
    Stamped(me.(number := me.number + OwnCount(items[..i])), site, items[i], uuid + i)
  }

  /** The rows added: one for each item in order, pending, on the next row numbers. */
  function NewRows(w: Work, items: seq<Item>, uuid: nat): (rows: Rows)
    ensures forall s :: s in rows <==> w.db.lastRow < s <= w.db.lastRow + |items|
  {
    if items == [] then map[] else
      var n := |items| - 1;
      NewRows(w, items[..n], uuid)[w.db.lastRow + |items| := Row(EventAt(w.me, w.db.site, items, uuid, n), Pending, 0)]
  }

  lemma {:induction false} NewRowsAt(w: Work, items: seq<Item>, uuid: nat, i: nat)
    requires i < |items|
    ensures NewRows(w, items, uuid)[w.db.lastRow + 1 + i] == Row(EventAt(w.me, w.db.site, items, uuid, i), Pending, 0)
    decreases items
  {
    var n := |items| - 1;
    if i < n {
      NewRowsAt(w, items[..n], uuid, i);
      assert items[..n][..i] == items[..i];
    }
  }

  lemma PlusUpdate(a: Rows, b: Rows, s: nat, r: Row)
    ensures (a + b)[s := r] == a + b[s := r]
  {
  }

  /** The transaction after the given items, if none of them failed. */
  function Stored(w: Work, items: seq<Item>, uuid: nat): Work {
    Work(w.db.(rows := w.db.rows + NewRows(w, items, uuid), lastRow := w.db.lastRow + |items|),
         w.me.(number := w.me.number + OwnCount(items)))
  }

  /** Own events take the next numbers without a gap, whatever lies between them. */
  lemma {:induction false} StoresEach(w: Work, items: seq<Item>, uuid: nat)
    ensures var r := StoreAll(w, items, uuid); r.Ok? ==> r.value == Stored(w, items, uuid)
  {
    if items == [] {
      assert w.db.rows + NewRows(w, items, uuid) == w.db.rows;
    } else {
      var n := |items| - 1;
      StoresEach(w, items[..n], uuid);
      StoresOneMore(w, items, uuid);
    }
  }

  lemma StoresOneMore(w: Work, items: seq<Item>, uuid: nat)
    requires items != []
    ensures var n := |items| - 1; var r := StoreOne(Stored(w, items[..n], uuid), items[n], uuid + n);
            r.Ok? ==> r.value == Stored(w, items, uuid)
  {
    var n := |items| - 1;
    var event := EventAt(w.me, w.db.site, items, uuid, n);
    PlusUpdate(w.db.rows, NewRows(w, items[..n], uuid), w.db.lastRow + |items|, Row(event, Pending, 0));
    assert w.db.lastRow + n + 1 == w.db.lastRow + |items|;
  }

  /** Nothing stands against the i-th item: the contract accepts it and its event id is not yet taken. */
  predicate Storable(w: Work, items: seq<Item>, uuid: nat, i: nat)
    requires i < |items|
  {
    var id := EventAt(w.me, w.db.site, items, uuid, i).id;
    items[i].accepted && !HasEvent(w.db.rows, id) && !HasEvent(NewRows(w, items[..i], uuid), id)
  }

  /** A commit fails exactly when the contract rejects an item or an event id is taken. */
  lemma {:induction false} StoresWhen(w: Work, items: seq<Item>, uuid: nat)
    requires Numbered(w.db)
    ensures StoreAll(w, items, uuid).Ok? <==> forall i :: 0 <= i < |items| ==> Storable(w, items, uuid, i)
  {
    if items != [] {
      var n := |items| - 1;
      StoresWhen(w, items[..n], uuid);
      LastStorable(w, items, uuid);
      forall i | 0 <= i < n ensures Storable(w, items[..n], uuid, i) == Storable(w, items, uuid, i) {
        assert items[..n][..i] == items[..i];
      }
    }
  }

  lemma LastStorable(w: Work, items: seq<Item>, uuid: nat)
    requires Numbered(w.db) && items != []
    ensures var n := |items| - 1;
            StoreAll(w, items, uuid).Ok? <==> StoreAll(w, items[..n], uuid).Ok? && Storable(w, items, uuid, n)
  {
    var n := |items| - 1;
    StoresEach(w, items[..n], uuid);
    HasEventConcat(w.db.rows, NewRows(w, items[..n], uuid), EventAt(w.me, w.db.site, items, uuid, n).id);
  }

  lemma HasEventConcat(a: Rows, b: Rows, id: nat)
    requires a.Keys !! b.Keys
    ensures HasEvent(a + b, id) <==> HasEvent(a, id) || HasEvent(b, id)
  {
    assert forall s :: s in a ==> (a + b)[s] == a[s];
    assert forall s :: s in b ==> (a + b)[s] == b[s];
  }

  // ------------------------------------------------------------------
  // Reading, closing and pruning rows
  // ------------------------------------------------------------------

  type Types = Option<set<string>>

  predicate Waiting(r: Row, types: Types) {
    r.state.Pending? && (types.None? || r.event.kind in types.value)
  }

  /** The numbers of the first `limit` waiting rows from `from` on. */
  function Oldest(rows: Rows, from: nat, last: nat, limit: nat, types: Types): seq<nat>
    decreases last + 1 - from
  {
    if from > last || limit == 0 then []
    else if from in rows && Waiting(rows[from], types) then [from] + Oldest(rows, from + 1, last, limit - 1, types)
    else Oldest(rows, from + 1, last, limit, types)
  }

  function PendingRows(db: Db, limit: nat, types: Types): seq<nat> {
    Oldest(db.rows, 1, db.lastRow, limit, types)
  }

  /** `out` lists waiting rows oldest first and leaves one out only for lack of room, and then a later one. */
  ghost predicate OldestOf(out: seq<nat>, rows: Rows, from: nat, last: nat, limit: nat, types: Types) {
    && |out| <= limit
    && (forall i :: 0 <= i < |out| ==> from <= out[i] <= last && out[i] in rows && Waiting(rows[out[i]], types))
    && (forall i, j :: 0 <= i < j < |out| ==> out[i] < out[j])
    && (forall s :: s in rows && from <= s <= last && Waiting(rows[s], types) && s !in out ==>
          |out| == limit && forall i :: 0 <= i < |out| ==> out[i] < s)
  }

  lemma OldestCons(rest: seq<nat>, rows: Rows, from: nat, last: nat, limit: nat, types: Types)
    requires limit > 0 && from <= last && OldestOf(rest, rows, from + 1, last, limit - 1, types)
    requires from in rows && Waiting(rows[from], types)
    ensures OldestOf([from] + rest, rows, from, last, limit, types)
  {
    var out := [from] + rest;
    assert forall i :: 0 < i < |out| ==> out[i] == rest[i - 1];
    assert forall s :: s in out <==> s == from || s in rest;
  }

  lemma OldestSkip(rest: seq<nat>, rows: Rows, from: nat, last: nat, limit: nat, types: Types)
    requires OldestOf(rest, rows, from + 1, last, limit, types) && !(from in rows && Waiting(rows[from], types))
    ensures OldestOf(rest, rows, from, last, limit, types)
  {
  }

  lemma OldestNone(rows: Rows, from: nat, last: nat, limit: nat, types: Types)
    requires from > last || limit == 0
    ensures OldestOf([], rows, from, last, limit, types)
  {
  }

  lemma {:induction false} OldestFirst(rows: Rows, from: nat, last: nat, limit: nat, types: Types)
    ensures OldestOf(Oldest(rows, from, last, limit, types), rows, from, last, limit, types)
    decreases last + 1 - from
  {
    if from > last || limit == 0 {
      OldestNone(rows, from, last, limit, types);
    } else if from in rows && Waiting(rows[from], types) {
      OldestFirst(rows, from + 1, last, limit - 1, types);
      OldestCons(Oldest(rows, from + 1, last, limit - 1, types), rows, from, last, limit, types);
    } else {
      OldestFirst(rows, from + 1, last, limit, types);
      OldestSkip(Oldest(rows, from + 1, last, limit, types), rows, from, last, limit, types);
    }
  }

  /** Only pending rows are closed: an acknowledged or dropped row stays as it is. */
  function Close(rows: Rows, chosen: set<nat>, to: State, now: int): Rows {
    map s | s in rows ::
      if s in chosen && rows[s].state.Pending? then rows[s].(state := to, closedAt := now) else rows[s]
  }

  function MarkAcked(db: Db, chosen: set<nat>, now: int): Db {
    db.(rows := Close(db.rows, chosen, Acked, now))
  }

  /** Stamped with a site, and another one than `site`; rows without a site (MillWright's) are not. */
  predicate OfOtherSite(event: Event, site: Option<string>) {
    event.site.Some? && event.site.value != "" && event.site != site
  }

  function OtherSiteRows(rows: Rows, site: Option<string>): set<nat> {
    set s | s in rows && rows[s].state.Pending? && OfOtherSite(rows[s].event, site)
  }

  function DropOtherSite(db: Db, site: Option<string>, reason: string, now: int): Db {
    db.(rows := Close(db.rows, OtherSiteRows(db.rows, site), Dropped(reason), now))
  }

  predicate Expired(r: Row, cutoff: int) {
    !r.state.Pending? && r.closedAt < cutoff
  }

  function Prune(db: Db, cutoff: int): Db {
    db.(rows := map s | s in db.rows && !Expired(db.rows[s], cutoff) :: db.rows[s])
  }

  // ------------------------------------------------------------------
  // The life of a row
  // ------------------------------------------------------------------

  datatype Op =
    | OpOpen(side: Option<Identity>, uuid: nat)
    | OpAppend(me: Identity, items: seq<Item>, cursor: Option<Cursor>, uuid: nat)
    | OpAcked(chosen: set<nat>, now: int)
    | OpDrop(site: Option<string>, reason: string, now: int)
    | OpPrune(cutoff: int)
    | OpSite(id: string)

  function Do(db: Db, op: Op): Db {
    match op
    case OpOpen(side, uuid) => db.(meta := Some(Opened(db, side, uuid)))
    case OpAppend(me, items, cursor, uuid) =>
      var r := Append(db, me, items, cursor, uuid);
      if r.Ok? then r.value.db else db
    case OpAcked(chosen, now) => MarkAcked(db, chosen, now)
    case OpDrop(site, reason, now) => DropOtherSite(db, site, reason, now)
    case OpPrune(cutoff) => Prune(db, cutoff)
    case OpSite(id) => db.(site := Some(id))
  }

  datatype Life = NotYet | In(state: State) | Gone

  function LifeOf(db: Db, s: nat): Life {
    if s in db.rows then In(db.rows[s].state) else if s == 0 || s > db.lastRow then NotYet else Gone
  }

  predicate Closed(l: Life) { l.In? && !l.state.Pending? }

  /** What one operation may do to one row. */
  predicate Moves(before: Life, op: Op, s: nat, after: Life) {
    match op
    case OpAppend(_, _, _, _) => after == before || (before.NotYet? && after == In(Pending))
    case OpAcked(chosen, _) => after == if before == In(Pending) && s in chosen then In(Acked) else before
    case OpDrop(_, reason, _) => after == before || (before == In(Pending) && after == In(Dropped(reason)))
    case OpPrune(_) => after == before || (Closed(before) && after == Gone)
    case _ => after == before
  }

  lemma AppendMoves(db: Db, me: Identity, items: seq<Item>, cursor: Option<Cursor>, uuid: nat, s: nat)
    requires Numbered(db)
    ensures var op := OpAppend(me, items, cursor, uuid); var db' := Do(db, op);
            && Numbered(db')
            && Moves(LifeOf(db, s), op, s, LifeOf(db', s))
            && (s in db.rows ==> s in db'.rows && db'.rows[s] == db.rows[s])
  {
    var work := Work(db, me);
    StoresEach(work, items, uuid);
    if StoreAll(work, items, uuid).Ok? {
      StoredMoves(work, items, uuid, s);
    }
  }

  lemma StoredMoves(work: Work, items: seq<Item>, uuid: nat, s: nat)
    requires Numbered(work.db)
    ensures var db' := Stored(work, items, uuid).db;
            && Numbered(db')
            && (LifeOf(db', s) == LifeOf(work.db, s) || (LifeOf(work.db, s).NotYet? && LifeOf(db', s) == In(Pending)))
            && (s in work.db.rows ==> s in db'.rows && db'.rows[s] == work.db.rows[s])
  {
    if s in NewRows(work, items, uuid) {
      NewRowsAt(work, items, uuid, s - work.db.lastRow - 1);
    }
  }

  /** Every operation: a row is stored pending; it is closed once, by an acknowledgement naming it or by the
      operator's discard; only a closed row is ever deleted; its event never changes and its number is never
      used again. */
  lemma Lifecycle(db: Db, op: Op, s: nat)
    requires Numbered(db)
    ensures var db' := Do(db, op);
            && Numbered(db')
            && Moves(LifeOf(db, s), op, s, LifeOf(db', s))
            && (s in db.rows && s in db'.rows ==> db'.rows[s].event == db.rows[s].event)
  {
    if op.OpAppend? {
      AppendMoves(db, op.me, op.items, op.cursor, op.uuid, s);
    }
  }

  /** Waiting, and stamped with a site that is not the one kept; what a discard for that site is to drop. */
  predicate Discardable(r: Row, site: Option<string>) {
    match r.event.site
    case None => false
    case Some(stamp) => r.state == Pending && |stamp| > 0 && (site.None? || stamp != site.value)
  }

  /** The discard drops, with the reason and the time, exactly the pending rows stamped with another site, and touches
      no other row: in particular none stamped with the site kept, none without a stamp and none already closed. */
  lemma DiscardComplete(db: Db, site: Option<string>, reason: string, now: int)
    ensures var db' := DropOtherSite(db, site, reason, now);
            && db' == db.(rows := db'.rows) && db'.rows.Keys == db.rows.Keys
            && (forall s :: s in db.rows ==>
                  db'.rows[s] == if Discardable(db.rows[s], site) then Row(db.rows[s].event, Dropped(reason), now)
                                 else db.rows[s])
            && (forall s :: s in db.rows && (db.rows[s].event.site == site || db.rows[s].event.site.None?) ==>
                  db'.rows[s] == db.rows[s])
            && forall s :: s in db'.rows ==> !Discardable(db'.rows[s], site)
    ensures OtherSiteRows(db.rows, site) == set s | s in db.rows && Discardable(db.rows[s], site)
  {
  }

  function Run(db: Db, ops: seq<Op>): Db {
    if ops == [] then db else Do(Run(db, ops[..|ops| - 1]), ops[|ops| - 1])
  }

  /** How far a row has come: it never goes back. */
  function Stage(l: Life): nat {
    match l
    case NotYet => 0
    case In(Pending) => 1
    case In(_) => 2
    case Gone => 3
  }

  /** Over any run of operations, crashes and openings in between: acknowledged and dropped are final, and a row
      that was pending and is gone was acknowledged or dropped on the way. */
  lemma {:induction false} RowsConserved(db: Db, ops: seq<Op>, s: nat)
    requires Numbered(db)
    ensures Numbered(Run(db, ops))
    ensures var before, after := LifeOf(db, s), LifeOf(Run(db, ops), s);
            && Stage(before) <= Stage(after)
            && (Stage(before) == Stage(after) ==> before == after)
            && (before.NotYet? || before == In(Pending) ==> after.Gone? ==> WasClosed(db, ops, s))
    decreases ops
  {
    if ops != [] {
      var init := ops[..|ops| - 1];
      RowsConserved(db, init, s);
      Lifecycle(Run(db, init), ops[|ops| - 1], s);
      if LifeOf(Run(db, ops), s).Gone? {
        if LifeOf(Run(db, init), s).Gone? {
          if WasClosed(db, init, s) {
            var k :| 0 <= k <= |init| && Closed(LifeOf(Run(db, init[..k]), s));
            assert init[..k] == ops[..k];
          }
        } else {
          assert Closed(LifeOf(Run(db, ops[..|init|]), s));
        }
      }
    }
  }

  /** A closed row stays, unchanged, until a prune whose cutoff is after its closing; a prune removes it then. */
  lemma {:induction false} ClosedRowsKept(db: Db, ops: seq<Op>, s: nat)
    requires Numbered(db) && s in db.rows && !db.rows[s].state.Pending?
    requires forall i :: 0 <= i < |ops| && ops[i].OpPrune? ==> ops[i].cutoff <= db.rows[s].closedAt
    ensures s in Run(db, ops).rows && Run(db, ops).rows[s] == db.rows[s]
    ensures forall cutoff :: cutoff > db.rows[s].closedAt ==> s !in Prune(Run(db, ops), cutoff).rows
    decreases ops
  {
    if ops != [] {
      var n := |ops| - 1;
      ClosedRowsKept(db, ops[..n], s);
      RowsConserved(db, ops[..n], s);
      KeptByOne(Run(db, ops[..n]), ops[n], s);
    }
  }

  lemma KeptByOne(db: Db, op: Op, s: nat)
    requires Numbered(db) && s in db.rows && !db.rows[s].state.Pending?
    requires op.OpPrune? ==> op.cutoff <= db.rows[s].closedAt
    ensures s in Do(db, op).rows && Do(db, op).rows[s] == db.rows[s]
  {
    if op.OpAppend? {
      AppendMoves(db, op.me, op.items, op.cursor, op.uuid, s);
    }
  }

  ghost predicate WasClosed(db: Db, ops: seq<Op>, s: nat) {
    exists k :: 0 <= k <= |ops| && Closed(LifeOf(Run(db, ops[..k]), s))
  }

  // ------------------------------------------------------------------
  // The spool object of a running agent
  // ------------------------------------------------------------------

  function Places(from: nat, n: nat): seq<nat> {
    seq(n, i => from + 1 + i)
  }

  lemma CloseOneMore(rows: Rows, chosen: set<nat>, s: nat, to: State, now: int)
    requires !to.Pending?
    ensures Close(Close(rows, chosen, to, now), {s}, to, now) == Close(rows, chosen + {s}, to, now)
  {
  }

  /** The loop's next round. */
  lemma NextItem(start: Work, items: seq<Item>, uuid: nat, i: nat, w: Work)
    requires i < |items| && StoreAll(start, items[..i], uuid) == Ok(w)
    ensures StoreAll(start, items[..i + 1], uuid) == StoreOne(w, items[i], uuid + i)
    ensures Places(start.db.lastRow, i) + [w.db.lastRow + 1] == Places(start.db.lastRow, i + 1)
  {
    assert items[..i + 1][..i] == items[..i];
    StoresEach(start, items[..i], uuid);
  }

  function ToSet(places: seq<nat>): set<nat> {
    set s | s in places
  }

  class Spool {
    var db: Db
    var sidecar: Option<Identity>
    var me: Identity
    const budget: nat

    constructor (disk: Db, side: Option<Identity>, budget: nat, uuid: nat)
      ensures db == Do(disk, OpOpen(side, uuid))
      ensures me == Opened(disk, side, uuid) && sidecar == Some(me) && this.budget == budget
    {
      var id := Opened(disk, side, uuid);
      db, sidecar, me, this.budget := disk.(meta := Some(id)), Some(id), id, budget;
    }

    /** The items of one open transaction, and the numbers of the rows they became. */
    method StoreItems(items: seq<Item>, uuid: nat) returns (r: Result<Work, Error>, places: seq<nat>)
      ensures r == StoreAll(Work(db, me), items, uuid)
      ensures r.Ok? ==> places == Places(db.lastRow, |items|)
    {
      var start := Work(db, me);
      var w := start;
      places := [];
      for i := 0 to |items|
        invariant StoreAll(start, items[..i], uuid) == Ok(w)
        invariant places == Places(start.db.lastRow, i)
      {
        NextItem(start, items, uuid, i, w);
        r := StoreOne(w, items[i], uuid + i);
        if r.Err? {
          ErrorStays(start, items, uuid, i + 1);
          return;
        }
        places := places + [w.db.lastRow + 1];
        w := r.value;
      }
      assert items[..|items|] == items;
      return Ok(w), places;
    }

    /** `bytes` is the size of the database files, `written` whether the sidecar could be written. */
    method AppendLocked(items: seq<Item>, cursor: Option<Cursor>, force: bool, bytes: nat, uuid: nat, written: bool)
      returns (r: Result<seq<nat>, Error>)
      modifies this
      ensures r.Err? ==> db == old(db) && me == old(me) && sidecar == old(sidecar)
      ensures r == Err(Full) <==> !force && bytes >= budget
      ensures r != Err(Full) ==>
                match Append(old(db), old(me), items, cursor, uuid)
                case Err(e) => r == Err(e)
                case Ok(w) => db == w.db && me == w.me && r == Ok(Places(old(db).lastRow, |items|))
      ensures r.Ok? ==> sidecar == if me != old(me) && written then Some(me) else old(sidecar)
    {
      if !force && bytes >= budget {
        return Err(Full);
      }
      var stored, places := StoreItems(items, uuid);
      NotFull(Work(db, me), items, uuid);
      if stored.Err? {
        return Err(stored.error);
      }
      var w := stored.value;
      var numbered := w.me != me;
      StoresEach(Work(db, me), items, uuid);
      db, me := SaveNumber(MoveCursor(w.db, cursor), me, w.me.number), w.me;
      if numbered && written {
        sidecar := Some(me);
      }
      return Ok(places);
    }

    method MarkAckedRows(places: seq<nat>, now: int)
      modifies this`db
      ensures db == MarkAcked(old(db), ToSet(places), now)
    {
      var rows := db.rows;
      for i := 0 to |places|
        invariant db == old(db) && rows == Close(db.rows, ToSet(places[..i]), Acked, now)
      {
        CloseOneMore(db.rows, ToSet(places[..i]), places[i], Acked, now);
        assert ToSet(places[..i + 1]) == ToSet(places[..i]) + {places[i]};
        rows := Close(rows, {places[i]}, Acked, now);
      }
      assert places[..|places|] == places;
      db := db.(rows := rows);
    }

    /** How many rows were dropped: every one chosen, as the choice was made in the same transaction. */
    method DropWaitingForOtherSite(site: Option<string>, reason: string, now: int) returns (n: nat)
      modifies this`db
      ensures db == DropOtherSite(old(db), site, reason, now)
      ensures n == |set s | s in old(db).rows && Discardable(old(db).rows[s], site)|
      ensures forall s :: s in db.rows <==> s in old(db).rows
      ensures forall s :: s in old(db).rows ==>
                db.rows[s] == if Discardable(old(db).rows[s], site)
                              then Row(old(db).rows[s].event, Dropped(reason), now)
                              else old(db).rows[s]
    {
      var rows, left := db.rows, OtherSiteRows(db.rows, site);
      ghost var all := left;
      n := 0;
      while left != {}
        invariant db == old(db) && left <= all && n == |all| - |left|
        invariant rows == Close(db.rows, all - left, Dropped(reason), now)
        decreases |left|
      {
        var s :| s in left;
        CloseOneMore(db.rows, all - left, s, Dropped(reason), now);
        assert all - (left - {s}) == all - left + {s};
        n := n + if rows[s].state.Pending? then 1 else 0;
        rows, left := Close(rows, {s}, Dropped(reason), now), left - {s};
      }
      assert all - left == all;
      DiscardComplete(db, site, reason, now);
      db := db.(rows := rows);
    }
  }

  lemma {:induction false} NotFull(w: Work, items: seq<Item>, uuid: nat)
    ensures StoreAll(w, items, uuid) != Err(Full)
  {
    if items != [] {
      NotFull(w, items[..|items| - 1], uuid);
    }
  }

  lemma {:induction false} ErrorStays(w: Work, items: seq<Item>, uuid: nat, n: nat)
    requires n <= |items| && StoreAll(w, items[..n], uuid).Err?
    ensures StoreAll(w, items, uuid) == StoreAll(w, items[..n], uuid)
    decreases |items| - n
  {
    if n == |items| {
      assert items[..n] == items;
    } else {
      assert items[..n + 1][..n] == items[..n];
      ErrorStays(w, items, uuid, n + 1);
    }
  }
}
