/** Spool, forwarder, service and operator together: what arrives, in which order, and what an acknowledgement
    means, over lost replies, crashes, resends and late requests (agent_mes_forward.py, agent_mes_spool.py). */
module Delivery {
  import opened Wrappers
  import opened MesSpool
  import opened MesForward

  /** A request and the rows as they were read for it. */
  datatype Request = Request(batch: seq<nat>, rows: Rows)

  /** `waiting`: the request the forwarder is at, `posted` once it has left. `flights`: every request that ever left;
      any of them may still arrive, any number of times. `ledger`: the rows in the order the service first took their
      events in. The last three remember every row there has been, and every row ever acknowledged or dropped. */
  datatype World = World(db: Db, link: Link, waiting: Option<Request>, posted: bool, flights: seq<seq<nat>>,
                         ledger: seq<nat>, events: map<nat, Event>, acked: set<nat>, dropped: set<nat>)

  const FIRST := World(EMPTY, STARTED, None, false, [], [], map[], {}, {})

  datatype Action =
    | SpoolWork(op: Op)
    | Connect
    | Ask(answer: MesForward.Reply, readable: bool)
    | Read   // the batch is selected
    | Post   // and, once connected, sent
    | Arrive(flight: nat)
    | Reply(reply: MesForward.Reply, now: int)
    | Crash

  /** The service's answers, fixed for a run: accepted types and limits, each at least 1. */
  datatype Service = Service(types: set<string>, limits: Limits)

  function OfferOf(sv: Service): Offer {
    Offer(sv.types, Some(sv.limits.events), Some(sv.limits.batchBytes), Some(sv.limits.eventBytes))
  }

  // ------------------------------------------------------------------
  // The service
  // ------------------------------------------------------------------

  predicate Known(ledger: seq<nat>, events: map<nat, Event>, id: nat) {
    exists i :: 0 <= i < |ledger| && ledger[i] in events && events[ledger[i]].id == id
  }

  /** One commit of a request: each event whose id is new is taken in, in order. */
  function TakeIn(ledger: seq<nat>, batch: seq<nat>, events: map<nat, Event>): seq<nat> {
    if batch == [] then ledger
    else TakeRow(TakeIn(ledger, batch[..|batch| - 1], events), batch[|batch| - 1], events)
  }

  function TakeRow(ledger: seq<nat>, s: nat, events: map<nat, Event>): seq<nat> {
    if s in events && !Known(ledger, events, events[s].id) then ledger + [s] else ledger
  }

  /** A final receipt is given only for an event the service has committed; replies may otherwise be anything. */
  predicate Honest(w: World, reply: MesForward.Reply) {
    reply.Answer? && reply.receipts.Some? ==>
      forall i :: 0 <= i < |reply.receipts.value| && Final(reply.receipts.value[i]) ==>
        Known(w.ledger, w.events, reply.receipts.value[i].id)
  }

  // ------------------------------------------------------------------
  // Steps
  // ------------------------------------------------------------------

  predicate UniqueIds(events: map<nat, Event>) {
    forall s, t :: s in events && t in events && events[s].id == events[t].id ==> s == t
  }

  function Remembered(events: map<nat, Event>, rows: Rows): map<nat, Event> {
    map s | s in events.Keys + rows.Keys :: if s in rows then rows[s].event else events[s]
  }

  /** The world with a new database, and what is remembered of it. */
  function With(w: World, db: Db): World {
    w.(db := db, events := Remembered(w.events, db.rows),
       acked := w.acked + (set s | s in db.rows && db.rows[s].state.Acked?),
       dropped := w.dropped + (set s | s in db.rows && db.rows[s].state.Dropped?))
  }

  /** Event ids are UUIDs: no stored event ever repeats one. A request that has not left is answered by a failed
      connection only. */
  predicate Enabled(sv: Service, w: World, a: Action) {
    match a
    case SpoolWork(op) => !op.OpAcked? && UniqueIds(Remembered(w.events, Do(w.db, op).rows))
    case Read => w.waiting.None? && w.link.connected && w.link.types.Some? && Batch(w.db, w.link) != []
    case Post => w.waiting.Some? && !w.posted
    case Arrive(f) => f < |w.flights|
    case Reply(reply, _) =>
      && w.waiting.Some? && AllIn(w.waiting.value.batch, w.waiting.value.rows)
      && (w.posted || !reply.Answer?) && Honest(w, reply)
    case Ask(_, _) => w.waiting.None? && Positive(sv.limits)
    case _ => true
  }

  function Act(sv: Service, w: World, a: Action): World {
    if !Enabled(sv, w, a) then w else
      match a
      case SpoolWork(op) => With(w, Do(w.db, op))
      case Connect => w.(link := w.link.(connected := true, types := None))
      case Ask(answer, readable) =>
        w.(link := Asked(w.link, answer, if readable then Some(OfferOf(sv)) else None))
      case Read => w.(waiting := Some(Request(Batch(w.db, w.link), w.db.rows)), posted := false)
      case Post => w.(posted := true, flights := w.flights + [w.waiting.value.batch])
      case Arrive(f) => w.(ledger := TakeIn(w.ledger, w.flights[f], w.events))
      case Reply(reply, now) =>
        var (db, link) := Answered(w.db, w.link, w.waiting.value.batch, w.waiting.value.rows, reply, now);
        With(w, db).(link := link, waiting := None)
      case Crash => w.(link := STARTED, waiting := None)
  }

  function ActAll(sv: Service, actions: seq<Action>): World {
    if actions == [] then FIRST else Act(sv, ActAll(sv, actions[..|actions| - 1]), actions[|actions| - 1])
  }

  // ------------------------------------------------------------------
  // What holds of every run
  // ------------------------------------------------------------------

  /** A row the service accepts: of a type it takes and within its limits. */
  predicate Eligible(sv: Service, w: World, s: nat) {
    s in w.events && w.events[s].kind in sv.types && Allowed(w.events[s], sv.limits)
  }

  /** What has arrived is all eligible rows up to some point, except dropped ones. */
  ghost predicate DownwardClosed(sv: Service, w: World) {
    forall s: nat, t: nat :: t in w.ledger && Eligible(sv, w, s) && s < t ==> s in w.ledger || s in w.dropped
  }

  /** First arrivals are in spool order; only a row dropped after it was read can come late. */
  ghost predicate InOrder(w: World) {
    forall i, j :: 0 <= i < j < |w.ledger| ==> w.ledger[i] < w.ledger[j] || w.ledger[j] in w.dropped
  }

  ghost predicate EachOnce(w: World) {
    && (forall i :: 0 <= i < |w.ledger| ==> w.ledger[i] in w.events)
    && (forall i, j :: 0 <= i < j < |w.ledger| ==> w.events[w.ledger[i]].id != w.events[w.ledger[j]].id)
  }

  /** Every row ever stored is pending, acknowledged, dropped, or pruned after one of the two. */
  ghost predicate Accounted(w: World) {
    && (forall s :: s in w.acked ==> s in w.ledger)
    && (forall s :: s in w.events <==> 1 <= s <= w.db.lastRow)
    && (forall s :: s in w.acked + w.dropped ==> s in w.events)
    && (forall s :: s in w.events ==> AccountedRow(w, s))
  }

  predicate AccountedRow(w: World, s: nat) {
    match LifeOf(w.db, s)
    case NotYet => false
    case In(Pending) => s !in w.acked && s !in w.dropped
    case In(Acked) => s in w.acked && s !in w.dropped
    case In(Dropped(_)) => s in w.dropped && s !in w.acked
    case Gone => s in w.acked <==> s !in w.dropped
  }

  ghost predicate FlightOk(sv: Service, w: World, b: seq<nat>) {
    && (forall i, j :: 0 <= i < j < |b| ==> b[i] < b[j])
    && (forall s :: s in b ==> Eligible(sv, w, s))
    && (forall s: nat, t: nat :: t in b && Eligible(sv, w, s) && s < t ==> s in b || s in w.ledger || s in w.dropped)
  }

  /** What may still arrive: the requests that left, and the one read and about to leave. */
  function Underway(w: World): seq<seq<nat>> {
    w.flights + if w.waiting.Some? && !w.posted then [w.waiting.value.batch] else []
  }

  ghost predicate FlightsOk(sv: Service, w: World) {
    forall b :: b in Underway(w) ==> FlightOk(sv, w, b)
  }

  ghost predicate RequestOk(w: World, r: Request) {
    forall s :: s in r.batch ==> s in r.rows && s in w.events && r.rows[s].event == w.events[s]
  }

  ghost predicate RowsKnown(w: World) {
    && Numbered(w.db) && UniqueIds(w.events)
    && forall s :: s in w.db.rows ==> s in w.events && w.events[s] == w.db.rows[s].event
  }

  ghost predicate Inv(sv: Service, w: World) {
    && RowsKnown(w) && Accounted(w) && EachOnce(w) && DownwardClosed(sv, w) && InOrder(w)
    && FlightsOk(sv, w)
    && (w.link.types.Some? ==> w.link.types == Some(sv.types) && w.link.limits == sv.limits)
    && (w.waiting.Some? ==> RequestOk(w, w.waiting.value))
  }

  predicate Turns(a: Life, b: Life) {
    a == b || (a.NotYet? && b == In(Pending)) || (a == In(Pending) && Closed(b)) || (Closed(a) && b.Gone?)
  }

  /** A new database after one operation on the old one. */
  ghost predicate Follows(w: World, db: Db) {
    && Numbered(db) && UniqueIds(Remembered(w.events, db.rows)) && w.db.lastRow <= db.lastRow
    && (forall s :: s in w.db.rows && s in db.rows ==> db.rows[s].event == w.db.rows[s].event)
    && (forall s :: s in db.rows && db.rows[s].state.Acked? ==> s in w.acked || s in w.ledger)
    && (forall s :: Turns(LifeOf(w.db, s), LifeOf(db, s)))
  }

  lemma RemembersAll(w: World, db: Db)
    requires RowsKnown(w) && Accounted(w) && Follows(w, db)
    ensures var w' := With(w, db);
            && RowsKnown(w') && (forall s :: s in w.events ==> s in w'.events && w'.events[s] == w.events[s])
            && (forall s :: s in w'.events && s !in w.events ==> s > w.db.lastRow)
            && (forall s :: s in w'.events <==> 1 <= s <= db.lastRow)
  {
    var w' := With(w, db);
    forall s | s in w.events && s in db.rows ensures db.rows[s].event == w.events[s] {
      assert Turns(LifeOf(w.db, s), LifeOf(db, s));
    }
    forall s | w.db.lastRow < s <= db.lastRow ensures s in db.rows {
      assert Turns(LifeOf(w.db, s), LifeOf(db, s));
    }
  }

  lemma StaysAccounted(w: World, db: Db)
    requires RowsKnown(w) && Accounted(w) && Follows(w, db)
    ensures Accounted(With(w, db))
  {
    RemembersAll(w, db);
    forall s | s in With(w, db).events ensures AccountedRow(With(w, db), s) {
      assert Turns(LifeOf(w.db, s), LifeOf(db, s));
      assert s in w.events ==> AccountedRow(w, s);
    }
  }

  lemma EligibleBefore(sv: Service, w: World, db: Db)
    requires RowsKnown(w) && Accounted(w) && Follows(w, db)
    ensures forall s: nat :: Eligible(sv, With(w, db), s) ==> Eligible(sv, w, s) || s > w.db.lastRow
    ensures forall s: nat :: Eligible(sv, w, s) ==> Eligible(sv, With(w, db), s)
  {
    RemembersAll(w, db);
  }

  lemma FlightKept(sv: Service, w: World, db: Db, b: seq<nat>)
    requires RowsKnown(w) && Accounted(w) && Follows(w, db) && FlightOk(sv, w, b)
    ensures FlightOk(sv, With(w, db), b)
  {
    EligibleBefore(sv, w, db);
  }

  lemma LedgerKept(sv: Service, w: World, db: Db)
    requires RowsKnown(w) && Accounted(w) && Follows(w, db)
    requires EachOnce(w) && DownwardClosed(sv, w) && InOrder(w)
    ensures EachOnce(With(w, db)) && DownwardClosed(sv, With(w, db)) && InOrder(With(w, db))
  {
    RemembersAll(w, db);
    EligibleBefore(sv, w, db);
    assert forall s :: s in w.ledger ==> s <= w.db.lastRow;
  }

  lemma WithKeeps(sv: Service, w: World, db: Db)
    requires Inv(sv, w) && Follows(w, db)
    ensures Inv(sv, With(w, db))
  {
    RemembersAll(w, db);
    StaysAccounted(w, db);
    LedgerKept(sv, w, db);
    assert Underway(With(w, db)) == Underway(w);
    forall b | b in Underway(w) ensures FlightOk(sv, With(w, db), b) {
      FlightKept(sv, w, db, b);
    }
  }

  lemma WorkFollows(sv: Service, w: World, op: Op)
    requires Inv(sv, w) && Enabled(sv, w, SpoolWork(op))
    ensures Follows(w, Do(w.db, op))
  {
    var db := Do(w.db, op);
    forall s: nat
      ensures Turns(LifeOf(w.db, s), LifeOf(db, s)) && Numbered(db)
      ensures s in w.db.rows && s in db.rows ==> db.rows[s].event == w.db.rows[s].event
    {
      Lifecycle(w.db, op, s);
    }
    LastRowGrows(w.db, op);
    forall s | s in db.rows && db.rows[s].state.Acked? ensures s in w.acked {
      Lifecycle(w.db, op, s);
      assert s in w.events ==> AccountedRow(w, s);
    }
  }

  lemma WorkKeeps(sv: Service, w: World, op: Op)
    requires Inv(sv, w) && Enabled(sv, w, SpoolWork(op))
    ensures Inv(sv, Act(sv, w, SpoolWork(op)))
  {
    WorkFollows(sv, w, op);
    WithKeeps(sv, w, Do(w.db, op));
  }

  lemma LastRowGrows(db: Db, op: Op)
    ensures db.lastRow <= Do(db, op).lastRow
  {
    if op.OpAppend? {
      StoresEach(Work(db, op.me), op.items, op.uuid);
    }
  }

  /** A row acknowledged by an honest reply has arrived. */
  lemma ReceiptedArrived(sv: Service, w: World, reply: MesForward.Reply, s: nat)
    requires Inv(sv, w) && w.waiting.Some? && reply.Answer? && reply.receipts.Some? && Honest(w, reply)
    requires AllIn(w.waiting.value.batch, w.waiting.value.rows)
    requires s in Receipted(w.waiting.value.batch, reply.receipts.value, w.waiting.value.rows)
    ensures s in w.ledger
  {
    var r := w.waiting.value;
    ReceiptedIn(r.batch, reply.receipts.value, r.rows);
    ReceiptedMeans(r.batch, reply.receipts.value, r.rows, s);
    var i :| 0 <= i < |r.batch| && r.batch[i] == s && ReceiptAt(r.batch, reply.receipts.value, r.rows, i);
    assert Known(w.ledger, w.events, w.events[s].id);
  }

  lemma SameEvents(w: World, rows: Rows)
    requires RowsKnown(w) && (forall s :: s in rows ==> s in w.db.rows && rows[s].event == w.db.rows[s].event)
    ensures Remembered(w.events, rows) == w.events
  {
  }

  lemma AckFollows(sv: Service, w: World, done: set<nat>, now: int)
    requires Inv(sv, w) && forall s :: s in done ==> s in w.ledger
    ensures Follows(w, MarkAcked(w.db, done, now))
  {
    var db := MarkAcked(w.db, done, now);
    forall s | s in db.rows && db.rows[s].state.Acked? ensures s in w.acked || s in w.ledger {
      assert AccountedRow(w, s);
    }
    SameEvents(w, db.rows);
  }

  lemma NothingFollows(sv: Service, w: World)
    requires Inv(sv, w)
    ensures Follows(w, w.db)
  {
    AckFollows(sv, w, {}, 0);
    assert MarkAcked(w.db, {}, 0).rows == w.db.rows;
  }

  lemma ReplyFollows(sv: Service, w: World, reply: MesForward.Reply, now: int)
    requires Inv(sv, w) && Enabled(sv, w, Reply(reply, now))
    ensures Follows(w, Answered(w.db, w.link, w.waiting.value.batch, w.waiting.value.rows, reply, now).0)
  {
    var r := w.waiting.value;
    AnsweredDb(w.db, w.link, r.batch, r.rows, reply, now);
    NothingFollows(sv, w);
    if reply.Answer? && reply.receipts.Some? {
      var done := ToSet(Receipted(r.batch, reply.receipts.value, r.rows));
      forall s | s in done ensures s in w.ledger {
        ReceiptedArrived(sv, w, reply, s);
      }
      AckFollows(sv, w, done, now);
    }
  }

  /** Only the forwarder's memory, the request it is at and the requests that left change. */
  lemma MemoryKeeps(sv: Service, w: World, w': World)
    requires Inv(sv, w) && w' == w.(link := w'.link, waiting := w'.waiting, posted := w'.posted, flights := w'.flights)
    requires w'.link.types.Some? ==> w'.link.types == Some(sv.types) && w'.link.limits == sv.limits
    requires w'.waiting.Some? ==> RequestOk(w, w'.waiting.value)
    requires forall b :: b in Underway(w') ==> FlightOk(sv, w, b)
    ensures Inv(sv, w')
  {
    assert forall s: nat :: Eligible(sv, w', s) == Eligible(sv, w, s);
    forall b | b in Underway(w') ensures FlightOk(sv, w', b) {
      assert FlightOk(sv, w, b);
    }
    assert forall s :: s in w.events ==> AccountedRow(w, s) && AccountedRow(w', s);
  }

  lemma ReplyKeeps(sv: Service, w: World, reply: MesForward.Reply, now: int)
    requires Inv(sv, w) && Enabled(sv, w, Reply(reply, now))
    ensures Inv(sv, Act(sv, w, Reply(reply, now)))
  {
    var r := w.waiting.value;
    var (db, link) := Answered(w.db, w.link, r.batch, r.rows, reply, now);
    AnsweredLink(w.db, w.link, r.batch, r.rows, reply, now);
    ReplyFollows(sv, w, reply, now);
    WithKeeps(sv, w, db);
    MemoryKeeps(sv, With(w, db), With(w, db).(link := link, waiting := None));
  }

  lemma BatchFlies(sv: Service, w: World)
    requires Inv(sv, w) && Enabled(sv, w, Read)
    ensures FlightOk(sv, w, Batch(w.db, w.link)) && RequestOk(w, Request(Batch(w.db, w.link), w.db.rows))
  {
    var b := Batch(w.db, w.link);
    BatchMeans(w.db, w.link);
    forall s: nat, t: nat | t in b && Eligible(sv, w, s) && s < t ensures s in b || s in w.ledger || s in w.dropped {
      assert AccountedRow(w, s);
      if LifeOf(w.db, s) == In(Pending) {
        assert Sendable(w.db, w.link, s);
      }
    }
    assert forall s :: s in b ==> Sendable(w.db, w.link, s) && Eligible(sv, w, s);
  }

  lemma ReadKeeps(sv: Service, w: World)
    requires Inv(sv, w) && Enabled(sv, w, Read)
    ensures Inv(sv, Act(sv, w, Read))
  {
    BatchFlies(sv, w);
    MemoryKeeps(sv, w, Act(sv, w, Read));
  }

  lemma PostKeeps(sv: Service, w: World)
    requires Inv(sv, w) && Enabled(sv, w, Post)
    ensures Inv(sv, Act(sv, w, Post)) && Underway(Act(sv, w, Post)) == Underway(w)
  {
    MemoryKeeps(sv, w, Act(sv, w, Post));
  }

  // ------------------------------------------------------------------
  // Arrivals
  // ------------------------------------------------------------------

  lemma {:induction false} TakeInGrows(ledger: seq<nat>, batch: seq<nat>, events: map<nat, Event>)
    ensures ledger <= TakeIn(ledger, batch, events)
  {
    if batch != [] {
      TakeInGrows(ledger, batch[..|batch| - 1], events);
    }
  }

  lemma FlightStays(sv: Service, w: World, ledger: seq<nat>, b: seq<nat>)
    requires FlightOk(sv, w, b) && forall s :: s in w.ledger ==> s in ledger
    ensures FlightOk(sv, w.(ledger := ledger), b)
  {
    var w' := w.(ledger := ledger);
    assert forall s: nat :: Eligible(sv, w', s) == Eligible(sv, w, s);
  }

  /** The ledger keeps its order and leaves no eligible row behind once the first `n` rows of a request are in. */
  ghost predicate TakenIn(sv: Service, w: World, b: seq<nat>, n: nat)
    requires n <= |b|
  {
    var w' := w.(ledger := TakeIn(w.ledger, b[..n], w.events));
    && EachOnce(w') && DownwardClosed(sv, w') && InOrder(w')
    && (forall i :: 0 <= i < n ==> b[i] in w'.ledger)
  }

  lemma TakeInStep(ledger: seq<nat>, b: seq<nat>, events: map<nat, Event>, n: nat)
    requires n < |b|
    ensures TakeIn(ledger, b[..n + 1], events) == TakeRow(TakeIn(ledger, b[..n], events), b[n], events)
  {
    assert b[..n + 1][..n] == b[..n];
  }

  lemma TakeInNext(sv: Service, w: World, b: seq<nat>, n: nat)
    requires UniqueIds(w.events) && FlightOk(sv, w, b) && n < |b| && TakenIn(sv, w, b, n)
    ensures TakenIn(sv, w, b, n + 1)
  {
    TakeInGrows(w.ledger, b[..n], w.events);
    TakeInStep(w.ledger, b, w.events, n);
    FlightStays(sv, w, TakeIn(w.ledger, b[..n], w.events), b);
    TakeRowKeeps(sv, w.(ledger := TakeIn(w.ledger, b[..n], w.events)), b, n);
  }

  /** Taking in a request row by row keeps the order and leaves no eligible row behind. */
  lemma {:induction false} TakeInKeeps(sv: Service, w: World, b: seq<nat>, n: nat)
    requires Inv(sv, w) && FlightOk(sv, w, b) && n <= |b|
    ensures TakenIn(sv, w, b, n)
    decreases n
  {
    if n == 0 {
      assert b[..0] == [];
    } else {
      TakeInKeeps(sv, w, b, n - 1);
      TakeInNext(sv, w, b, n - 1);
      assert TakenIn(sv, w, b, n);
    }
  }

  lemma TakeRowKeeps(sv: Service, w: World, b: seq<nat>, k: nat)
    requires UniqueIds(w.events) && EachOnce(w) && DownwardClosed(sv, w) && InOrder(w)
    requires FlightOk(sv, w, b) && k < |b| && forall i :: 0 <= i < k ==> b[i] in w.ledger
    ensures var w' := w.(ledger := TakeRow(w.ledger, b[k], w.events));
            && EachOnce(w') && DownwardClosed(sv, w') && InOrder(w')
            && (forall i :: 0 <= i <= k ==> b[i] in w'.ledger)
  {
    assert b[k] in b && Eligible(sv, w, b[k]);
    if Known(w.ledger, w.events, w.events[b[k]].id) {
      assert b[k] in w.ledger;
    } else {
      TakeOne(sv, w, b, k);
    }
  }

  lemma TakeOne(sv: Service, w: World, b: seq<nat>, k: nat)
    requires UniqueIds(w.events) && EachOnce(w) && DownwardClosed(sv, w) && InOrder(w)
    requires FlightOk(sv, w, b) && k < |b| && b[k] in w.events && forall i :: 0 <= i < k ==> b[i] in w.ledger
    requires !Known(w.ledger, w.events, w.events[b[k]].id)
    ensures var w' := w.(ledger := w.ledger + [b[k]]);
            && EachOnce(w') && DownwardClosed(sv, w') && InOrder(w')
            && (forall i :: 0 <= i <= k ==> b[i] in w'.ledger)
  {
    var s := b[k];
    var w' := w.(ledger := w.ledger + [s]);
    assert s in b && s !in w.ledger;
    forall i | 0 <= i < |w.ledger| ensures w.ledger[i] < s || s in w.dropped {
      assert w.ledger[i] in w.ledger && w.ledger[i] != s;
    }
    forall r: nat, t: nat | t in w'.ledger && Eligible(sv, w', r) && r < t
      ensures r in w'.ledger || r in w'.dropped
    {
      if t == s {
        assert Eligible(sv, w, r);
        if r in b {
          var i :| 0 <= i < |b| && b[i] == r;
          assert i < k;
        }
      } else {
        assert t in w.ledger && Eligible(sv, w, r);
      }
    }
  }

  /** A longer ledger leaves nothing in flight behind. */
  lemma LedgerAccounted(w: World, ledger: seq<nat>)
    requires Accounted(w) && forall s :: s in w.ledger ==> s in ledger
    ensures Accounted(w.(ledger := ledger))
  {
    assert forall s :: AccountedRow(w.(ledger := ledger), s) == AccountedRow(w, s);
  }

  lemma ArriveKeeps(sv: Service, w: World, f: nat)
    requires Inv(sv, w) && f < |w.flights|
    ensures Inv(sv, Act(sv, w, Arrive(f)))
  {
    var b := w.flights[f];
    assert b in Underway(w) && b[..|b|] == b;
    TakeInKeeps(sv, w, b, |b|);
    TakeInGrows(w.ledger, b, w.events);
    LedgerGrows(sv, w, TakeIn(w.ledger, b, w.events));
  }

  lemma LedgerGrows(sv: Service, w: World, ledger: seq<nat>)
    requires Inv(sv, w) && w.ledger <= ledger
    requires var w' := w.(ledger := ledger); EachOnce(w') && DownwardClosed(sv, w') && InOrder(w')
    ensures Inv(sv, w.(ledger := ledger))
  {
    assert forall s :: s in w.ledger ==> s in ledger;
    LedgerAccounted(w, ledger);
    forall g | g in Underway(w) ensures FlightOk(sv, w.(ledger := ledger), g) {
      FlightStays(sv, w, ledger, g);
    }
  }

  lemma AskKeeps(sv: Service, w: World, answer: MesForward.Reply, readable: bool)
    requires Inv(sv, w) && Enabled(sv, w, Ask(answer, readable))
    ensures Inv(sv, Act(sv, w, Ask(answer, readable)))
  {
    CapabilitiesMean(w.link, answer, if readable then Some(OfferOf(sv)) else None);
    MemoryKeeps(sv, w, Act(sv, w, Ask(answer, readable)));
  }

  lemma StepKeeps(sv: Service, w: World, a: Action)
    requires Inv(sv, w)
    ensures Inv(sv, Act(sv, w, a))
  {
    if Enabled(sv, w, a) {
      match a
      case SpoolWork(op) => WorkKeeps(sv, w, op);
      case Read => ReadKeeps(sv, w);
      case Post => PostKeeps(sv, w);
      case Arrive(f) => ArriveKeeps(sv, w, f);
      case Reply(reply, now) => ReplyKeeps(sv, w, reply, now);
      case Ask(answer, readable) => AskKeeps(sv, w, answer, readable);
      case _ => MemoryKeeps(sv, w, Act(sv, w, a));
    }
  }

  lemma FirstInv(sv: Service)
    ensures Inv(sv, FIRST)
  {
  }

  lemma {:induction false} RunKeeps(sv: Service, actions: seq<Action>)
    ensures Inv(sv, ActAll(sv, actions))
  {
    if actions == [] {
      FirstInv(sv);
    } else {
      RunKeeps(sv, actions[..|actions| - 1]);
      StepKeeps(sv, ActAll(sv, actions[..|actions| - 1]), actions[|actions| - 1]);
    }
  }

  /** Whatever is lost, resent, delayed or crashes: every acknowledged row's event is in the service's ledger, which
      holds each event once; rows arrive in spool order without leaving an eligible row behind; and every row ever
      stored is pending, acknowledged, dropped, or pruned after exactly one of the two. */
  lemma DeliversInOrder(sv: Service, actions: seq<Action>)
    ensures var w := ActAll(sv, actions);
            Accounted(w) && EachOnce(w) && DownwardClosed(sv, w) && InOrder(w)
  {
    RunKeeps(sv, actions);
  }
}
