/** From MillWright's outbox to the service's ledger: the copying reader and the forwarder at work on one spool, each
    with all its crashes, losses and repetitions (agent_mes_link.py, agent_mes_spool.py, agent_mes_forward.py). */
module EndToEnd {
  import opened Wrappers
  import opened MesSpool
  import opened MesForward
  import D = Delivery
  import OC = OutboxCopy

  /** Both machines share the database; `places` tells, for each epoch, the rows its stored events were put in. */
  datatype World = World(d: D.World, o: OC.World, places: seq<seq<nat>>)

  const FIRST := World(D.FIRST, OC.FIRST, [[]])

  datatype Action = Outbox(a: OC.Action) | Deliver(b: D.Action)

  predicate Enabled(sv: D.Service, w: World, a: Action)
    requires OC.Shaped(w.o)
  {
    match a
    case Outbox(a) =>
      && !a.SpoolWork? && OC.Enabled(w.o, a)
      && D.UniqueIds(D.Remembered(w.d.events, OC.Act(false, w.o, a).db.rows))
    case Deliver(b) => D.Enabled(sv, w.d, b) && (b.SpoolWork? ==> OC.NoCursor(b.op))
  }

  /** The rows after `from`. */
  function Next(from: nat, n: nat): seq<nat> { seq(n, i requires 0 <= i < n => from + 1 + i) }

  function Placed(w: World, a: OC.Action, o: OC.World): seq<seq<nat>>
    requires OC.Shaped(w.o) && OC.Enabled(w.o, a) && |w.places| == |w.o.stored| <= |o.stored|
  {
    match a
    case FreshEpoch => w.places + [[]]
    case Commit(_, _, _) =>
      var e := w.o.phase.epoch;
      var before, after := |w.o.stored[e]|, |o.stored[e]|;
      if after < before then w.places else w.places[e := w.places[e] + Next(w.o.db.lastRow, after - before)]
    case _ => w.places
  }

  function Act(sv: D.Service, w: World, a: Action): World
    requires OC.Shaped(w.o) && |w.places| == |w.o.stored|
  {
    if !Enabled(sv, w, a) then w else
      match a
      case Outbox(a) =>
        var o := OC.Act(false, w.o, a);
        World(D.With(w.d, o.db), o, Placed(w, a, o))
      case Deliver(b) =>
        var d := D.Act(sv, w.d, b);
        World(d, w.o.(db := d.db), w.places)
  }

  // ------------------------------------------------------------------
  // What holds of every run
  // ------------------------------------------------------------------

  /** The events are in these rows, in order. */
  ghost predicate PlacesOk(events: map<nat, Event>, stored: seq<Event>, places: seq<nat>) {
    && |places| == |stored| && Rising(places)
    && forall k :: 0 <= k < |places| ==> places[k] in events && events[places[k]] == stored[k]
  }

  ghost predicate Located(w: World)
    requires OC.Shaped(w.o) && |w.places| == |w.o.stored|
  {
    forall e :: 0 <= e < |w.places| ==> PlacesOk(w.d.events, w.o.stored[e], w.places[e])
  }

  ghost predicate Inv(sv: D.Service, w: World) {
    && w.d.db == w.o.db && D.Inv(sv, w.d)
    && OC.Shaped(w.o) && OC.Inv(w.o) && |w.places| == |w.o.stored| && Located(w)
  }

  /** The events are in the rows after `from`. */
  ghost predicate InRows(all: map<nat, Event>, from: nat, events: seq<Event>) {
    forall i {:trigger events[i]} :: 0 <= i < |events| ==> from + 1 + i in all && all[from + 1 + i] == events[i]
  }

  predicate Extends(events: map<nat, Event>, more: map<nat, Event>) {
    forall s :: s in events ==> s in more && more[s] == events[s]
  }

  lemma PlacesStay(events: map<nat, Event>, more: map<nat, Event>, stored: seq<Event>, places: seq<nat>)
    requires Extends(events, more) && PlacesOk(events, stored, places)
    ensures PlacesOk(more, stored, places)
  {
    assert forall k :: 0 <= k < |places| ==> places[k] in events;
  }

  lemma LocatedStays(w: World, w': World)
    requires OC.Shaped(w.o) && OC.Shaped(w'.o) && |w.places| == |w.o.stored|
    requires w'.places == w.places && w'.o.stored == w.o.stored && Extends(w.d.events, w'.d.events) && Located(w)
    ensures Located(w')
  {
    forall e | 0 <= e < |w'.places| ensures PlacesOk(w'.d.events, w'.o.stored[e], w'.places[e]) {
      PlacesStay(w.d.events, w'.d.events, w.o.stored[e], w.places[e]);
    }
  }

  // ------------------------------------------------------------------
  // The forwarder's steps
  // ------------------------------------------------------------------

  lemma FollowsExtends(sv: D.Service, w: D.World, db: Db)
    requires D.Inv(sv, w) && D.Follows(w, db)
    ensures Extends(w.events, D.With(w, db).events)
  {
    D.RemembersAll(w, db);
  }

  lemma DeliverKeeps(sv: D.Service, w: World, b: D.Action)
    requires Inv(sv, w) && Enabled(sv, w, Deliver(b))
    ensures Inv(sv, Act(sv, w, Deliver(b)))
  {
    var w' := Act(sv, w, Deliver(b));
    D.StepKeeps(sv, w.d, b);
    match b
    case SpoolWork(op) =>
      OC.SpoolWorkKeeps(w.o, op);
      D.WorkFollows(sv, w.d, op);
      FollowsExtends(sv, w.d, Do(w.d.db, op));
      LocatedStays(w, w');
    case Reply(reply, now) =>
      var chosen := RepliedRows(sv, w.d, reply, now);
      AckKeepsOutbox(w.o, chosen, now);
      LocatedStays(w, w');
    case _ => LocatedStays(w, w');
  }

  lemma AckKeepsOutbox(o: OC.World, chosen: set<nat>, now: int)
    requires OC.Shaped(o) && OC.Inv(o)
    ensures var o' := o.(db := MarkAcked(o.db, chosen, now)); OC.Shaped(o') && OC.Inv(o')
  {
    OC.SpoolWorkKeeps(o, OpAcked(chosen, now));
  }

  /** What a reply does to the database: it acknowledges some rows, maybe none. */
  lemma RepliedRows(sv: D.Service, d: D.World, reply: MesForward.Reply, now: int) returns (chosen: set<nat>)
    requires D.Inv(sv, d) && D.Enabled(sv, d, D.Reply(reply, now))
    ensures var d' := D.Act(sv, d, D.Reply(reply, now));
            (d'.db == d.db || d'.db == MarkAcked(d.db, chosen, now)) && Extends(d.events, d'.events)
  {
    var r := d.waiting.value;
    AnsweredDb(d.db, d.link, r.batch, r.rows, reply, now);
    D.ReplyFollows(sv, d, reply, now);
    FollowsExtends(sv, d, Answered(d.db, d.link, r.batch, r.rows, reply, now).0);
    chosen := if reply.Answer? && reply.receipts.Some? then ToSet(Receipted(r.batch, reply.receipts.value, r.rows))
              else {};
  }

  // ------------------------------------------------------------------
  // The reader's steps, and MillWright's
  // ------------------------------------------------------------------

  /** A statement that leaves the database as it is. */
  lemma QuietKeeps(sv: D.Service, w: World, a: OC.Action)
    requires Inv(sv, w) && Enabled(sv, w, Outbox(a))
    requires OC.Act(false, w.o, a).db == w.o.db
    requires OC.Act(false, w.o, a).stored == w.o.stored || a.FreshEpoch?
    ensures Inv(sv, Act(sv, w, Outbox(a)))
  {
    var w' := Act(sv, w, Outbox(a));
    OC.StepKeeps(w.o, a);
    OC.ActShaped(false, w.o, a);
    D.NothingFollows(sv, w.d);
    D.WithKeeps(sv, w.d, w.d.db);
    FollowsExtends(sv, w.d, w.d.db);
    forall e | 0 <= e < |w'.places| ensures PlacesOk(w'.d.events, w'.o.stored[e], w'.places[e]) {
      if e < |w.places| {
        PlacesStay(w.d.events, w'.d.events, w.o.stored[e], w.places[e]);
        assert w'.places[e] == w.places[e] && w'.o.stored[e] == w.o.stored[e];
      }
    }
  }

  function CommitOp(o: OC.World, accepted: seq<bool>, uuid: nat): Op
    requires OC.Shaped(o) && o.phase.Fetched? && |accepted| == |o.phase.events| && o.phase.numbers != []
  {
    OpAppend(OC.Meta(o.db), OC.AsItems(o.phase.events, accepted),
             Some(Cursor(OC.SOURCE, o.phase.epoch, OC.Last(o.phase.numbers))), uuid)
  }

  function Events(db: Db): map<nat, Event> { map s | s in db.rows :: db.rows[s].event }

  /** The commit of a batch puts it in the next rows. */
  lemma CommitRows(o: OC.World, accepted: seq<bool>, full: bool, uuid: nat)
    requires OC.Shaped(o) && OC.Inv(o) && OC.Enabled(o, OC.Commit(accepted, full, uuid))
    requires OC.Takes(o, accepted, full, uuid)
    ensures var o' := OC.Act(false, o, OC.Commit(accepted, full, uuid)); var e, events := o.phase.epoch, o.phase.events;
            && o'.db == Do(o.db, CommitOp(o, accepted, uuid)) && o'.stored == o.stored[e := o.stored[e] + events]
            && InRows(Events(o'.db), o.db.lastRow, events)
  {
    var e, events := o.phase.epoch, o.phase.events;
    var cursor := Cursor(OC.SOURCE, e, OC.Last(o.phase.numbers));
    var o' := OC.Act(false, o, OC.Commit(accepted, full, uuid));
    OC.AddedEvents(o.db, OC.Meta(o.db), events, accepted, cursor, uuid);
    forall i | 0 <= i < |events|
      ensures o.db.lastRow + 1 + i in Events(o'.db) && Events(o'.db)[o.db.lastRow + 1 + i] == events[i]
    {
      assert events[i] == OC.Added(o'.db, o.db.lastRow, |events|)[i];
    }
  }

  lemma CommitShape(o: OC.World, accepted: seq<bool>, full: bool, uuid: nat)
    requires OC.Shaped(o) && OC.Inv(o) && OC.Enabled(o, OC.Commit(accepted, full, uuid))
    requires OC.Takes(o, accepted, full, uuid)
    ensures var e, events := o.phase.epoch, o.phase.events;
            OC.Act(false, o, OC.Commit(accepted, full, uuid)).stored == o.stored[e := o.stored[e] + events]
  {
    CommitRows(o, accepted, full, uuid);
  }

  lemma CommitDelivery(sv: D.Service, w: World, accepted: seq<bool>, full: bool, uuid: nat)
    requires Inv(sv, w) && Enabled(sv, w, Outbox(OC.Commit(accepted, full, uuid)))
    requires OC.Takes(w.o, accepted, full, uuid)
    ensures var d' := D.With(w.d, OC.Act(false, w.o, OC.Commit(accepted, full, uuid)).db);
            && D.Inv(sv, d') && Extends(w.d.events, d'.events)
            && InRows(d'.events, w.d.db.lastRow, w.o.phase.events)
  {
    CommitRows(w.o, accepted, full, uuid);
    OpKeeps(sv, w.d, CommitOp(w.o, accepted, uuid));
  }

  lemma OpKeeps(sv: D.Service, d: D.World, op: Op)
    requires D.Inv(sv, d) && D.Enabled(sv, d, D.SpoolWork(op))
    ensures D.Inv(sv, D.With(d, Do(d.db, op))) && Extends(d.events, D.With(d, Do(d.db, op)).events)
  {
    D.WorkKeeps(sv, d, op);
    D.WorkFollows(sv, d, op);
    FollowsExtends(sv, d, Do(d.db, op));
  }

  lemma CommitKept(sv: D.Service, w: World, accepted: seq<bool>, full: bool, uuid: nat)
    requires Inv(sv, w) && Enabled(sv, w, Outbox(OC.Commit(accepted, full, uuid)))
    requires OC.Takes(w.o, accepted, full, uuid)
    ensures Inv(sv, Act(sv, w, Outbox(OC.Commit(accepted, full, uuid))))
  {
    OC.StepKeeps(w.o, OC.Commit(accepted, full, uuid));
    CommitDelivery(sv, w, accepted, full, uuid);
    CommitGrows(sv, w, accepted, full, uuid);
    GrownLocated(sv, w, Act(sv, w, Outbox(OC.Commit(accepted, full, uuid))), w.o.phase.epoch, w.o.phase.events);
  }

  /** `events` have been added to the spool, and to what is stored of epoch e. */
  ghost predicate Grown(w: World, w': World, e: nat, events: seq<Event>)
    requires OC.Shaped(w.o) && |w.places| == |w.o.stored|
  {
    && OC.Shaped(w'.o) && e < |w.places| && w'.o.stored == w.o.stored[e := w.o.stored[e] + events]
    && w'.places == w.places[e := w.places[e] + Next(w.d.db.lastRow, |events|)]
    && Extends(w.d.events, w'.d.events) && InRows(w'.d.events, w.d.db.lastRow, events)
  }

  lemma CommitPlaced(w: World, a: OC.Action)
    requires OC.Shaped(w.o) && OC.Inv(w.o) && OC.Enabled(w.o, a) && a.Commit? && |w.places| == |w.o.stored|
    requires OC.Takes(w.o, a.accepted, a.full, a.uuid)
    ensures var e, n := w.o.phase.epoch, |w.o.phase.events|; var o := OC.Act(false, w.o, a);
            |o.stored| == |w.places| && Placed(w, a, o) == w.places[e := w.places[e] + Next(w.o.db.lastRow, n)]
  {
    CommitShape(w.o, a.accepted, a.full, a.uuid);
  }

  lemma CommitGrows(sv: D.Service, w: World, accepted: seq<bool>, full: bool, uuid: nat)
    requires Inv(sv, w) && Enabled(sv, w, Outbox(OC.Commit(accepted, full, uuid)))
    requires OC.Takes(w.o, accepted, full, uuid)
    ensures Grown(w, Act(sv, w, Outbox(OC.Commit(accepted, full, uuid))), w.o.phase.epoch, w.o.phase.events)
  {
    OC.ActShaped(false, w.o, OC.Commit(accepted, full, uuid));
    CommitPlaced(w, OC.Commit(accepted, full, uuid));
    CommitShape(w.o, accepted, full, uuid);
    CommitDelivery(sv, w, accepted, full, uuid);
  }

  lemma GrownLocated(sv: D.Service, w: World, w': World, e: nat, events: seq<Event>)
    requires Inv(sv, w) && Grown(w, w', e, events)
    ensures |w'.places| == |w'.o.stored| && Located(w')
  {
    MorePlaces(sv, w.d, w'.d, w.o.stored[e], w.places[e], events);
    OtherPlaces(w, w', e);
  }

  /** The places of all epochs but one stay as they are. */
  lemma OtherPlaces(w: World, w': World, e: nat)
    requires OC.Shaped(w.o) && |w.places| == |w.o.stored| && Located(w)
    requires OC.Shaped(w'.o) && |w'.places| == |w'.o.stored| == |w.places| && e < |w.places|
    requires w'.places == w.places[e := w'.places[e]] && w'.o.stored == w.o.stored[e := w'.o.stored[e]]
    requires Extends(w.d.events, w'.d.events) && PlacesOk(w'.d.events, w'.o.stored[e], w'.places[e])
    ensures Located(w')
  {
    forall d | 0 <= d < |w'.places| ensures PlacesOk(w'.d.events, w'.o.stored[d], w'.places[d]) {
      if d != e {
        PlacesStay(w.d.events, w'.d.events, w.o.stored[d], w.places[d]);
      }
    }
  }

  lemma MorePlaces(sv: D.Service, d: D.World, d': D.World, stored: seq<Event>, places: seq<nat>, events: seq<Event>)
    requires D.Inv(sv, d) && Extends(d.events, d'.events) && PlacesOk(d.events, stored, places)
    requires InRows(d'.events, d.db.lastRow, events)
    ensures PlacesOk(d'.events, stored + events, places + Next(d.db.lastRow, |events|))
  {
    var more, n := places + Next(d.db.lastRow, |events|), |places|;
    forall k | 0 <= k < |more| ensures more[k] in d'.events && d'.events[more[k]] == (stored + events)[k] {
      if k < n {
        assert more[k] == places[k] && places[k] in d.events;
      } else {
        var i := k - n;
        assert more[k] == d.db.lastRow + 1 + i && (stored + events)[k] == events[i];
      }
    }
    RisesAfter(places, d.db.lastRow, |events|);
  }

  lemma RisesAfter(places: seq<nat>, last: nat, n: nat)
    requires Rising(places) && forall k :: 0 <= k < |places| ==> places[k] <= last
    ensures Rising(places + Next(last, n))
  {
  }

  lemma CommitKeeps(sv: D.Service, w: World, accepted: seq<bool>, full: bool, uuid: nat)
    requires Inv(sv, w) && Enabled(sv, w, Outbox(OC.Commit(accepted, full, uuid)))
    ensures Inv(sv, Act(sv, w, Outbox(OC.Commit(accepted, full, uuid))))
  {
    if OC.Takes(w.o, accepted, full, uuid) {
      CommitKept(sv, w, accepted, full, uuid);
    } else {
      QuietKeeps(sv, w, OC.Commit(accepted, full, uuid));
    }
  }

  lemma StepKeeps(sv: D.Service, w: World, a: Action)
    requires Inv(sv, w)
    ensures Inv(sv, Act(sv, w, a))
  {
    if Enabled(sv, w, a) {
      match a
      case Deliver(b) => DeliverKeeps(sv, w, b);
      case Outbox(a) =>
        match a
        case Commit(accepted, full, uuid) => CommitKeeps(sv, w, accepted, full, uuid);
        case _ => QuietKeeps(sv, w, a);
    }
  }

  function Run(sv: D.Service, actions: seq<Action>): (w: World)
    ensures OC.Shaped(w.o) && |w.places| == |w.o.stored|
  {
    if actions == [] then FIRST else
      ActShaped(sv, Run(sv, actions[..|actions| - 1]), actions[|actions| - 1]);
      Act(sv, Run(sv, actions[..|actions| - 1]), actions[|actions| - 1])
  }

  lemma ActShaped(sv: D.Service, w: World, a: Action)
    requires OC.Shaped(w.o) && |w.places| == |w.o.stored|
    ensures var w' := Act(sv, w, a); OC.Shaped(w'.o) && |w'.places| == |w'.o.stored|
  {
    if a.Outbox? && Enabled(sv, w, a) {
      OC.ActShaped(false, w.o, a.a);
    }
  }

  lemma {:induction false} RunKeeps(sv: D.Service, actions: seq<Action>)
    ensures Inv(sv, Run(sv, actions))
  {
    if actions == [] {
      D.FirstInv(sv);
      OC.FirstInv();
      assert PlacesOk(map[], [], []);
    } else {
      RunKeeps(sv, actions[..|actions| - 1]);
      StepKeeps(sv, Run(sv, actions[..|actions| - 1]), actions[|actions| - 1]);
    }
  }

  // ------------------------------------------------------------------
  // MillWright's events at the service
  // ------------------------------------------------------------------

  /** Each event copied is the one at that place of the outbox. */
  ghost predicate CopiedInOrder(w: World, e: nat)
    requires OC.Shaped(w.o) && |w.places| == |w.o.stored| && e < |w.places|
  {
    var places, history := w.places[e], w.o.boxes[e].history;
    && |places| <= |history|
    && forall k :: 0 <= k < |places| ==> places[k] in w.d.events && w.d.events[places[k]] == history[k]
  }

  /** In the ledger at i and at j, i before j, are two events of the outbox: so they were there, unless the later one
      was dropped. */
  ghost predicate ArrivedInOrder(w: World, places: seq<nat>) {
    forall i, j, k, m ::
      (0 <= i < j < |w.d.ledger| && 0 <= k < |places| && 0 <= m < |places|
       && w.d.ledger[i] == places[k] && w.d.ledger[j] == places[m] && w.d.ledger[j] !in w.d.dropped) ==> k < m
  }

  ghost predicate NoneLeftBehind(sv: D.Service, w: World, places: seq<nat>) {
    forall k, m :: 0 <= k < m < |places| && places[m] in w.d.ledger && D.Eligible(sv, w.d, places[k]) ==>
      places[k] in w.d.ledger || places[k] in w.d.dropped
  }

  ghost predicate OnceEach(w: World) {
    forall i, j :: 0 <= i < j < |w.d.ledger| ==> w.d.ledger[i] != w.d.ledger[j]
  }

  /** For every run of both machines together, and every epoch of the outbox: MillWright's events reach the service's
      ledger in outbox order and once each, none that the service takes is left behind one that has arrived, and every
      acknowledged one is there -- but for the events the operator drops. */
  lemma OutboxReachesLedger(sv: D.Service, actions: seq<Action>, e: nat)
    requires e < |Run(sv, actions).places|
    ensures var w := Run(sv, actions); var places := w.places[e];
            && CopiedInOrder(w, e) && ArrivedInOrder(w, places) && NoneLeftBehind(sv, w, places) && OnceEach(w)
            && forall k :: 0 <= k < |places| && places[k] in w.d.acked ==> places[k] in w.d.ledger
  {
    RunKeeps(sv, actions);
    var w := Run(sv, actions);
    assert OC.Exact(w.o, e) && PlacesOk(w.d.events, w.o.stored[e], w.places[e]);
    RisingOrder(w, w.places[e]);
  }

  lemma RisingOrder(w: World, places: seq<nat>)
    requires Rising(places) && D.InOrder(w.d)
    ensures ArrivedInOrder(w, places)
  {
    forall i, j, k, m | 0 <= i < j < |w.d.ledger| && 0 <= k < |places| && 0 <= m < |places|
      && w.d.ledger[i] == places[k] && w.d.ledger[j] == places[m] && w.d.ledger[j] !in w.d.dropped
      ensures k < m
    {
      assert places[k] < places[m];
    }
  }
}
