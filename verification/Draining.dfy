/** Draining the spool: which rows a site service ever gets, whatever final receipts it gives, and which rows stay
    behind those over its limits (agent_mes_forward.py, `send_once` round after round). */
module Draining {
  import opened Wrappers
  import opened MesSpool
  import opened MesForward

  function WaitingSet(db: Db, types: Types): set<nat> {
    set s | s in db.rows && Waiting(db.rows[s], types)
  }

  predicate NoneOversized(db: Db, link: Link) {
    forall s :: s in db.rows && Waiting(db.rows[s], link.types) ==> Allowed(db.rows[s].event, link.limits)
  }

  /** The waiting rows over the limits that lie before row s: they stay, and take up places in every batch. */
  function Ahead(db: Db, link: Link, s: nat): set<nat> {
    set r | r in db.rows && r < s && Waiting(db.rows[r], link.types) && !Allowed(db.rows[r].event, link.limits)
  }

  // ------------------------------------------------------------------
  // One round
  // ------------------------------------------------------------------

  /** What the service does in each round: it finds more than `most` events too large, and otherwise gives each event
      its verdict; `now` is the agent's clock in that round. */
  datatype Service = Service(most: nat -> nat, verdict: (nat, nat) -> Verdict, now: nat -> int)

  /** At least one event always gets through, and every verdict is final. */
  ghost predicate AlwaysFinal(sv: Service) {
    (forall k :: sv.most(k) >= 1) && forall k, id :: !sv.verdict(k, id).AnyOther?
  }

  function ReceiptsFor(sv: Service, k: nat, batch: seq<nat>, rows: Rows): seq<Receipt>
    requires AllIn(batch, rows)
  {
    seq(|batch|, i requires 0 <= i < |batch| =>
      Receipt(sv.verdict(k, rows[batch[i]].event.id), rows[batch[i]].event.id))
  }

  function Serve(sv: Service, k: nat, batch: seq<nat>, rows: Rows): Reply
    requires AllIn(batch, rows)
  {
    if |batch| > sv.most(k) then Answer(413, None) else Answer(200, Some(ReceiptsFor(sv, k, batch, rows)))
  }

  function Round(db: Db, link: Link, sv: Service, k: nat): (Db, Link) {
    SendOnce(db, link, Serve(sv, k, Batch(db, link), db.rows), sv.now(k))
  }

  lemma {:induction false} AllReceipted(batch: seq<nat>, receipts: seq<Receipt>, rows: Rows, n: nat)
    requires AllIn(batch, rows) && n <= |batch| && forall i :: 0 <= i < |batch| ==> ReceiptAt(batch, receipts, rows, i)
    ensures Receipted(batch[..n], receipts, rows) == batch[..n]
  {
    if n > 0 {
      AllReceipted(batch, receipts, rows, n - 1);
      ReceiptedStep(batch, receipts, rows, n - 1);
    }
  }

  lemma Served(db: Db, link: Link, b: seq<nat>, sv: Service, k: nat)
    requires AlwaysFinal(sv) && AllIn(b, db.rows) && b != []
    ensures Answered(db, link, b, db.rows, Serve(sv, k, b, db.rows), sv.now(k))
            == if |b| > sv.most(k) then (db, link.(fails := 0, cap := Halve(|b|)))
               else (MarkAcked(db, ToSet(b), sv.now(k)), GoOk(link.(fails := 0)))
  {
    if |b| <= sv.most(k) {
      var receipts := ReceiptsFor(sv, k, b, db.rows);
      assert forall i :: 0 <= i < |b| ==> ReceiptAt(b, receipts, db.rows, i);
      AllReceipted(b, receipts, db.rows, |b|);
      assert b[..|b|] == b;
    }
  }

  lemma {:induction false} RisingSize(places: seq<nat>)
    requires Rising(places)
    ensures |ToSet(places)| == |places|
  {
    if places != [] {
      var init, x := places[..|places| - 1], places[|places| - 1];
      RisingSize(init);
      assert x !in ToSet(init) && ToSet(places) == ToSet(init) + {x};
    }
  }

  lemma SubsetSize(a: set<nat>, b: set<nat>)
    requires a <= b
    ensures |a| <= |b| && (a != b ==> |a| < |b|)
  {
    assert b == a + (b - a) && |b| == |a| + |b - a|;
  }

  /** The rows fetched for a batch. */
  lemma FetchedRows(db: Db, link: Link)
    requires Numbered(db)
    ensures var all := Candidates(db, link);
            && Rising(all) && |ToSet(all)| == |all| <= Min(link.cap, link.limits.events)
            && (forall s :: s in all ==> s in db.rows && Waiting(db.rows[s], link.types))
            && (forall s: nat :: s in db.rows && Waiting(db.rows[s], link.types) && s !in all ==>
                  |all| == Min(link.cap, link.limits.events) && forall r :: r in all ==> r < s)
  {
    OldestFirst(db.rows, 1, db.lastRow, Min(link.cap, link.limits.events), link.types);
    RisingSize(Candidates(db, link));
  }

  /** Nothing is sent although s could be: the rows ahead of s fill the batch. */
  lemma Blocked(db: Db, link: Link, s: nat)
    requires Numbered(db) && Sendable(db, link, s) && Batch(db, link) == []
    ensures |Ahead(db, link, s)| >= Min(link.cap, link.limits.events)
  {
    var all := Candidates(db, link);
    FetchedRows(db, link);
    NothingToSend(db, link);
    assert ToSet(all) <= Ahead(db, link, s);
    SubsetSize(ToSet(all), Ahead(db, link, s));
  }

  /** A row is sent: the rows ahead of it leave it a place. */
  lemma SentHasPlace(db: Db, link: Link, s: nat)
    requires Numbered(db) && s in Batch(db, link)
    ensures |Ahead(db, link, s)| < Min(link.cap, link.limits.events)
  {
    var all := Candidates(db, link);
    FetchedRows(db, link);
    BatchMeans(db, link);
    FromCandidates(db, link, s);
    assert Ahead(db, link, s) <= ToSet(all) - {s};
    SubsetSize(Ahead(db, link, s), ToSet(all) - {s});
  }

  lemma FromCandidates(db: Db, link: Link, s: nat)
    requires Numbered(db) && s in Batch(db, link)
    ensures s in Candidates(db, link)
  {
    var all := Candidates(db, link);
    FetchedRows(db, link);
    FittingAll(all, db.rows, link.limits);
    LongestPrefix(Fitting(all, db.rows, link.limits), db.rows, link.limits.batchBytes);
  }

  /** A change that closes only rows within the limits leaves the rows ahead of any row as they are. */
  lemma AheadKept(db: Db, db': Db, link: Link, link': Link, s: nat)
    requires link'.types == link.types && link'.limits == link.limits && db'.rows.Keys == db.rows.Keys
    requires forall r :: r in db.rows ==>
               db'.rows[r] == db.rows[r]
               || (Allowed(db.rows[r].event, link.limits) && db'.rows[r].event == db.rows[r].event)
    ensures Ahead(db', link', s) == Ahead(db, link, s)
  {
  }

  predicate AckedAt(before: Row, after: Row, now: int) { after == before.(state := Acked, closedAt := now) }

  /** What a round that sends something does: it acknowledges the batch or lowers the cap and changes nothing. */
  lemma RoundDecreases(db: Db, link: Link, sv: Service, k: nat)
    requires Numbered(db) && Sane(link) && AlwaysFinal(sv) && Batch(db, link) != []
    ensures var (db', link') := Round(db, link, sv, k); var b := Batch(db, link);
            && Numbered(db') && Sane(link') && link'.types == link.types && link'.limits == link.limits
            && db'.rows.Keys == db.rows.Keys
            && if |b| > sv.most(k) then db' == db && link'.cap == Halve(|b|) < link.cap else
                 && link'.cap >= link.cap && WaitingSet(db', link.types) < WaitingSet(db, link.types)
                 && forall s :: s in db.rows ==>
                      if s in b then Sendable(db, link, s) && AckedAt(db.rows[s], db'.rows[s], sv.now(k))
                      else db'.rows[s] == db.rows[s]
  {
    var b := Batch(db, link);
    Served(db, link, b, sv, k);
    BatchMeans(db, link);
    SaneKept(db, link, Serve(sv, k, b, db.rows), sv.now(k));
    var (db', link') := Round(db, link, sv, k);
    if |b| <= sv.most(k) {
      assert b[0] in b && b[0] in WaitingSet(db, link.types) - WaitingSet(db', link.types);
      assert WaitingSet(db', link.types) == WaitingSet(db, link.types) - ToSet(b);
    }
  }

  // ------------------------------------------------------------------
  // Round after round, until there is nothing to send
  // ------------------------------------------------------------------

  /** From round `k` on. */
  ghost function Drained(db: Db, link: Link, sv: Service, k: nat): (Db, Link)
    requires Numbered(db) && Sane(link) && AlwaysFinal(sv)
    decreases WaitingSet(db, link.types), link.cap
  {
    if Batch(db, link) == [] then (db, link) else
      RoundDecreases(db, link, sv, k);
      var (db', link') := Round(db, link, sv, k);
      Drained(db', link', sv, k + 1)
  }

  /** A row is as it was, or it could be sent, had a place left by the rows ahead of it, and is acknowledged. */
  ghost predicate DrainedRow(db: Db, link: Link, db': Db, s: nat)
    requires s in db.rows && s in db'.rows
  {
    || db'.rows[s] == db.rows[s]
    || (Sendable(db, link, s) && |Ahead(db, link, s)| < link.limits.events
        && AckedAt(db.rows[s], db'.rows[s], db'.rows[s].closedAt))
  }

  ghost predicate DrainedTo(db: Db, link: Link, db': Db, link': Link) {
    && Numbered(db') && Sane(link') && link'.types == link.types && link'.limits == link.limits
    && db'.rows.Keys == db.rows.Keys
    && forall s :: s in db.rows ==> DrainedRow(db, link, db', s)
  }

  lemma RoundDrains(db: Db, link: Link, sv: Service, k: nat)
    requires Numbered(db) && Sane(link) && AlwaysFinal(sv) && Batch(db, link) != []
    ensures var (db', link') := Round(db, link, sv, k); DrainedTo(db, link, db', link')
  {
    RoundDecreases(db, link, sv, k);
    var (db', link') := Round(db, link, sv, k);
    forall s | s in db.rows ensures DrainedRow(db, link, db', s) {
      if s in Batch(db, link) {
        SentHasPlace(db, link, s);
      }
    }
  }

  lemma DrainedThrough(db: Db, link: Link, db1: Db, link1: Link, db': Db, link': Link)
    requires DrainedTo(db, link, db1, link1) && DrainedTo(db1, link1, db', link')
    ensures DrainedTo(db, link, db', link')
  {
    forall s | s in db.rows ensures DrainedRow(db, link, db', s) {
      assert DrainedRow(db, link, db1, s) && DrainedRow(db1, link1, db', s);
      DrainedAhead(db, link, db1, link1, s);
    }
  }

  lemma DrainedAhead(db: Db, link: Link, db': Db, link': Link, s: nat)
    requires DrainedTo(db, link, db', link')
    ensures Ahead(db', link', s) == Ahead(db, link, s)
  {
    assert forall r :: r in db.rows ==> DrainedRow(db, link, db', r);
    AheadKept(db, db', link, link', s);
  }

  /** Draining ends with nothing left to send; rows over the limits and rows they leave no place stay as they are. */
  lemma {:induction false} DrainEnds(db: Db, link: Link, sv: Service, k: nat)
    requires Numbered(db) && Sane(link) && AlwaysFinal(sv)
    ensures var (db', link') := Drained(db, link, sv, k);
            DrainedTo(db, link, db', link') && Batch(db', link') == []
    decreases WaitingSet(db, link.types), link.cap
  {
    if Batch(db, link) != [] {
      RoundDecreases(db, link, sv, k);
      RoundDrains(db, link, sv, k);
      var (db1, link1) := Round(db, link, sv, k);
      var (db', link') := Drained(db1, link1, sv, k + 1);
      DrainEnds(db1, link1, sv, k + 1);
      DrainedThrough(db, link, db1, link1, db', link');
    }
  }

  /** Whatever batch of at most `most` events it finds too large, the service leaves the cap at `low` or more. */
  ghost predicate Spares(sv: Service, most: nat, low: nat) {
    forall k :: sv.most(k) >= most || Halve(sv.most(k) + 1) >= low
  }

  lemma {:induction false} CapSpared(db: Db, link: Link, sv: Service, k: nat, low: nat)
    requires Numbered(db) && Sane(link) && AlwaysFinal(sv)
    requires low <= link.cap && Spares(sv, link.limits.events, low)
    ensures low <= Drained(db, link, sv, k).1.cap
    decreases WaitingSet(db, link.types), link.cap
  {
    if Batch(db, link) != [] {
      RoundDecreases(db, link, sv, k);
      BatchMeans(db, link);
      var (db', link') := Round(db, link, sv, k);
      CapSpared(db', link', sv, k + 1, low);
    }
  }

  /** While the cap stays at `low` or more, every row that may be sent with fewer than `low` rows over the limits ahead
      of it is acknowledged. */
  lemma FewAheadArrives(db: Db, link: Link, sv: Service, k: nat, low: nat, s: nat)
    requires Numbered(db) && Sane(link) && AlwaysFinal(sv)
    requires low <= link.cap && Spares(sv, link.limits.events, low)
    requires Sendable(db, link, s) && |Ahead(db, link, s)| < low
    ensures var (db', _) := Drained(db, link, sv, k);
            s in db'.rows && AckedAt(db.rows[s], db'.rows[s], db'.rows[s].closedAt)
  {
    var (db', link') := Drained(db, link, sv, k);
    DrainEnds(db, link, sv, k);
    CapSpared(db, link, sv, k, low);
    assert DrainedRow(db, link, db', s);
    if db'.rows[s] == db.rows[s] {
      Blocked(db', link', s);
      DrainedAhead(db, link, db', link', s);
    }
  }

  predicate Acknowledged(db: Db, s: nat) { s in db.rows && db.rows[s].state.Acked? }

  /** From a full cap, against a service that takes any batch within its limits: a row that may be sent is
      acknowledged in the end if and only if fewer rows over the limits lie ahead of it than a batch may hold. */
  lemma AcknowledgedIff(db: Db, link: Link, sv: Service, k: nat, s: nat)
    requires Numbered(db) && Sane(link) && AlwaysFinal(sv) && Sendable(db, link, s)
    requires link.cap == link.limits.events && forall k :: sv.most(k) >= link.limits.events
    ensures Acknowledged(Drained(db, link, sv, k).0, s) <==> |Ahead(db, link, s)| < link.limits.events
  {
    DrainEnds(db, link, sv, k);
    assert DrainedRow(db, link, Drained(db, link, sv, k).0, s);
    if |Ahead(db, link, s)| < link.limits.events {
      FewAheadArrives(db, link, sv, k, link.limits.events, s);
    }
  }

  /** Whatever number of events the service finds too large from round to round: everything that was waiting is
      acknowledged in the end if and only if no waiting row is over the limits; no other row is ever touched. */
  lemma DrainsEverything(db: Db, link: Link, sv: Service, k: nat)
    requires Numbered(db) && Sane(link) && AlwaysFinal(sv)
    ensures var (db', _) := Drained(db, link, sv, k);
            && db'.rows.Keys == db.rows.Keys
            && (NoneOversized(db, link) <==>
                  forall s :: s in db.rows && Waiting(db.rows[s], link.types) ==> Acknowledged(db', s))
            && forall s :: s in db.rows && !Waiting(db.rows[s], link.types) ==> db'.rows[s] == db.rows[s]
  {
    var (db', link') := Drained(db, link, sv, k);
    DrainEnds(db, link, sv, k);
    forall s | s in db.rows && Waiting(db.rows[s], link.types)
      ensures NoneOversized(db, link) ==> Acknowledged(db', s)
      ensures Acknowledged(db', s) ==> Allowed(db.rows[s].event, link.limits)
    {
      assert DrainedRow(db, link, db', s);
      if NoneOversized(db, link) {
        assert Ahead(db, link, s) == {};
        FewAheadArrives(db, link, sv, k, 1, s);
      }
    }
    assert forall s :: s in db.rows ==> DrainedRow(db, link, db', s);
  }

  // ------------------------------------------------------------------
  // Behind too many rows over the limits
  // ------------------------------------------------------------------

  function SendAll(db: Db, link: Link, replies: seq<Reply>, now: int): (Db, Link) {
    if replies == [] then (db, link) else
      var (db', link') := SendAll(db, link, replies[..|replies| - 1], now);
      SendOnce(db', link', replies[|replies| - 1], now)
  }

  /** As many rows over the limits ahead as a batch may hold: the row is never sent, whatever the service answers. */
  lemma {:induction false} NeverSent(db: Db, link: Link, replies: seq<Reply>, now: int, s: nat)
    requires Numbered(db) && s in db.rows && |Ahead(db, link, s)| >= link.limits.events
    ensures var (db', link') := SendAll(db, link, replies, now);
            && Numbered(db') && link'.types == link.types && link'.limits == link.limits
            && s in db'.rows && db'.rows[s] == db.rows[s] && s !in Batch(db', link')
            && Ahead(db', link', s) == Ahead(db, link, s)
  {
    if replies != [] {
      NeverSent(db, link, replies[..|replies| - 1], now, s);
      var (db1, link1) := SendAll(db, link, replies[..|replies| - 1], now);
      OneReplyKeeps(db1, link1, replies[|replies| - 1], now, s);
    }
    var (db', link') := SendAll(db, link, replies, now);
    if s in Batch(db', link') {
      SentHasPlace(db', link', s);
    }
  }

  lemma OneReplyKeeps(db: Db, link: Link, reply: Reply, now: int, s: nat)
    requires Numbered(db) && s in db.rows && s !in Batch(db, link)
    ensures var (db', link') := SendOnce(db, link, reply, now);
            && Numbered(db') && link'.types == link.types && link'.limits == link.limits
            && s in db'.rows && db'.rows[s] == db.rows[s]
            && Ahead(db', link', s) == Ahead(db, link, s)
  {
    var (db', link') := SendOnce(db, link, reply, now);
    if Batch(db, link) != [] {
      AnsweredDb(db, link, Batch(db, link), db.rows, reply, now);
      AnsweredLink(db, link, Batch(db, link), db.rows, reply, now);
    }
    BatchMeans(db, link);
    forall r | r in db.rows
      ensures r in db'.rows && db'.rows[r].event == db.rows[r].event
      ensures db'.rows[r] != db.rows[r] ==> r in Batch(db, link)
    {
      AckedByReceipt(db, link, reply, now, r);
    }
    AheadKept(db, db', link, link', s);
  }

  const LONG := Event(1, "tool.snapshot", MillWright(0, 1), None, 0, 10000)
  const SHORT := Event(2, "tool.snapshot", MillWright(0, 2), None, 0, 100)
  const TWO := EMPTY.(meta := Some(Identity(0, 1, 0)), lastRow := 2,
                      rows := map[1 := Row(LONG, Pending, 0), 2 := Row(SHORT, Pending, 0)])
  const ONE_AT_A_TIME := Capable(STARTED.(connected := true), Some({"tool.snapshot"}), Limits(1, 262144, 8192))

  /** A service that takes one event a request, of at most 8192 bytes: one longer row, and nothing behind it is sent. */
  lemma OversizedRowStalls(replies: seq<Reply>, now: int)
    ensures Sendable(TWO, ONE_AT_A_TIME, 2) && ONE_AT_A_TIME.cap == ONE_AT_A_TIME.limits.events
    ensures var (db, _) := SendAll(TWO, ONE_AT_A_TIME, replies, now); 2 in db.rows && db.rows[2] == TWO.rows[2]
  {
    assert Ahead(TWO, ONE_AT_A_TIME, 2) == {1};
    NeverSent(TWO, ONE_AT_A_TIME, replies, now, 2);
  }
}
