/** Sending the spool to the site service: one batch, its receipts, and draining (agent_mes_forward.py). */
module MesForward {
  import opened Wrappers
  import opened MesSpool

  /** What the service accepts at most; every limit is at least 1. */
  datatype Limits = Limits(events: nat, batchBytes: nat, eventBytes: nat)

  const DEFAULT_LIMITS := Limits(200, 262144, 16384)
  const BACKOFF_MIN := 1.0
  const BACKOFF_MAX := 300.0

  datatype Status = NotEnrolled | Ok | Offline | Rejected | CertExpired

  /** The forwarder's memory. `types` None: not asked yet; `cap` is its own limit on the batch length. */
  datatype Link = Link(
    types: Types, limits: Limits, cap: nat, backoff: real, fails: nat, connected: bool, status: Status)

  const STARTED := Link(None, DEFAULT_LIMITS, DEFAULT_LIMITS.events, 0.0, 0, false, NotEnrolled)

  predicate Positive(l: Limits) { l.events >= 1 && l.batchBytes >= 1 && l.eventBytes >= 1 }

  predicate Sane(link: Link) {
    && Positive(link.limits) && 1 <= link.cap <= link.limits.events
    && (link.backoff == 0.0 || BACKOFF_MIN <= link.backoff <= BACKOFF_MAX)
  }

  function Min(a: nat, b: nat): nat { if a < b then a else b }

  // ------------------------------------------------------------------
  // The next batch
  // ------------------------------------------------------------------

  /** The bytes around the events: the length of an empty payload. */
  const FRAME := 13

  predicate Allowed(e: Event, l: Limits) {
    e.size <= l.eventBytes && e.size + FRAME <= l.batchBytes
  }

  predicate AllIn(places: seq<nat>, rows: Rows) { forall i :: 0 <= i < |places| ==> places[i] in rows }

  function Fitting(places: seq<nat>, rows: Rows, l: Limits): (r: seq<nat>)
    requires AllIn(places, rows)
    ensures AllIn(r, rows)
  {
    if places == [] then [] else
      var n := |places| - 1;
      Fitting(places[..n], rows, l) + (if Allowed(rows[places[n]].event, l) then [places[n]] else [])
  }

  /** The exact length of the payload: frame, bodies, and a comma between any two. */
  function PayloadSize(places: seq<nat>, rows: Rows): nat
    requires AllIn(places, rows)
  {
    if places == [] then FRAME else
      var n := |places| - 1;
      PayloadSize(places[..n], rows) + rows[places[n]].event.size + (if n == 0 then 0 else 1)
  }

  /** The most rows from the front whose payload fits in `max` bytes. */
  function Longest(places: seq<nat>, rows: Rows, max: nat): seq<nat>
    requires AllIn(places, rows)
  {
    if places == [] || PayloadSize(places, rows) <= max then places
    else Longest(places[..|places| - 1], rows, max)
  }

  lemma {:induction false} PayloadGrows(places: seq<nat>, rows: Rows, n: nat)
    requires AllIn(places, rows) && n <= |places|
    ensures PayloadSize(places[..n], rows) <= PayloadSize(places, rows)
    decreases places
  {
    if n < |places| {
      PayloadGrows(places[..|places| - 1], rows, n);
      assert places[..|places| - 1][..n] == places[..n];
    } else {
      assert places[..n] == places;
    }
  }

  lemma {:induction false} LongestIs(places: seq<nat>, rows: Rows, max: nat, n: nat)
    requires AllIn(places, rows) && n <= |places|
    requires n == 0 || PayloadSize(places[..n], rows) <= max
    requires n == |places| || PayloadSize(places[..n + 1], rows) > max
    ensures Longest(places, rows, max) == places[..n]
    decreases places
  {
    if n == |places| {
      assert places[..n] == places;
    } else {
      var init := places[..|places| - 1];
      PayloadGrows(places, rows, n + 1);
      assert init[..n] == places[..n];
      if n < |init| {
        assert init[..n + 1] == places[..n + 1];
      }
      LongestIs(init, rows, max, n);
    }
  }

  lemma {:induction false} LongestPrefix(places: seq<nat>, rows: Rows, max: nat)
    requires AllIn(places, rows)
    ensures var r := Longest(places, rows, max);
            && r <= places && AllIn(r, rows)
            && (r != [] ==> PayloadSize(r, rows) <= max)
            && (|r| < |places| ==> PayloadSize(places[..|r| + 1], rows) > max)
  {
    if places != [] && PayloadSize(places, rows) > max {
      var init := places[..|places| - 1];
      LongestPrefix(init, rows, max);
      var r := Longest(init, rows, max);
      if |r| < |init| {
        assert init[..|r| + 1] == places[..|r| + 1];
      } else {
        assert places[..|r| + 1] == places;
      }
    }
  }

  function Candidates(db: Db, link: Link): (r: seq<nat>)
    ensures AllIn(r, db.rows)
  {
    var limit := Min(link.cap, link.limits.events);
    OldestFirst(db.rows, 1, db.lastRow, limit, link.types);
    PendingRows(db, limit, link.types)
  }

  /** The rows the next request carries. */
  function Batch(db: Db, link: Link): (r: seq<nat>)
    ensures AllIn(r, db.rows)
  {
    var fitting := Fitting(Candidates(db, link), db.rows, link.limits);
    LongestPrefix(fitting, db.rows, link.limits.batchBytes);
    Longest(fitting, db.rows, link.limits.batchBytes)
  }

  // ------------------------------------------------------------------
  // The answer
  // ------------------------------------------------------------------

  datatype Verdict = WasStored | WasDuplicate | WasQuarantined | WasRejected | AnyOther(status: string)

  datatype Receipt = Receipt(verdict: Verdict, id: nat) | Malformed

  /** What came of a request. Broken: the connection failed, `counted` unless it was an HTTP protocol error.
      Refused: the service does not take this certificate. */
  datatype Reply =
    | Answer(status: nat, receipts: Option<seq<Receipt>>)
    | Broken(counted: bool)
    | Refused(expired: bool)

  predicate Final(r: Receipt) {
    r.Receipt? && !r.verdict.AnyOther?
  }

  function GoOffline(link: Link): Link {
    link.(backoff := if link.backoff <= 0.0 then BACKOFF_MIN
                     else if link.backoff * 2.0 < BACKOFF_MAX then link.backoff * 2.0 else BACKOFF_MAX,
          status := Offline)
  }

  function Refuse(link: Link, status: Status): Link {
    link.(connected := false, status := status)
  }

  /** What the outcome of any request does to the link, and whether there is an answer to look at. */
  function Called(link: Link, reply: Reply): (Link, bool) {
    match reply
    case Refused(expired) => (Refuse(link, if expired then CertExpired else Status.Rejected), false)
    case Broken(counted) => (GoOffline(if counted then link.(fails := link.fails + 1) else link), false)
    case Answer(status, _) =>
      if status == 401 || status == 403 then (Refuse(link.(fails := 0), Status.Rejected), false)
      else (link.(fails := 0), true)
  }

  /** The rows whose receipt, at the same place, names their event and is final. */
  function Receipted(batch: seq<nat>, receipts: seq<Receipt>, rows: Rows): (r: seq<nat>)
    requires AllIn(batch, rows)
  {
    if batch == [] then [] else
      var n := |batch| - 1;
      Receipted(batch[..n], receipts, rows) +
      if n < |receipts| && Final(receipts[n]) && receipts[n].id == rows[batch[n]].event.id then [batch[n]] else []
  }

  /** The i-th row of the batch is `s`, and the receipt at its place is final and names its event. */
  predicate ReceiptAt(batch: seq<nat>, receipts: seq<Receipt>, rows: Rows, i: nat)
    requires AllIn(batch, rows) && i < |batch|
  {
    && i < |receipts| && receipts[i].Receipt? && receipts[i].id == rows[batch[i]].event.id
    && receipts[i].verdict in {WasStored, WasDuplicate, WasQuarantined, WasRejected}
  }

  lemma ReceiptedStep(batch: seq<nat>, receipts: seq<Receipt>, rows: Rows, n: nat)
    requires AllIn(batch, rows) && n < |batch|
    ensures Receipted(batch[..n + 1], receipts, rows)
         == Receipted(batch[..n], receipts, rows) + if ReceiptAt(batch, receipts, rows, n) then [batch[n]] else []
  {
    assert batch[..n + 1][..n] == batch[..n];
  }

  lemma {:induction false} ReceiptedUpTo(batch: seq<nat>, receipts: seq<Receipt>, rows: Rows, s: nat, n: nat)
    requires AllIn(batch, rows) && n <= |batch|
    ensures s in Receipted(batch[..n], receipts, rows) <==>
              exists i :: 0 <= i < n && batch[i] == s && ReceiptAt(batch, receipts, rows, i)
    decreases n
  {
    if n > 0 {
      ReceiptedUpTo(batch, receipts, rows, s, n - 1);
      ReceiptedStep(batch, receipts, rows, n - 1);
    }
  }

  lemma ReceiptedMeans(batch: seq<nat>, receipts: seq<Receipt>, rows: Rows, s: nat)
    requires AllIn(batch, rows)
    ensures s in Receipted(batch, receipts, rows) <==>
              exists i :: 0 <= i < |batch| && batch[i] == s && ReceiptAt(batch, receipts, rows, i)
  {
    ReceiptedUpTo(batch, receipts, rows, s, |batch|);
    assert batch[..|batch|] == batch;
  }

  function Halve(n: nat): nat { if n / 2 < 1 then 1 else n / 2 }

  function GoOk(link: Link): Link {
    link.(backoff := 0.0, status := Status.Ok,
          cap := if link.cap < link.limits.events then Min(link.limits.events, link.cap * 2) else link.cap)
  }

  /** What the answer to a batch does; `sent` are the rows as they were read for it. */
  function Answered(db: Db, link: Link, batch: seq<nat>, sent: Rows, reply: Reply, now: int): (Db, Link)
    requires AllIn(batch, sent)
  {
    var (link', answered) := Called(link, reply);
    if !answered then (db, link') else
      match reply.status
      case 200 =>
        if reply.receipts.None? then (db, GoOffline(link')) else
          var done := Receipted(batch, reply.receipts.value, sent);
          (if done == [] then db else MarkAcked(db, ToSet(done), now), GoOk(link'))
      case 413 => (db, link'.(cap := Halve(|batch|)))
      case 400 => (db, link'.(cap := Halve(|batch|), backoff := BACKOFF_MAX))
      case _ => (db, GoOffline(link'))
  }

  /** The only change an answer makes to the database. */
  lemma AnsweredDb(db: Db, link: Link, batch: seq<nat>, sent: Rows, reply: Reply, now: int)
    requires AllIn(batch, sent)
    ensures var db' := Answered(db, link, batch, sent, reply, now).0;
            || db' == db
            || (reply.Answer? && reply.receipts.Some?
                && db' == MarkAcked(db, ToSet(Receipted(batch, reply.receipts.value, sent)), now))
  {
  }

  lemma AnsweredLink(db: Db, link: Link, batch: seq<nat>, sent: Rows, reply: Reply, now: int)
    requires AllIn(batch, sent)
    ensures var link' := Answered(db, link, batch, sent, reply, now).1;
            link'.types == link.types && link'.limits == link.limits
  {
  }

  /** An empty batch sends nothing. */
  function SendOnce(db: Db, link: Link, reply: Reply, now: int): (Db, Link) {
    var batch := Batch(db, link);
    if batch == [] then (db, link) else Answered(db, link, batch, db.rows, reply, now)
  }

  /** What the capabilities say: the types, and each limit if it is a number at all. */
  datatype Offer = Offer(types: set<string>, events: Option<int>, batchBytes: Option<int>, eventBytes: Option<int>)

  function Limit(given: Option<int>, before: nat): nat {
    if given.Some? && given.value > 0 then given.value else before
  }

  function Merged(l: Limits, offer: Offer): Limits {
    Limits(Limit(offer.events, l.events), Limit(offer.batchBytes, l.batchBytes), Limit(offer.eventBytes, l.eventBytes))
  }

  /** `offer` None: the answer could not be read. */
  function Asked(link: Link, reply: Reply, offer: Option<Offer>): Link {
    var (link', answered) := Called(link, reply);
    if !answered then link'
    else if reply.status != 200 || offer.None? then GoOffline(link')
    else Capable(link', Some(offer.value.types), Merged(link'.limits, offer.value))
  }

  function Capable(link: Link, types: Types, l: Limits): Link {
    var cap := Min(link.cap, l.events);
    link.(types := types, limits := l, cap := if cap == 0 then 1 else cap, backoff := 0.0, status := Status.Ok)
  }

  lemma {:induction false} FittingSplit(places: seq<nat>, rows: Rows, l: Limits, i: nat)
    requires AllIn(places, rows) && i <= |places|
    ensures Fitting(places[..i], rows, l) <= Fitting(places, rows, l)
    ensures i < |places| && Allowed(rows[places[i]].event, l) ==>
              && |Fitting(places[..i], rows, l)| < |Fitting(places, rows, l)|
              && Fitting(places, rows, l)[|Fitting(places[..i], rows, l)|] == places[i]
    decreases places
  {
    if i == |places| {
      assert places[..i] == places;
    } else if i == |places| - 1 {
    } else {
      var init := places[..|places| - 1];
      FittingSplit(init, rows, l, i);
      assert init[..i] == places[..i];
    }
  }

  lemma FittingStep(places: seq<nat>, rows: Rows, l: Limits, i: nat)
    requires AllIn(places, rows) && i < |places|
    ensures Fitting(places[..i + 1], rows, l)
         == Fitting(places[..i], rows, l) + if Allowed(rows[places[i]].event, l) then [places[i]] else []
  {
    assert places[..i + 1][..i] == places[..i];
  }

  lemma PayloadStep(places: seq<nat>, s: nat, rows: Rows)
    requires AllIn(places, rows) && s in rows
    ensures AllIn(places + [s], rows)
    ensures PayloadSize(places + [s], rows)
         == PayloadSize(places, rows) + rows[s].event.size + if places == [] then 0 else 1
  {
    assert (places + [s])[..|places|] == places;
  }

  lemma StopsAt(all: seq<nat>, taken: seq<nat>, s: nat, rows: Rows, max: nat)
    requires AllIn(all, rows) && taken <= all && |taken| < |all| && all[|taken|] == s
    requires s in rows && AllIn(taken, rows) && PayloadSize(taken + [s], rows) > max
    requires taken != [] ==> PayloadSize(taken, rows) <= max
    ensures Longest(all, rows, max) == taken
  {
    assert all[..|taken|] == taken && all[..|taken| + 1] == taken + [s];
    LongestIs(all, rows, max, |taken|);
  }

  lemma FullAt(places: seq<nat>, rows: Rows, l: Limits, i: nat, taken: seq<nat>)
    requires AllIn(places, rows) && i < |places| && taken == Fitting(places[..i], rows, l)
    requires Allowed(rows[places[i]].event, l) && PayloadSize(taken + [places[i]], rows) > l.batchBytes
    requires taken != [] ==> PayloadSize(taken, rows) <= l.batchBytes
    ensures Longest(Fitting(places, rows, l), rows, l.batchBytes) == taken
  {
    FittingSplit(places, rows, l, i);
    StopsAt(Fitting(places, rows, l), taken, places[i], rows, l.batchBytes);
  }

  // ------------------------------------------------------------------
  // The forwarder object
  // ------------------------------------------------------------------

  class Forwarder {
    const spool: Spool
    var types: Types
    var limits: Limits
    var cap: nat
    var backoff: real
    var fails: nat
    var connected: bool
    var status: Status

    constructor (spool: Spool)
      ensures this.spool == spool && Memory() == STARTED
    {
      this.spool := spool;
      types, limits, cap, backoff, fails, connected, status :=
        None, DEFAULT_LIMITS, DEFAULT_LIMITS.events, 0.0, 0, false, NotEnrolled;
    }

    function Memory(): Link
      reads this
    {
      Link(types, limits, cap, backoff, fails, connected, status)
    }

    /** The rows to send, and the payload length the loop kept track of. */
    method BatchRows() returns (out: seq<nat>, size: nat)
      ensures out == Batch(spool.db, Memory())
      ensures size == PayloadSize(out, spool.db.rows) && (out != [] ==> size <= limits.batchBytes)
    {
      out, size := TakeFitting(Candidates(spool.db, Memory()), spool.db.rows, limits);
    }

    static method TakeFitting(candidates: seq<nat>, rows: Rows, limits: Limits) returns (out: seq<nat>, size: nat)
      requires AllIn(candidates, rows)
      ensures out == Longest(Fitting(candidates, rows, limits), rows, limits.batchBytes)
      ensures AllIn(out, rows) && size == PayloadSize(out, rows) && (out != [] ==> size <= limits.batchBytes)
    {
      out, size := [], FRAME;
      for i := 0 to |candidates|
        invariant out == Fitting(candidates[..i], rows, limits)
        invariant size == PayloadSize(out, rows) && (out != [] ==> size <= limits.batchBytes)
      {
        var place := candidates[i];
        var length := rows[place].event.size;
        FittingStep(candidates, rows, limits, i);
        if length > limits.eventBytes || length + FRAME > limits.batchBytes {
          continue;
        }
        var extra := length + if out == [] then 0 else 1;
        PayloadStep(out, place, rows);
        if size + extra > limits.batchBytes {
          FullAt(candidates, rows, limits, i, out);
          return;
        }
        out, size := out + [place], size + extra;
      }
      assert candidates[..|candidates|] == candidates;
    }

    method WentOffline()
      modifies this`backoff, this`status
      ensures Memory() == GoOffline(old(Memory()))
    {
      backoff := if backoff <= 0.0 then BACKOFF_MIN
                 else if backoff * 2.0 < BACKOFF_MAX then backoff * 2.0
                 else BACKOFF_MAX;
      status := Offline;
    }

    method WasRefused(state: Status)
      modifies this`connected, this`status
      ensures Memory() == Refuse(old(Memory()), state)
    {
      connected, status := false, state;
    }

    method Call(reply: Reply) returns (answered: bool)
      modifies this`fails, this`connected, this`status, this`backoff
      ensures (Memory(), answered) == Called(old(Memory()), reply)
    {
      match reply {
        case Refused(expired) =>
          WasRefused(if expired then CertExpired else Status.Rejected);
          return false;
        case Broken(counted) =>
          if counted {
            fails := fails + 1;
          }
          WentOffline();
          return false;
        case Answer(code, _) =>
          fails := 0;
          if code == 401 || code == 403 {
            WasRefused(Status.Rejected);
            return false;
          }
          return true;
      }
    }

    method Capabilities(reply: Reply, offer: Option<Offer>) returns (known: bool)
      modifies this`types, this`limits, this`cap, this`backoff, this`fails, this`connected, this`status
      ensures Memory() == Asked(old(Memory()), reply, offer)
      ensures known <==> reply.Answer? && reply.status == 200 && offer.Some?
    {
      var answered := Call(reply);
      if !answered {
        return false;
      }
      if reply.status != 200 || offer.None? {
        WentOffline();
        return false;
      }
      var o := offer.value;
      limits := Merged(limits, o);
      cap := Min(cap, limits.events);
      if cap == 0 {
        cap := 1;
      }
      types, backoff, status := Some(o.types), 0.0, Status.Ok;
      return true;
    }

    method CollectReceipted(batch: seq<nat>, receipts: seq<Receipt>) returns (acked: seq<nat>)
      requires AllIn(batch, spool.db.rows)
      ensures acked == Receipted(batch, receipts, spool.db.rows)
    {
      acked := [];
      for i := 0 to |batch|
        invariant acked == Receipted(batch[..i], receipts, spool.db.rows)
      {
        ReceiptedStep(batch, receipts, spool.db.rows, i);
        if i >= |receipts| || !Final(receipts[i]) {
          continue;
        }
        if receipts[i].id != spool.db.rows[batch[i]].event.id {
          continue;
        }
        acked := acked + [batch[i]];
      }
      assert batch[..|batch|] == batch;
    }

    method Receipts(batch: seq<nat>, receipts: Option<seq<Receipt>>, now: int) returns (n: nat)
      requires AllIn(batch, spool.db.rows)
      modifies this`cap, this`backoff, this`status, spool`db
      ensures var done := if receipts.None? then [] else Receipted(batch, receipts.value, old(spool.db).rows);
              && n == |done|
              && spool.db == (if done == [] then old(spool.db) else MarkAcked(old(spool.db), ToSet(done), now))
              && Memory() == if receipts.None? then GoOffline(old(Memory())) else GoOk(old(Memory()))
    {
      if receipts.None? {
        WentOffline();
        return 0;
      }
      var acked := CollectReceipted(batch, receipts.value);
      if acked != [] {
        spool.MarkAckedRows(acked, now);
      }
      backoff, status := 0.0, Status.Ok;
      if cap < limits.events {
        cap := Min(limits.events, cap * 2);
      }
      return |acked|;
    }

    /** `reply` is what comes of the request, if one is made. */
    method Send(reply: Reply, now: int) returns (n: nat)
      modifies this`cap, this`backoff, this`status, this`fails, this`connected, spool`db
      ensures (spool.db, Memory()) == SendOnce(old(spool.db), old(Memory()), reply, now)
    {
      var batch, size := BatchRows();
      if batch == [] {
        return 0;
      }
      var answered := Call(reply);
      if !answered {
        return 0;
      }
      if reply.status == 200 {
        n := Receipts(batch, reply.receipts, now);
        return;
      }
      if reply.status == 413 {
        cap := Halve(|batch|);
        return 0;
      }
      if reply.status == 400 {
        cap, backoff := Halve(|batch|), BACKOFF_MAX;
        return 0;
      }
      WentOffline();
      return 0;
    }
  }

  // ------------------------------------------------------------------
  // What a batch and an answer mean
  // ------------------------------------------------------------------

  predicate Rising(places: seq<nat>) { forall i, j :: 0 <= i < j < |places| ==> places[i] < places[j] }

  ghost predicate FittingOf(r: seq<nat>, places: seq<nat>, rows: Rows, l: Limits)
    requires AllIn(places, rows)
  {
    Rising(r) && forall s :: s in r <==> s in places && Allowed(rows[s].event, l)
  }

  lemma FittingOneMore(r: seq<nat>, places: seq<nat>, x: nat, rows: Rows, l: Limits)
    requires AllIn(places, rows) && x in rows && FittingOf(r, places, rows, l)
    requires forall i :: 0 <= i < |places| ==> places[i] < x
    ensures AllIn(places + [x], rows)
    ensures FittingOf(r + if Allowed(rows[x].event, l) then [x] else [], places + [x], rows, l)
  {
    assert forall s :: s in places + [x] <==> s in places || s == x;
    assert forall i :: 0 <= i < |r| ==> r[i] in r;
  }

  lemma RisingInit(places: seq<nat>, rows: Rows)
    requires places != [] && Rising(places) && AllIn(places, rows)
    ensures var init, x := places[..|places| - 1], places[|places| - 1];
            places == init + [x] && Rising(init) && AllIn(init, rows) && x in rows
            && forall i :: 0 <= i < |init| ==> init[i] < x
  {
  }

  lemma {:induction false} FittingAll(places: seq<nat>, rows: Rows, l: Limits)
    requires AllIn(places, rows) && Rising(places)
    ensures FittingOf(Fitting(places, rows, l), places, rows, l)
  {
    if places != [] {
      var init, x := places[..|places| - 1], places[|places| - 1];
      RisingInit(places, rows);
      FittingAll(init, rows, l);
      FittingOneMore(Fitting(init, rows, l), init, x, rows, l);
    }
  }

  /** A row that may be sent: pending, of an accepted type and within the limits. */
  predicate Sendable(db: Db, link: Link, s: nat) {
    s in db.rows && Waiting(db.rows[s], link.types) && Allowed(db.rows[s].event, link.limits)
  }

  /** A batch is sendable rows oldest first; with any row it holds every sendable one before it. */
  ghost predicate OldestSendable(b: seq<nat>, db: Db, link: Link) {
    && Rising(b)
    && (forall s :: s in b ==> Sendable(db, link, s))
    && (forall s: nat, t: nat :: t in b && Sendable(db, link, s) && s < t ==> s in b)
  }

  lemma BatchMeans(db: Db, link: Link)
    requires Numbered(db)
    ensures var b := Batch(db, link);
            && |b| <= Min(link.cap, link.limits.events)
            && (b != [] ==> PayloadSize(b, db.rows) <= link.limits.batchBytes)
            && OldestSendable(b, db, link)
  {
    BatchLength(db, link);
    var fitting := Fitting(Candidates(db, link), db.rows, link.limits);
    LongestPrefix(fitting, db.rows, link.limits.batchBytes);
    CandidatesMean(db, link);
    PrefixOfSendable(Batch(db, link), fitting, db, link);
  }

  /** The rows fetched and within the limits, before the byte limit cuts them off. */
  lemma CandidatesMean(db: Db, link: Link)
    requires Numbered(db)
    ensures OldestSendable(Fitting(Candidates(db, link), db.rows, link.limits), db, link)
  {
    var rows := Candidates(db, link);
    OldestFirst(db.rows, 1, db.lastRow, Min(link.cap, link.limits.events), link.types);
    FittingAll(rows, db.rows, link.limits);
  }

  lemma PrefixOfSendable(b: seq<nat>, all: seq<nat>, db: Db, link: Link)
    requires b <= all && OldestSendable(all, db, link)
    ensures OldestSendable(b, db, link)
  {
    assert forall i :: 0 <= i < |b| ==> b[i] == all[i];
    assert forall s :: s in b ==> s in all;
    forall s: nat, t: nat | t in b && Sendable(db, link, s) && s < t ensures s in b {
      PrefixHolds(b, all, s, t);
    }
  }

  lemma PrefixHolds(b: seq<nat>, all: seq<nat>, s: nat, t: nat)
    requires b <= all && t in b && s in all && s < t
    requires forall i, j :: 0 <= i < j < |all| ==> all[i] < all[j]
    ensures s in b
  {
  }

  lemma {:induction false} FittingLength(places: seq<nat>, rows: Rows, l: Limits)
    requires AllIn(places, rows)
    ensures |Fitting(places, rows, l)| <= |places|
  {
    if places != [] {
      FittingLength(places[..|places| - 1], rows, l);
    }
  }

  /** Nothing is sent exactly when no row among the first `cap` accepted ones is within the limits: rows over
      them stay at the head and use up the cap. */
  lemma NothingToSend(db: Db, link: Link)
    requires Numbered(db)
    ensures Batch(db, link) == [] <==>
              forall s :: s in Candidates(db, link) ==> !Allowed(db.rows[s].event, link.limits)
  {
    var rows := Candidates(db, link);
    OldestFirst(db.rows, 1, db.lastRow, Min(link.cap, link.limits.events), link.types);
    FittingAll(rows, db.rows, link.limits);
    NoneFits(Fitting(rows, db.rows, link.limits), rows, db.rows, link.limits);
  }

  lemma NoneFits(fitting: seq<nat>, places: seq<nat>, rows: Rows, l: Limits)
    requires AllIn(places, rows) && AllIn(fitting, rows) && FittingOf(fitting, places, rows, l)
    ensures Longest(fitting, rows, l.batchBytes) == [] <==>
              forall s :: s in places ==> !Allowed(rows[s].event, l)
  {
    if fitting != [] {
      assert fitting[0] in fitting;
      FirstAlone(fitting, rows);
      LongestPrefix(fitting, rows, l.batchBytes);
    } else {
      assert forall s :: s in places && Allowed(rows[s].event, l) ==> s in fitting;
    }
  }

  lemma FirstAlone(places: seq<nat>, rows: Rows)
    requires places != [] && AllIn(places, rows)
    ensures PayloadSize(places[..1], rows) == FRAME + rows[places[0]].event.size
  {
  }

  lemma OfflineSane(link: Link)
    requires Sane(link)
    ensures Sane(GoOffline(link))
  {
  }

  lemma CalledSane(link: Link, reply: Reply)
    requires Sane(link)
    ensures Sane(Called(link, reply).0) && Called(link, reply).0.limits == link.limits
  {
    OfflineSane(link);
  }

  lemma AnsweredSane(db: Db, link: Link, batch: seq<nat>, sent: Rows, reply: Reply, now: int)
    requires Sane(link) && AllIn(batch, sent) && |batch| <= link.limits.events
    ensures Sane(Answered(db, link, batch, sent, reply, now).1)
  {
    CalledSane(link, reply);
    OfflineSane(Called(link, reply).0);
  }

  lemma SaneKept(db: Db, link: Link, reply: Reply, now: int)
    requires Sane(link)
    ensures Sane(SendOnce(db, link, reply, now).1)
  {
    BatchLength(db, link);
    if Batch(db, link) != [] {
      AnsweredSane(db, link, Batch(db, link), db.rows, reply, now);
    }
  }

  // ------------------------------------------------------------------
  // A row of requests
  // ------------------------------------------------------------------

  function CalledAll(link: Link, replies: seq<Reply>): Link {
    if replies == [] then link else Called(CalledAll(link, replies[..|replies| - 1]), replies[|replies| - 1]).0
  }

  /** Connection failures since the service last answered anything. */
  function FailuresSince(replies: seq<Reply>): nat {
    if replies == [] then 0 else
      match replies[|replies| - 1]
      case Answer(_, _) => 0
      case Broken(counted) => FailuresSince(replies[..|replies| - 1]) + if counted then 1 else 0
      case Refused(_) => FailuresSince(replies[..|replies| - 1])
  }

  predicate Refusal(reply: Reply) {
    reply.Refused? || (reply.Answer? && (reply.status == 401 || reply.status == 403))
  }

  /** The failure count is that of the failures since the last answer, and the link stays connected exactly while no
      request was refused. */
  lemma {:induction false} CallsCounted(link: Link, replies: seq<Reply>)
    requires link.fails == 0 && link.connected
    ensures CalledAll(link, replies).fails == FailuresSince(replies)
    ensures CalledAll(link, replies).connected <==> forall i :: 0 <= i < |replies| ==> !Refusal(replies[i])
  {
    if replies != [] {
      CallsCounted(link, replies[..|replies| - 1]);
    }
  }

  function OfflineTimes(link: Link, n: nat): Link {
    if n == 0 then link else GoOffline(OfflineTimes(link, n - 1))
  }

  function PowerOfTwo(n: nat): real { if n == 0 then 1.0 else 2.0 * PowerOfTwo(n - 1) }

  /** From the first failure on the backoff is 1, 2, 4, ... seconds, and never more than 300. */
  lemma {:induction false} BackoffDoubles(link: Link, n: nat)
    requires link.backoff == 0.0
    ensures PowerOfTwo(n) >= 1.0
    ensures OfflineTimes(link, n + 1).backoff == if PowerOfTwo(n) < 300.0 then PowerOfTwo(n) else 300.0
  {
    if n > 0 {
      BackoffDoubles(link, n - 1);
    }
  }

  /** What the answer to a batch means for the next one. Receipts: the backoff ends and the cap doubles up to the event
      limit. 413 and 400: at most half the batch next time, but at least one event, and after 400 the longest wait.
      Anything else: offline, with the cap as it was. */
  lemma AnswerDecides(db: Db, link: Link, batch: seq<nat>, sent: Rows, reply: Reply, now: int)
    requires AllIn(batch, sent) && Sane(link)
    requires reply.Answer? && reply.status != 401 && reply.status != 403
    ensures var (db', link') := Answered(db, link, batch, sent, reply, now);
            if reply.status == 200 && reply.receipts.Some? then
              && link'.backoff == 0.0 && link'.status.Ok?
              && (if 2 * link.cap <= link.limits.events then link'.cap == 2 * link.cap
                  else link'.cap == link.limits.events)
            else if reply.status == 413 || reply.status == 400 then
              && db' == db && link'.cap >= 1 && (link'.cap == 1 || 2 * link'.cap <= |batch|)
              && |batch| <= 2 * link'.cap + 1
              && link'.backoff == (if reply.status == 400 then 300.0 else link.backoff)
            else
              && db' == db && link'.cap == link.cap && link'.status.Offline?
              && (link'.backoff == 1.0 || link'.backoff == 2.0 * link.backoff || link'.backoff == 300.0)
  {
  }

  /** A request that gets no usable answer: the certificate refused ends the link, and why is kept; a broken connection
      takes it offline. */
  lemma NoAnswer(db: Db, link: Link, batch: seq<nat>, sent: Rows, reply: Reply, now: int)
    requires AllIn(batch, sent) && (!reply.Answer? || reply.status == 401 || reply.status == 403)
    ensures var (db', link') := Answered(db, link, batch, sent, reply, now);
            && db' == db && link'.cap == link.cap && link'.types == link.types && link'.limits == link.limits
            && (reply.Broken? ==> link'.status.Offline? && link'.connected == link.connected)
            && (!reply.Broken? ==> !link'.connected && link'.backoff == link.backoff)
            && (reply.Refused? && reply.expired ==> link'.status.CertExpired?)
            && ((reply.Refused? && !reply.expired) || reply.Answer? ==> link'.status.Rejected?)
  {
  }

  function Doubled(cap: nat, n: nat): nat { if n == 0 then cap else 2 * Doubled(cap, n - 1) }

  function OkTimes(link: Link, n: nat): Link { if n == 0 then link else GoOk(OkTimes(link, n - 1)) }

  /** After batches that were too large the cap comes back: it doubles with every batch taken, up to the limit. */
  lemma {:induction false} CapRecovers(link: Link, n: nat)
    requires 1 <= link.cap <= link.limits.events
    ensures OkTimes(link, n).limits == link.limits
    ensures OkTimes(link, n).cap == if Doubled(link.cap, n) < link.limits.events then Doubled(link.cap, n)
                                    else link.limits.events
  {
    if n > 0 {
      CapRecovers(link, n - 1);
    }
  }

  function SizeSum(sizes: seq<nat>): nat {
    if sizes == [] then 0 else SizeSum(sizes[..|sizes| - 1]) + sizes[|sizes| - 1]
  }

  function Sizes(places: seq<nat>, rows: Rows): seq<nat>
    requires AllIn(places, rows)
  {
    seq(|places|, i requires 0 <= i < |places| => rows[places[i]].event.size)
  }

  /** The payload is the bodies, a comma between any two, and what is around them. */
  lemma {:induction false} PayloadIs(places: seq<nat>, rows: Rows)
    requires AllIn(places, rows)
    ensures PayloadSize(places, rows)
         == |"{\"events\":[]}"| + SizeSum(Sizes(places, rows)) + if places == [] then 0 else |places| - 1
  {
    if places != [] {
      var init := places[..|places| - 1];
      PayloadIs(init, rows);
      assert Sizes(places, rows)[..|init|] == Sizes(init, rows);
    }
  }

  /** An event may be sent exactly if it is within the limit for one, and a request of it alone within that for all. */
  lemma AllowedAlone(e: Event, s: nat, rows: Rows, l: Limits)
    requires s in rows && rows[s].event == e
    ensures Allowed(e, l) <==> e.size <= l.eventBytes && PayloadSize([s], rows) <= l.batchBytes
  {
    assert [s][..0] == [];
  }

  /** What a capabilities answer changes. One that can be read sets the types, each limit that is offered under its
      own name as a positive number, and the cap to the smaller of what it was and the event limit, but at least 1;
      any other leaves all of these as they were. */
  lemma CapabilitiesMean(link: Link, reply: Reply, offer: Option<Offer>)
    ensures var link' := Asked(link, reply, offer);
            if reply.Answer? && reply.status == 200 && offer.Some? then
              var o := offer.value;
              && link'.types == Some(o.types)
              && (match o.events case Some(n) => link'.limits.events == (if n > 0 then n else link.limits.events)
                                 case None => link'.limits.events == link.limits.events)
              && (match o.batchBytes
                  case Some(n) => link'.limits.batchBytes == (if n > 0 then n else link.limits.batchBytes)
                  case None => link'.limits.batchBytes == link.limits.batchBytes)
              && (match o.eventBytes
                  case Some(n) => link'.limits.eventBytes == (if n > 0 then n else link.limits.eventBytes)
                  case None => link'.limits.eventBytes == link.limits.eventBytes)
              && 1 <= link'.cap && (link'.cap == 1 || (link'.cap <= link.cap && link'.cap <= link'.limits.events))
              && (link'.cap == 1 || link'.cap == link.cap || link'.cap == link'.limits.events)
              && (link.cap >= 1 && link'.limits.events >= 1 ==>
                    link'.cap == link.cap || (link'.cap == link'.limits.events && link'.cap < link.cap))
              && link'.backoff == 0.0 && link'.status.Ok? && link'.fails == 0 && link'.connected == link.connected
            else link'.types == link.types && link'.limits == link.limits && link'.cap == link.cap
  {
  }

  /** Whatever the service offers, the cap stays within its event limit. */
  lemma SaneWhenAsked(link: Link, reply: Reply, offer: Option<Offer>)
    requires Sane(link)
    ensures Sane(Asked(link, reply, offer))
  {
  }

  lemma BatchLength(db: Db, link: Link)
    ensures |Batch(db, link)| <= Min(link.cap, link.limits.events)
  {
    var fitting := Fitting(Candidates(db, link), db.rows, link.limits);
    OldestFirst(db.rows, 1, db.lastRow, Min(link.cap, link.limits.events), link.types);
    FittingLength(Candidates(db, link), db.rows, link.limits);
    LongestPrefix(fitting, db.rows, link.limits.batchBytes);
  }

  lemma {:induction false} ReceiptedIn(batch: seq<nat>, receipts: seq<Receipt>, rows: Rows)
    requires AllIn(batch, rows)
    ensures forall s :: s in Receipted(batch, receipts, rows) ==> s in batch
  {
    if batch != [] {
      ReceiptedIn(batch[..|batch| - 1], receipts, rows);
    }
  }

  /** A row changes only if it was sent and answered by a final receipt for its own event; it is then acked. */
  lemma AckedByReceipt(db: Db, link: Link, reply: Reply, now: int, s: nat)
    requires Numbered(db) && s in db.rows
    ensures var (db', _) := SendOnce(db, link, reply, now);
            && s in db'.rows
            && (db'.rows[s] != db.rows[s] ==>
                  && db.rows[s].state.Pending? && db'.rows[s] == db.rows[s].(state := Acked, closedAt := now)
                  && s in Batch(db, link) && reply.Answer? && reply.status == 200 && reply.receipts.Some?
                  && exists i :: 0 <= i < |reply.receipts.value| && Final(reply.receipts.value[i])
                                 && reply.receipts.value[i].id == db.rows[s].event.id)
  {
    var batch := Batch(db, link);
    var (db', _) := SendOnce(db, link, reply, now);
    if db'.rows[s] != db.rows[s] {
      ReceiptedIn(batch, reply.receipts.value, db.rows);
      ReceiptedMeans(batch, reply.receipts.value, db.rows, s);
    }
  }
}
