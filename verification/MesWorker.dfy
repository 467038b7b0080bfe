/** Cycle facts on their way into the spool (agent_mes_link.py, `MesWorker._store_facts`). */
module MesWorker {
  import opened Wrappers
  import opened MesSpool

  const QUEUE_SIZE := 256

  /** A finished cycle; `accepted` is what the contract will say of its event. */
  datatype Fact = Fact(content: nat, size: nat, accepted: bool)

  function ItemOf(f: Fact): Item { Own("cycle.observed", f.content, f.size, f.accepted) }

  /** What became of a fact taken off the waiting list; only Stored leaves a row, the others a line in the log. */
  datatype Fate = Stored | Refused | Lost

  datatype Entry = Entry(fact: Fact, fate: Fate)

  function Facts(log: seq<Entry>): seq<Fact> {
    seq(|log|, i requires 0 <= i < |log| => log[i].fact)
  }

  function StoredFacts(log: seq<Entry>): seq<Fact> {
    if log == [] then [] else
      var n := |log| - 1;
      StoredFacts(log[..n]) + if log[n].fate.Stored? then [log[n].fact] else []
  }

  /** The places of the stored facts, in order. */
  ghost predicate StoredPlaces(log: seq<Entry>, at: seq<nat>) {
    && (forall j, k :: 0 <= j < k < |at| ==> at[j] < at[k])
    && (forall i :: 0 <= i < |log| ==> (log[i].fate == Stored <==> i in at))
    && (forall k :: 0 <= k < |at| ==> at[k] < |log|)
  }

  lemma StoredStep(log: seq<Entry>, at: seq<nat>)
    requires log != [] && StoredPlaces(log[..|log| - 1], at)
    ensures var n := |log| - 1; StoredPlaces(log, at + if log[n].fate.Stored? then [n] else [])
  {
    var n := |log| - 1;
    var more := at + if log[n].fate.Stored? then [n] else [];
    forall i | 0 <= i < |log| ensures log[i].fate == Stored <==> i in more {
      assert i < n ==> log[..n][i] == log[i];
      assert i in more <==> i in at || (i == n && log[n].fate.Stored?);
    }
  }

  ghost predicate FactsAt(log: seq<Entry>, at: seq<nat>, facts: seq<Fact>) {
    |facts| == |at| && forall k :: 0 <= k < |at| ==> at[k] < |log| && facts[k] == log[at[k]].fact
  }

  /** Those facts are the log's, in its order: all it calls stored, and no other. */
  lemma {:induction false} StoredMeans(log: seq<Entry>) returns (at: seq<nat>)
    ensures StoredPlaces(log, at) && FactsAt(log, at, StoredFacts(log))
  {
    at := [];
    if log != [] {
      var n := |log| - 1;
      at := StoredMeans(log[..n]);
      StoredStep(log, at);
      assert FactsAt(log, at, StoredFacts(log[..n]));
      at := at + if log[n].fate.Stored? then [n] else [];
    }
  }

  /** The attempt the pass stopped at, numbered from 0: the fact it was made for is lost, or still waits. */
  function LastAttempt(log: seq<Entry>): nat {
    if log != [] && log[|log| - 1].fate.Lost? then |log| - 1 else |log|
  }

  predicate Lossless(log: seq<Entry>) { log == [] || !log[|log| - 1].fate.Lost? }

  /** Stored facts were accepted by the contract, refused ones were not, and only the last can be lost. */
  predicate Fair(log: seq<Entry>) {
    forall i :: 0 <= i < |log| ==>
      && (log[i].fate.Stored? ==> log[i].fact.accepted) && (log[i].fate.Refused? ==> !log[i].fact.accepted)
      && (log[i].fate.Lost? ==> i == |log| - 1)
  }

  lemma FairStep(log: seq<Entry>, f: Fact, fate: Fate)
    requires Fair(log) && Lossless(log) && (fate.Stored? ==> f.accepted) && (fate.Refused? ==> !f.accepted)
    ensures Fair(log + [Entry(f, fate)])
  {
  }

  predicate RowOf(db: Db, s: nat, f: Fact) {
    s in db.rows && db.rows[s].state.Pending? && db.rows[s].event.kind == "cycle.observed"
    && db.rows[s].event.content == f.content && db.rows[s].event.producer.Agent?
  }

  /** The database after the log: the old rows, and one pending row for each stored fact, in order. */
  ghost predicate Holds(before: Db, db: Db, stored: seq<Fact>) {
    && Numbered(db) && db.lastRow == before.lastRow + |stored|
    && (forall s :: s in before.rows ==> s in db.rows && db.rows[s] == before.rows[s])
    && (forall s :: s in db.rows ==> s in before.rows || s > before.lastRow)
    && (forall k :: 0 <= k < |stored| ==> RowOf(db, before.lastRow + 1 + k, stored[k]))
  }

  /** Ids drawn so far are below `uuid`. */
  predicate Unused(db: Db, uuid: nat) { forall s :: s in db.rows ==> db.rows[s].event.id < uuid }

  lemma OneStored(before: Db, db: Db, me: Identity, stored: seq<Fact>, f: Fact, uuid: nat)
    requires Holds(before, db, stored) && Unused(db, uuid) && Append(db, me, [ItemOf(f)], None, uuid).Ok?
    ensures var db' := Append(db, me, [ItemOf(f)], None, uuid).value.db;
            Holds(before, db', stored + [f]) && Unused(db', uuid + 1)
  {
    var work, items := Work(db, me), [ItemOf(f)];
    var db' := Append(db, me, items, None, uuid).value.db;
    StoresEach(work, items, uuid);
    NewRowsAt(work, items, uuid, 0);
    assert forall s :: s in db.rows ==> db'.rows[s] == db.rows[s];
    forall k | 0 <= k < |stored| + 1 ensures RowOf(db', before.lastRow + 1 + k, (stored + [f])[k]) {
      if k < |stored| {
        assert RowOf(db, before.lastRow + 1 + k, stored[k]);
      }
    }
  }

  /** Some attempt finds the spool full while, with its fact off the list, more than the queue holds still wait. */
  ghost predicate Overflows(total: nat, bytes: nat -> nat, budget: nat) {
    exists k: nat :: k + 257 < total && bytes(k) >= budget
  }

  /** The attempts before the n-th found room. */
  ghost predicate Roomy(n: nat, bytes: nat -> nat, budget: nat) {
    forall k: nat :: k < n ==> bytes(k) < budget
  }

  lemma WaitsBeyondQueue(log: seq<Entry>, waiting: nat, bytes: nat -> nat, budget: nat)
    requires Roomy(LastAttempt(log), bytes, budget) && (waiting > 0 ==> bytes(LastAttempt(log)) >= budget)
    requires (!Lossless(log) ==> waiting >= QUEUE_SIZE) && (waiting > QUEUE_SIZE ==> !Lossless(log))
    ensures waiting > QUEUE_SIZE <==> Overflows(|log| + waiting, bytes, budget)
  {
  }

  class MesWorker {
    const spool: Spool
    var waiting: seq<Fact>

    constructor (spool: Spool)
      ensures this.spool == spool && waiting == []
    {
      this.spool, waiting := spool, [];
    }

    /** `queued` is what the queue holds; at the k-th attempt the database takes `bytes(k)` and the sidecar can be
        written if `written(k)`; ids are drawn from `uuid` on. The log is what happened to each fact taken off. */
    method StoreFacts(queued: seq<Fact>, bytes: nat -> nat, written: nat -> bool, uuid: nat) returns (log: seq<Entry>)
      requires Numbered(spool.db) && Unused(spool.db, uuid)
      modifies this`waiting, spool
      ensures Facts(log) + waiting == old(waiting) + queued
      ensures Holds(old(spool.db), spool.db, StoredFacts(log)) && Fair(log)
      ensures waiting != [] ==> bytes(LastAttempt(log)) >= spool.budget
      ensures bytes(0) >= spool.budget ==> |log| <= 1
      ensures !Lossless(log) ==> |waiting| >= 256
      ensures |waiting| > 256 <==> Overflows(|old(waiting) + queued|, bytes, spool.budget)
    {
      waiting := waiting + queued;
      ghost var all := waiting;
      log := StoreWaiting(bytes, written, uuid);
      WaitsBeyondQueue(log, |waiting|, bytes, spool.budget);
      assert |log| + |waiting| == |Facts(log) + waiting| == |all|;
    }

    method StoreWaiting(bytes: nat -> nat, written: nat -> bool, uuid: nat) returns (log: seq<Entry>)
      requires Numbered(spool.db) && Unused(spool.db, uuid)
      modifies this`waiting, spool
      ensures Facts(log) + waiting == old(waiting)
      ensures Holds(old(spool.db), spool.db, StoredFacts(log)) && Fair(log)
      ensures Roomy(LastAttempt(log), bytes, spool.budget)
      ensures waiting != [] ==> bytes(LastAttempt(log)) >= spool.budget
      ensures !Lossless(log) ==> |waiting| >= QUEUE_SIZE
      ensures |waiting| > QUEUE_SIZE ==> !Lossless(log)
    {
      log := [];
      var full := false;
      while waiting != []
        invariant Facts(log) + waiting == old(waiting)
        invariant Holds(old(spool.db), spool.db, StoredFacts(log)) && Unused(spool.db, uuid + |log|)
        invariant Fair(log) && Lossless(log) && Roomy(|log|, bytes, spool.budget)
        decreases waiting
      {
        log, full := TakeOff(log, bytes(|log|), uuid, written(|log|), old(spool.db));
        if full {
          log := GiveUp(log);
          return;
        }
      }
    }

    /** The spool is full: beyond the queue's size the first waiting fact is lost. */
    method GiveUp(log: seq<Entry>) returns (log': seq<Entry>)
      requires waiting != [] && Fair(log) && Lossless(log)
      modifies this`waiting
      ensures Facts(log') + waiting == Facts(log) + old(waiting)
      ensures Fair(log') && StoredFacts(log') == StoredFacts(log) && LastAttempt(log') == |log|
      ensures !Lossless(log') ==> |waiting| >= QUEUE_SIZE
      ensures |waiting| > QUEUE_SIZE ==> !Lossless(log')
    {
      log' := log;
      if |waiting| > QUEUE_SIZE {
        FairStep(log, waiting[0], Lost);
        log' := Noted(log, waiting[0], Lost);
      }
    }

    /** One attempt: the first waiting fact is stored or refused, or the spool is full and all stays. */
    method TakeOff(log: seq<Entry>, bytes: nat, uuid: nat, written: bool, ghost before: Db)
      returns (log': seq<Entry>, full: bool)
      requires waiting != [] && Fair(log) && Lossless(log)
      requires Holds(before, spool.db, StoredFacts(log)) && Unused(spool.db, uuid + |log|)
      modifies this`waiting, spool
      ensures full <==> bytes >= spool.budget
      ensures full ==> log' == log && waiting == old(waiting)
      ensures !full ==> |log'| == |log| + 1 && waiting == old(waiting)[1..]
      ensures Facts(log') + waiting == Facts(log) + old(waiting) && Fair(log') && Lossless(log')
      ensures Holds(before, spool.db, StoredFacts(log')) && Unused(spool.db, uuid + |log'|)
    {
      var f := waiting[0];
      var r := TryAdd(f, bytes, uuid + |log|, written, before, StoredFacts(log));
      full := r.Err? && r.error.Full?;
      log' := log;
      if !full {
        FairStep(log, f, if r.Ok? then Stored else Refused);
        log' := Noted(log, f, if r.Ok? then Stored else Refused);
      }
    }

    /** The first waiting fact is dealt with. */
    method Noted(log: seq<Entry>, f: Fact, fate: Fate) returns (log': seq<Entry>)
      requires waiting != [] && waiting[0] == f
      modifies this`waiting
      ensures log' == log + [Entry(f, fate)] && waiting == old(waiting)[1..]
      ensures Facts(log') + waiting == Facts(log) + old(waiting)
      ensures StoredFacts(log') == StoredFacts(log) + if fate.Stored? then [f] else []
    {
      log' := log + [Entry(f, fate)];
      waiting := waiting[1..];
      assert log'[..|log|] == log;
      assert Facts(log') == Facts(log) + [f];
    }

    method TryAdd(f: Fact, bytes: nat, uuid: nat, written: bool, ghost before: Db, ghost stored: seq<Fact>)
      returns (r: Result<seq<nat>, Error>)
      requires Holds(before, spool.db, stored) && Unused(spool.db, uuid)
      modifies spool
      ensures Unused(spool.db, uuid + 1) && r != Err(Duplicate)
      ensures r.Ok? ==> f.accepted && Holds(before, spool.db, stored + [f])
      ensures r.Err? ==> spool.db == old(spool.db)
      ensures r == Err(Rejected) ==> !f.accepted
      ensures r == Err(Full) <==> bytes >= spool.budget
    {
      ghost var db, me := spool.db, spool.me;
      r := spool.AppendLocked([ItemOf(f)], None, false, bytes, uuid, written);
      SingleItem(db, me, f, uuid);
      if r.Ok? {
        OneStored(before, db, me, stored, f, uuid);
      }
    }
  }

  lemma SingleItem(db: Db, me: Identity, f: Fact, uuid: nat)
    requires Unused(db, uuid)
    ensures Append(db, me, [ItemOf(f)], None, uuid) != Err(Duplicate)
    ensures var r := Append(db, me, [ItemOf(f)], None, uuid);
            (r.Ok? ==> f.accepted) && (r == Err(Rejected) ==> !f.accepted)
  {
    assert [ItemOf(f)][..0] == [];
    assert StoreAll(Work(db, me), [], uuid) == Ok(Work(db, me));
  }
}
