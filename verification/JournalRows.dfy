/** Which packets become journal rows, and which rows stay (agent_journal.py, `record` and `prune`), over whole runs. */
module JournalRows {
  import opened Wrappers
  import opened JournalPages
  import opened JournalWriter

  /** The last event before the n-th that wrote a row, none since the agent started. */
  function LastRow(d: Disk, config: Config, events: seq<Event>, n: nat): (k: Option<nat>)
    requires n <= |events|
    ensures k.Some? ==> k.value < n && events[k.value].Packet?
  {
    if n == 0 || events[n - 1].Restart? then None
    else if Writes(d, config, events, n - 1) then Some(n - 1)
    else LastRow(d, config, events, n - 1)
  }

  /** When rows were last looked through for old ones, 0 if not since the agent started. */
  function LastPrune(d: Disk, config: Config, events: seq<Event>, n: nat): real
    requires n <= |events|
    decreases n, 0
  {
    if n == 0 || events[n - 1].Restart? then 0.0
    else if Writes(d, config, events, n - 1) && HourPassed(d, config, events, n - 1) then events[n - 1].call.now
    else LastPrune(d, config, events, n - 1)
  }

  predicate HourPassed(d: Disk, config: Config, events: seq<Event>, n: nat)
    requires n < |events|
    decreases n, 1
  {
    events[n].Packet? && events[n].call.now - LastPrune(d, config, events, n) >= 3600.0
  }

  /** The disk has room, the file is open or can be opened now, and the row can be written. */
  predicate CanWrite(w: Writer, config: Config, c: Call) {
    && DiskOk(w, config, c.now, c.free).1
    && (w.isOpen || (c.now >= w.retryAt && c.opens))
    && c.writes
  }

  /** There is something to record: the first packet of this run of the agent, a change, a caught message, or an
      interval since the last row. */
  predicate WorthIt(d: Disk, config: Config, events: seq<Event>, i: nat)
    requires i < |events| && events[i].Packet?
  {
    var c := events[i].call;
    match LastRow(d, config, events, i)
    case None => true
    case Some(k) => c.key != events[k].call.key || c.errors || c.now - events[k].call.now >= config.interval
  }

  /** The writer remembers the last row and the last prune. */
  predicate Remembers(w: Writer, d: Disk, config: Config, events: seq<Event>, n: nat)
    requires n <= |events|
  {
    && (match LastRow(d, config, events, n)
        case None => w.lastKey.None?
        case Some(k) =>
          w.lastKey == Some(events[k].call.key) && w.lastWrite == events[k].call.now)
    && w.lastPrune == LastPrune(d, config, events, n)
  }

  lemma PacketStep(w: Writer, d: Disk, config: Config, c: Call)
    ensures var (w', d') := Record(w, d, config, c);
            if d'.top > d.top then
              && w'.lastKey == Some(c.key) && w'.lastWrite == c.now
              && w'.lastPrune == if c.now - w.lastPrune >= 3600.0 then c.now else w.lastPrune
            else w'.lastKey == w.lastKey && w'.lastWrite == w.lastWrite && w'.lastPrune == w.lastPrune && d' == d
    ensures var (_, d') := Record(w, d, config, c);
            d'.top > d.top <==>
              && CanWrite(w, config, c)
              && (w.lastKey != Some(c.key) || c.errors || c.now - w.lastWrite >= config.interval)
  {
  }

  lemma {:induction false} RunRemembers(d: Disk, config: Config, events: seq<Event>, n: nat)
    requires n <= |events|
    ensures Remembers(Run(d, config, events[..n]).0, d, config, events, n)
  {
    if n > 0 {
      RunRemembers(d, config, events, n - 1);
      RunStep(d, config, events, n - 1);
      var (w, d') := Run(d, config, events[..n - 1]);
      if events[n - 1].Packet? {
        PacketStep(w, d', config, events[n - 1].call);
      }
    }
  }

  /** A packet becomes a row exactly if it can be written and is worth it. */
  lemma RowsWritten(d: Disk, config: Config, events: seq<Event>, i: nat)
    requires i < |events| && events[i].Packet?
    ensures Writes(d, config, events, i) <==>
              CanWrite(Run(d, config, events[..i]).0, config, events[i].call) && WorthIt(d, config, events, i)
  {
    RunRemembers(d, config, events, i);
    RunStep(d, config, events, i);
    var (w, d') := Run(d, config, events[..i]);
    PacketStep(w, d', config, events[i].call);
  }

  /** What writing a row does to the file: old rows go once an hour, if the deletion works. */
  lemma RecordRows(w: Writer, d: Disk, config: Config, c: Call)
    requires Record(w, d, config, c).1.top > d.top && d.top + 1 !in d.rows && config.retainMs >= 0
    ensures Kept(d, Record(w, d, config, c).1, config, c, c.now - w.lastPrune >= 3600.0 && c.prunes)
  {
  }

  /** The rows are the new one and the old ones, but, if `pruned`, those past the retention. */
  ghost predicate Kept(d: Disk, d': Disk, config: Config, c: Call, pruned: bool) {
    && d'.top == d.top + 1
    && (forall s :: s in d'.rows <==>
          s == d'.top || (s in d.rows && !(pruned && d.rows[s].ts + config.retainMs < c.ts)))
    && forall s :: s in d'.rows ==> d'.rows[s] == if s == d'.top then Entry(c.ts, c.size) else d.rows[s]
  }

  lemma StepRows(w: Writer, d: Disk, config: Config, e: Event)
    requires Step(w, d, config, e).1.top > d.top && d.top + 1 !in d.rows && config.retainMs >= 0
    ensures e.Packet?
    ensures Kept(d, Step(w, d, config, e).1, config, e.call, e.call.now - w.lastPrune >= 3600.0 && e.call.prunes)
  {
    if e.Packet? {
      RecordRows(w, d, config, e.call);
    }
  }

  lemma NextIsNew(d: Disk, config: Config, events: seq<Event>)
    requires Newest(d.rows) == d.top && config.retainMs > 0
    ensures var d' := Run(d, config, events).1; d'.top + 1 !in d'.rows
  {
    RunKeeps(d, config, events);
    var d' := Run(d, config, events).1;
    assert forall s :: s in d'.rows ==> s <= Newest(d'.rows);
  }

  /** The rows after an event that writes one: the new row and the old ones, but once an hour not those past the
      retention. */
  lemma RowsKept(d: Disk, config: Config, events: seq<Event>, i: nat)
    requires Newest(d.rows) == d.top && config.retainMs > 0 && i < |events| && Writes(d, config, events, i)
    ensures events[i].Packet?
    ensures Kept(Run(d, config, events[..i]).1, Run(d, config, events[..i + 1]).1, config, events[i].call,
                 HourPassed(d, config, events, i) && events[i].call.prunes)
  {
    var (w, d') := Run(d, config, events[..i]);
    RunStep(d, config, events, i);
    NextIsNew(d, config, events[..i]);
    PruneRemembered(d, config, events, i);
    RowsAfter(w, d', Run(d, config, events[..i + 1]).1, config, events[i]);
  }

  lemma RowsAfter(w: Writer, d: Disk, d': Disk, config: Config, e: Event)
    requires d' == Step(w, d, config, e).1 && d'.top > d.top && d.top + 1 !in d.rows && config.retainMs >= 0
    ensures e.Packet? && Kept(d, d', config, e.call, e.call.now - w.lastPrune >= 3600.0 && e.call.prunes)
  {
    StepRows(w, d, config, e);
  }

  lemma PruneRemembered(d: Disk, config: Config, events: seq<Event>, i: nat)
    requires i <= |events|
    ensures Run(d, config, events[..i]).0.lastPrune == LastPrune(d, config, events, i)
  {
    RunRemembers(d, config, events, i);
  }
}
