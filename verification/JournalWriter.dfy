/** Writing the journal: failures, reopening, a full disk, and the numbers the packets carry
    (agent_journal.py, `Journal`). */
module JournalWriter {
  import opened Wrappers
  import opened JournalPages

  const RETRY_FIRST := 5.0
  const RETRY_MAX := 300.0
  const DISK_CHECK := 60.0
  const PRUNE_EVERY := 3600.0

  /** The journal file: its rows, and the highest number SQLite has ever given one. */
  datatype Disk = Disk(rows: Rows, top: nat)

  datatype Health = Fine | Failing | DiskLow

  datatype Config = Config(interval: real, retainMs: int, minFree: int)

  /** The writer's fields; `known` is a known agent id, `lastKey` None before the first row. */
  datatype Writer = Writer(
    isOpen: bool, known: bool, lastSeq: nat, health: Health, retryAt: real, backoff: real,
    lastKey: Option<nat>, lastWrite: real, lastPrune: real, lastCheck: real)

  const NEW := Writer(false, false, 0, Fine, 0.0, RETRY_FIRST, None, 0.0, 0.0, -1000000000000000000.0)

  /** One packet handed to `record`. `key` is what `_change_key` makes of it, `errors` whether it carries messages;
      the rest is what the disk does: free bytes if they can be told, whether opening, writing and pruning work. */
  datatype Call = Call(now: real, ts: int, size: nat, key: nat, errors: bool,
                       free: Option<int>, opens: bool, writes: bool, prunes: bool)

  function Fail(w: Writer, now: real): Writer {
    w.(isOpen := false, health := Failing, retryAt := now + w.backoff,
       backoff := if w.backoff * 2.0 < RETRY_MAX then w.backoff * 2.0 else RETRY_MAX)
  }

  function OpenDb(w: Writer, d: Disk, now: real, opens: bool): Writer {
    if opens then w.(isOpen := true, known := true, lastSeq := Newest(d.rows)) else Fail(w, now)
  }

  /** Writes pause below the limit and go on at a tenth above it. */
  function DiskOk(w: Writer, config: Config, now: real, free: Option<int>): (Writer, bool) {
    if now - w.lastCheck < DISK_CHECK then (w, !w.health.DiskLow?) else
      var w' := w.(lastCheck := now);
      if config.minFree == 0 || free.None? then (w', !w.health.DiskLow?)
      else if w.health.DiskLow? then
        if free.value * 10 < config.minFree * 11 then (w', false)
        else (w'.(health := if w.isOpen then Fine else Failing), true)
      else if free.value < config.minFree then (w'.(health := DiskLow), false)
      else (w', true)
  }

  predicate Due(w: Writer, config: Config, c: Call) {
    Some(c.key) != w.lastKey || c.errors || c.now - w.lastWrite >= config.interval
  }

  function Prune(d: Disk, cutoff: int): Disk {
    d.(rows := map s | s in d.rows && d.rows[s].ts >= cutoff :: d.rows[s])
  }

  function Written(w: Writer, d: Disk, config: Config, c: Call): (Writer, Disk) {
    var top := d.top + 1;
    var d' := Disk(d.rows[top := Entry(c.ts, c.size)], top);
    var prune := c.now - w.lastPrune >= PRUNE_EVERY;
    (w.(health := Fine, backoff := RETRY_FIRST, lastSeq := top, lastKey := Some(c.key), lastWrite := c.now,
        lastPrune := if prune then c.now else w.lastPrune),
     if prune && c.prunes then Prune(d', c.ts - config.retainMs) else d')
  }

  /** One packet: the writer and the file afterwards. */
  function Record(w: Writer, d: Disk, config: Config, c: Call): (Writer, Disk) {
    var (checked, ok) := DiskOk(w, config, c.now, c.free);
    if !ok || (!checked.isOpen && c.now < checked.retryAt) then (checked, d) else
      var ready := if checked.isOpen then checked else OpenDb(checked, d, c.now, c.opens);
      if !ready.isOpen || !Due(ready, config, c) then (ready, d)
      else if !c.writes then (Fail(ready, c.now), d)
      else Written(ready, d, config, c)
  }

  // ------------------------------------------------------------------
  // The writer object
  // ------------------------------------------------------------------

  class Journal {
    const config: Config
    var disk: Disk
    var isOpen: bool
    var known: bool
    var lastSeq: nat
    var health: Health
    var retryAt: real
    var backoff: real
    var lastKey: Option<nat>
    var lastWrite: real
    var lastPrune: real
    var lastCheck: real

    function Fields(): Writer
      reads this
    {
      Writer(isOpen, known, lastSeq, health, retryAt, backoff, lastKey, lastWrite, lastPrune, lastCheck)
    }

    constructor (config: Config, disk: Disk, now: real, opens: bool)
      ensures this.config == config && this.disk == disk && Fields() == OpenDb(NEW, disk, now, opens)
    {
      this.config, this.disk := config, disk;
      isOpen, known, lastSeq, health := false, false, 0, Fine;
      retryAt, backoff, lastKey := 0.0, RETRY_FIRST, None;
      lastWrite, lastPrune, lastCheck := 0.0, 0.0, -1000000000000000000.0;
      new;
      Open(now, opens);
    }

    method FailNow(now: real)
      modifies this`isOpen, this`health, this`retryAt, this`backoff
      ensures Fields() == Fail(old(Fields()), now)
    {
      isOpen, health, retryAt := false, Failing, now + backoff;
      backoff := if backoff * 2.0 < RETRY_MAX then backoff * 2.0 else RETRY_MAX;
    }

    method Open(now: real, opens: bool)
      modifies this`isOpen, this`known, this`lastSeq, this`health, this`retryAt, this`backoff
      ensures Fields() == OpenDb(old(Fields()), disk, now, opens)
    {
      if !opens {
        FailNow(now);
        return;
      }
      isOpen, known, lastSeq := true, true, Newest(disk.rows);
    }

    method CheckDisk(now: real, free: Option<int>) returns (ok: bool)
      modifies this`health, this`lastCheck
      ensures (Fields(), ok) == DiskOk(old(Fields()), config, now, free)
    {
      if now - lastCheck < DISK_CHECK {
        return !health.DiskLow?;
      }
      lastCheck := now;
      if config.minFree == 0 || free.None? {
        return !health.DiskLow?;
      }
      if health.DiskLow? {
        if free.value * 10 < config.minFree * 11 {
          return false;
        }
        health := if isOpen then Fine else Failing;
        return true;
      }
      if free.value < config.minFree {
        health := DiskLow;
        return false;
      }
      return true;
    }

    method Write(c: Call)
      modifies this`disk, this`health, this`backoff, this`lastSeq, this`lastKey, this`lastWrite, this`lastPrune
      ensures (Fields(), disk) == Written(old(Fields()), old(disk), config, c)
    {
      disk := Disk(disk.rows[disk.top + 1 := Entry(c.ts, c.size)], disk.top + 1);
      health, backoff, lastSeq := Fine, RETRY_FIRST, disk.top;
      lastKey, lastWrite := Some(c.key), c.now;
      if c.now - lastPrune >= PRUNE_EVERY {
        lastPrune := c.now;
        if c.prunes {
          disk := Prune(disk, c.ts - config.retainMs);
        }
      }
    }

    /** The new number, or None if nothing was written. */
    method RecordPacket(c: Call) returns (written: Option<nat>)
      modifies this
      ensures (Fields(), disk) == Record(old(Fields()), old(disk), config, c)
      ensures written == if disk.top > old(disk).top then Some(lastSeq) else None
    {
      var ok := CheckDisk(c.now, c.free);
      if !ok {
        return None;
      }
      if !isOpen {
        if c.now < retryAt {
          return None;
        }
        Open(c.now, c.opens);
        if !isOpen {
          return None;
        }
      }
      if !Due(Fields(), config, c) {
        return None;
      }
      if !c.writes {
        FailNow(c.now);
        return None;
      }
      Write(c);
      return Some(lastSeq);
    }
  }

  // ------------------------------------------------------------------
  // A full disk, a broken file
  // ------------------------------------------------------------------

  function RecordAll(w: Writer, d: Disk, config: Config, calls: seq<Call>): (Writer, Disk) {
    if calls == [] then (w, d) else
      var (w', d') := RecordAll(w, d, config, calls[..|calls| - 1]);
      Record(w', d', config, calls[|calls| - 1])
  }

  /** No check shows a tenth more than the limit free. */
  predicate NoSpare(config: Config, calls: seq<Call>) {
    forall i :: 0 <= i < |calls| ==> calls[i].free.None? || calls[i].free.value * 10 < config.minFree * 11
  }

  /** Once paused, nothing is written until a check shows a tenth more than the limit free. */
  lemma {:induction false} PausedUntilSpare(w: Writer, d: Disk, config: Config, calls: seq<Call>)
    requires w.health.DiskLow? && NoSpare(config, calls)
    ensures RecordAll(w, d, config, calls).0.health.DiskLow? && RecordAll(w, d, config, calls).1 == d
  {
    if calls != [] {
      PausedUntilSpare(w, d, config, calls[..|calls| - 1]);
    }
  }

  /** A check that shows less than the limit free pauses, one with a tenth more resumes; in between all stays as it
      was. */
  lemma CheckDecides(w: Writer, config: Config, now: real, free: int)
    requires config.minFree > 0 && now - w.lastCheck >= 60.0
    ensures var (w', ok) := DiskOk(w, config, now, Some(free));
            && (ok <==> !w'.health.DiskLow?)
            && (free < config.minFree ==> !ok)
            && (free * 10 >= config.minFree * 11 ==> ok)
            && (free >= config.minFree && free * 10 < config.minFree * 11 ==> w'.health == w.health)
            && (ok && w.health.DiskLow? ==> w'.health == if w.isOpen then Fine else Failing)
            && (ok && !w.health.DiskLow? ==> w'.health == w.health)
  {
  }

  /** What a check says stands for the next minute, whatever the disk does; and where the limit is off or the free space
      cannot be told, nothing changes. */
  lemma VerdictStands(w: Writer, config: Config, now: real, free: Option<int>, later: real, other: Option<int>)
    requires now - w.lastCheck >= 60.0 && later - now < 60.0
    ensures var (w', ok) := DiskOk(w, config, now, free); DiskOk(w', config, later, other) == (w', ok)
    ensures config.minFree == 0 || free.None? ==>
              var (w', ok) := DiskOk(w, config, now, free); w'.health == w.health && (ok <==> !w.health.DiskLow?)
  {
  }

  function FailTimes(w: Writer, times: seq<real>): Writer {
    if times == [] then w else Fail(FailTimes(w, times[..|times| - 1]), times[|times| - 1])
  }

  function Doubled(n: nat): real { if n == 0 then 5.0 else 2.0 * Doubled(n - 1) }

  /** After each failure in a row the file is tried again 5, 10, 20, ... seconds later, never later than 300. */
  lemma {:induction false} RetriesDouble(w: Writer, times: seq<real>)
    requires w.backoff == RETRY_FIRST
    ensures var n := |times|; var w' := FailTimes(w, times);
            && Doubled(n) >= RETRY_FIRST
            && w'.backoff == (if Doubled(n) < 300.0 then Doubled(n) else 300.0)
            && (n > 0 ==>
                  && !w'.isOpen && w'.health.Failing?
                  && w'.retryAt - times[n - 1] == if Doubled(n - 1) < 300.0 then Doubled(n - 1) else 300.0)
  {
    if times != [] {
      RetriesDouble(w, times[..|times| - 1]);
    }
  }

  // ------------------------------------------------------------------
  // The numbers in the packets
  // ------------------------------------------------------------------

  /** What the agent goes through: a packet, `sent` if it leaves after it has been recorded (it does not when it cannot
      be serialised, or the agent crashes first), or a restart, with what opening the file does. */
  datatype Event = Packet(call: Call, sent: bool) | Restart(now: real, opens: bool)

  function Step(w: Writer, d: Disk, config: Config, e: Event): (Writer, Disk) {
    match e
    case Packet(c, _) => Record(w, d, config, c)
    case Restart(now, opens) => (OpenDb(NEW, d, now, opens), d)
  }

  function Run(d: Disk, config: Config, events: seq<Event>): (Writer, Disk) {
    if events == [] then (NEW, d) else
      var (w, d') := Run(d, config, events[..|events| - 1]);
      Step(w, d', config, events[|events| - 1])
  }

  /** The `journal_seq` of the packet built at event i, if it carries one. */
  function Carried(d: Disk, config: Config, events: seq<Event>, i: nat): Option<nat>
    requires i < |events|
  {
    var (w, _) := Run(d, config, events[..i + 1]);
    if events[i].Packet? && events[i].sent && w.known then Some(w.lastSeq) else None
  }

  /** Pruning never takes the newest row, so the highest row present is the last number given. */
  predicate Consistent(w: Writer, d: Disk) {
    Newest(d.rows) == d.top && (w.isOpen ==> w.known) && (w.known ==> w.lastSeq == d.top)
    && RETRY_FIRST <= w.backoff <= RETRY_MAX
  }

  lemma NewestIs(rows: Rows, s: nat)
    requires s in rows && forall t :: t in rows ==> t <= s
    ensures Newest(rows) == s
  {
  }

  lemma WrittenKeeps(w: Writer, d: Disk, config: Config, c: Call)
    requires Consistent(w, d) && w.isOpen && config.retainMs > 0
    ensures var (w', d') := Written(w, d, config, c); Consistent(w', d') && d'.top == d.top + 1
  {
    var (_, d') := Written(w, d, config, c);
    assert forall t :: t in d.rows ==> t <= Newest(d.rows);
    NewestIs(d'.rows, d.top + 1);
  }

  lemma StepKeeps(w: Writer, d: Disk, config: Config, e: Event)
    requires Consistent(w, d) && config.retainMs > 0
    ensures var (w', d') := Step(w, d, config, e);
            && Consistent(w', d') && d.top <= d'.top <= d.top + 1
            && (d'.top > d.top ==> e.Packet? && w'.known)
  {
    if e.Packet? {
      var c := e.call;
      var (checked, ok) := DiskOk(w, config, c.now, c.free);
      var ready := if checked.isOpen then checked else OpenDb(checked, d, c.now, c.opens);
      if ready.isOpen {
        WrittenKeeps(ready, d, config, c);
      }
    }
  }

  lemma {:induction false} RunKeeps(d: Disk, config: Config, events: seq<Event>)
    requires Newest(d.rows) == d.top && config.retainMs > 0
    ensures Consistent(Run(d, config, events).0, Run(d, config, events).1)
  {
    if events != [] {
      RunKeeps(d, config, events[..|events| - 1]);
      var (w, d') := Run(d, config, events[..|events| - 1]);
      StepKeeps(w, d', config, events[|events| - 1]);
    }
  }

  /** A row is written at event i. */
  predicate Writes(d: Disk, config: Config, events: seq<Event>, i: nat)
    requires i < |events|
  {
    Run(d, config, events[..i + 1]).1.top > Run(d, config, events[..i]).1.top
  }

  /** The rows of events i .. j - 1 whose packets never leave. */
  function Unsent(d: Disk, config: Config, events: seq<Event>, i: nat, j: nat): nat
    requires i <= j <= |events|
    decreases j - i
  {
    if i == j then 0 else
      Unsent(d, config, events, i, j - 1) + if Lost(d, config, events, j - 1) then 1 else 0
  }

  predicate Lost(d: Disk, config: Config, events: seq<Event>, i: nat)
    requires i < |events|
  {
    events[i].Packet? && !events[i].sent && Writes(d, config, events, i)
  }

  lemma QuietEvent(d: Disk, config: Config, events: seq<Event>, i: nat)
    requires Newest(d.rows) == d.top && config.retainMs > 0 && i < |events| && Carried(d, config, events, i).None?
    ensures Run(d, config, events[..i + 1]).1.top
         == Run(d, config, events[..i]).1.top + if Lost(d, config, events, i) then 1 else 0
  {
    EventMoves(d, config, events, i);
  }

  lemma RunStep(d: Disk, config: Config, events: seq<Event>, i: nat)
    requires i < |events|
    ensures var (w, d') := Run(d, config, events[..i]);
            Run(d, config, events[..i + 1]) == Step(w, d', config, events[i])
  {
    assert events[..i + 1][..i] == events[..i];
  }

  /** One event: a row more if it writes one, and then the packet carries its number unless it never leaves. */
  lemma EventMoves(d: Disk, config: Config, events: seq<Event>, i: nat)
    requires Newest(d.rows) == d.top && config.retainMs > 0 && i < |events|
    ensures var (w, d') := Run(d, config, events[..i]); var (w1, d1) := Run(d, config, events[..i + 1]);
            && Consistent(w1, d1)
            && d1.top == d'.top + (if Writes(d, config, events, i) then 1 else 0)
            && (Writes(d, config, events, i) ==> events[i].Packet? && w1.known)
  {
    var (w, d') := Run(d, config, events[..i]);
    RunKeeps(d, config, events[..i]);
    RunStep(d, config, events, i);
    StepKeeps(w, d', config, events[i]);
  }

  /** While no packet carries a number, only rows whose packets never leave are written. */
  lemma {:induction false} QuietKeepsTop(d: Disk, config: Config, events: seq<Event>, i: nat, j: nat)
    requires Newest(d.rows) == d.top && config.retainMs > 0 && i <= j <= |events|
    requires forall k :: i <= k < j ==> Carried(d, config, events, k).None?
    ensures Run(d, config, events[..j]).1.top == Run(d, config, events[..i]).1.top + Unsent(d, config, events, i, j)
    decreases j - i
  {
    if i < j {
      QuietKeepsTop(d, config, events, i, j - 1);
      assert Carried(d, config, events, j - 1).None?;
      QuietEvent(d, config, events, j - 1);
    }
  }

  /** Over failed writes and opens, a full disk, prunes, crashes and restarts: from one packet that carries a number to
      the next, the number grows by the rows in between whose packets never left, and by 1 if this packet was written.
      So it grows by more than 1 exactly when such a row was lost. */
  lemma NumbersStep(d: Disk, config: Config, events: seq<Event>, i: nat, j: nat)
    requires Newest(d.rows) == d.top && config.retainMs > 0 && i < j < |events|
    requires Carried(d, config, events, i).Some? && Carried(d, config, events, j).Some?
    requires forall k :: i < k < j ==> Carried(d, config, events, k).None?
    ensures Carried(d, config, events, j).value - Carried(d, config, events, i).value
         == Unsent(d, config, events, i + 1, j) + if Writes(d, config, events, j) then 1 else 0
  {
    QuietKeepsTop(d, config, events, i + 1, j);
    EventMoves(d, config, events, i);
    EventMoves(d, config, events, j);
  }

  lemma {:induction false} NoneUnsent(d: Disk, config: Config, events: seq<Event>, i: nat, j: nat)
    requires i <= j <= |events| && forall k :: i <= k < j && events[k].Packet? ==> events[k].sent
    ensures Unsent(d, config, events, i, j) == 0
    decreases j - i
  {
    if i < j {
      NoneUnsent(d, config, events, i, j - 1);
    }
  }

  /** As long as every recorded packet leaves, consecutive packets that carry a number differ by 0 or 1. */
  lemma NumbersStepByOne(d: Disk, config: Config, events: seq<Event>, i: nat, j: nat)
    requires Newest(d.rows) == d.top && config.retainMs > 0 && i < j < |events|
    requires Carried(d, config, events, i).Some? && Carried(d, config, events, j).Some?
    requires forall k :: i < k < j ==> Carried(d, config, events, k).None?
    requires forall k :: i < k < j && events[k].Packet? ==> events[k].sent
    ensures var step := Carried(d, config, events, j).value - Carried(d, config, events, i).value;
            step == 0 || step == 1
  {
    NumbersStep(d, config, events, i, j);
    NoneUnsent(d, config, events, i + 1, j);
  }

  const CONFIG := Config(60.0, 1000, 0)

  /** A packet at time `t` that finds a working file, with something new in it. */
  function NewPacket(t: nat, sent: bool): Event {
    Packet(Call(t as real, t, 100, t, false, None, true, true, true), sent)
  }

  /** Nothing keeps the writer from recording: its disk is not known to be full, and an hour has not passed. */
  predicate Ready(w: Writer, t: nat) {
    && !w.health.DiskLow? && (w.isOpen ==> w.known) && (w.isOpen || w.retryAt <= t as real) && w.lastKey != Some(t)
    && t as real - w.lastPrune < PRUNE_EVERY
  }

  lemma NewWritten(w: Writer, d: Disk, t: nat)
    requires Ready(w, t)
    ensures var (w', d') := Record(w, d, CONFIG, NewPacket(t, true).call);
            && d'.top == w'.lastSeq == d.top + 1 && w'.known && w'.isOpen && w'.health.Fine?
            && w'.lastPrune == w.lastPrune && w'.lastKey == Some(t)
  {
  }

  /** A row is recorded, and the agent crashes before its packet is sent: the next packet is two numbers on. */
  lemma NumberSkipped()
    ensures var events := [NewPacket(1, true), NewPacket(2, false), Restart(3.0, true), NewPacket(4, true)];
            var d := Disk(map[], 0);
            && Newest(d.rows) == d.top
            && Carried(d, CONFIG, events, 0) == Some(1) && Carried(d, CONFIG, events, 3) == Some(3)
            && Carried(d, CONFIG, events, 1).None? && Carried(d, CONFIG, events, 2).None?
  {
    var events := [NewPacket(1, true), NewPacket(2, false), Restart(3.0, true), NewPacket(4, true)];
    var d := Disk(map[], 0);
    RunStep(d, CONFIG, events, 0);
    RunStep(d, CONFIG, events, 1);
    RunStep(d, CONFIG, events, 2);
    RunStep(d, CONFIG, events, 3);
    var (w1, d1) := Run(d, CONFIG, events[..1]);
    var (w2, d2) := Run(d, CONFIG, events[..2]);
    NewWritten(NEW, d, 1);
    NewWritten(w1, d1, 2);
    NewWritten(OpenDb(NEW, d2, 3.0, true), d2, 4);
  }
}
