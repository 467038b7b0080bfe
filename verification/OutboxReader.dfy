/** The reader object itself (agent_mes_link.py, `OutboxReader`): its one pass is the four statements of OutboxCopy
    in a row, and its operator readout is the last login state in the outbox. */
module OutboxReader {
  import opened Wrappers
  import opened MesSpool
  import opened OC = OutboxCopy

  const LOGIN := "operator.session_started"
  const LOGOUT := "operator.session_ended"

  predicate IsOperator(e: Event) { e.kind == LOGIN || e.kind == LOGOUT }

  /** The number of the operator event shown, and who it logs in, if anyone. */
  datatype View = View(number: nat, operator: Option<Event>)

  function Shown(number: nat, e: Event): View {
    View(number, if e.kind == LOGIN then Some(e) else None)
  }

  function See(v: View, number: nat, e: Event): View {
    if number <= v.number || !IsOperator(e) then v else Shown(number, e)
  }

  function SeeAll(v: View, numbers: seq<nat>, events: seq<Event>): View
    requires |numbers| == |events|
  {
    if numbers == [] then v else
      var n := |numbers| - 1;
      See(SeeAll(v, numbers[..n], events[..n]), numbers[n], events[n])
  }

  /** The login state after the first `n` events of an outbox, pruned or not. */
  function LastLogin(history: seq<Event>, n: nat): View
    requires n <= |history|
  {
    if n == 0 then View(0, None)
    else if IsOperator(history[n - 1]) then Shown(n, history[n - 1])
    else LastLogin(history, n - 1)
  }

  /** The same of the rows still there: what one query at a start finds. */
  function LastPresent(box: Box, n: nat): View
    requires n <= |box.history|
  {
    if n == 0 then View(0, None)
    else if n !in box.gone && IsOperator(box.history[n - 1]) then Shown(n, box.history[n - 1])
    else LastPresent(box, n - 1)
  }

  /** Event i, counted from 0, is a login, and no login or logout follows it among the first `n`. */
  predicate LastsFrom(history: seq<Event>, i: int, n: nat) {
    && 0 <= i < n <= |history| && history[i].kind == "operator.session_started"
    && forall j :: i < j < n ==>
         history[j].kind != "operator.session_started" && history[j].kind != "operator.session_ended"
  }

  /** Somebody is logged in after `n` events exactly if one of them is that login and no login or logout comes after
      it; the number shown is the event's. */
  lemma {:induction false} LastLoginMeans(history: seq<Event>, n: nat)
    requires n <= |history|
    ensures forall i :: LastsFrom(history, i, n) ==> LastLogin(history, n) == View(i + 1, Some(history[i]))
    ensures LastLogin(history, n).operator.Some? ==> LastsFrom(history, LastLogin(history, n).number - 1, n)
    decreases n
  {
    if n > 0 {
      LastLoginMeans(history, n - 1);
      var now := history[n - 1];
      if now.kind == "operator.session_started" || now.kind == "operator.session_ended" {
        assert IsOperator(now);
        forall i | LastsFrom(history, i, n) ensures i == n - 1 {
        }
      } else {
        forall i ensures LastsFrom(history, i, n) <==> LastsFrom(history, i, n - 1) {
        }
      }
    }
  }

  lemma {:induction false} LastLoginBounds(history: seq<Event>, n: nat, m: nat)
    requires m <= n <= |history|
    ensures LastLogin(history, m).number <= LastLogin(history, n).number <= n
    ensures LastLogin(history, n).number <= m ==> LastLogin(history, n) == LastLogin(history, m)
    ensures m > 0 && IsOperator(history[m - 1]) ==> m <= LastLogin(history, n).number
    decreases n
  {
    if m < n {
      LastLoginBounds(history, n - 1, m);
    } else if n > 0 {
      LastLoginBounds(history, n - 1, n - 1);
    }
  }

  lemma {:induction false} LastPresentBounds(box: Box, n: nat, m: nat)
    requires m <= n <= |box.history|
    ensures LastPresent(box, n).number <= n
    ensures m > 0 && m !in box.gone && IsOperator(box.history[m - 1]) ==> m <= LastPresent(box, n).number
    decreases n
  {
    if m < n {
      LastPresentBounds(box, n - 1, m);
    } else if n > 0 {
      LastPresentBounds(box, n - 1, n - 1);
    }
  }

  /** A start shows the true login state if and only if the row that says so has not been pruned. */
  lemma {:induction false} StartShows(box: Box, n: nat)
    requires n <= |box.history| && 0 !in box.gone
    ensures LastPresent(box, n) == LastLogin(box.history, n) <==> LastLogin(box.history, n).number !in box.gone
    decreases n
  {
    if n > 0 {
      StartShows(box, n - 1);
      LastPresentBounds(box, n - 1, n - 1);
    }
  }

  lemma {:induction false} LastLoginPrefix(history: seq<Event>, longer: seq<Event>, n: nat)
    requires history <= longer && n <= |history|
    ensures LastLogin(longer, n) == LastLogin(history, n)
    decreases n
  {
    if n > 0 {
      LastLoginPrefix(history, longer, n - 1);
    }
  }

  /** What a reader shows that started at `from` with `base` and has seen the first `k` events. */
  function Since(history: seq<Event>, from: nat, base: View, k: nat): View
    requires k <= |history|
  {
    if LastLogin(history, k).number > from then LastLogin(history, k) else base
  }

  /** No operator event in (p, from] was missed at the start. */
  predicate NoneMissed(history: seq<Event>, p: nat, from: nat, base: View) {
    forall j {:trigger history[j - 1]} :: p < j <= from <= |history| && IsOperator(history[j - 1]) ==> j <= base.number
  }

  lemma SeesOne(history: seq<Event>, from: nat, base: View, k: nat, j: nat)
    requires from <= k <= |history| && 0 < j <= k + 1 && j <= |history| && base.number <= from
    requires j <= from && IsOperator(history[j - 1]) ==> j <= base.number
    ensures See(Since(history, from, base, k), j, history[j - 1]) == Since(history, from, base, if k < j then j else k)
  {
    LastLoginBounds(history, k, k);
    if j <= k {
      LastLoginBounds(history, k, j);
    }
  }

  function Later(k: nat, n: nat): nat { if k < n then n else k }

  /** Seeing a batch that starts at or before `k` shows the login state after the later of the two; rows pruned
      meanwhile do not matter. */
  lemma {:induction false} FollowsLogins(history: seq<Event>, from: nat, base: View, k: nat, p: nat,
                                         numbers: seq<nat>, events: seq<Event>)
    requires p <= k && from <= k <= |history| && p + |numbers| <= |history| && base.number <= from
    requires NoneMissed(history, p, from, base)
    requires |events| == |numbers| && forall i :: 0 <= i < |numbers| ==> numbers[i] == p + 1 + i
    requires forall i :: 0 <= i < |numbers| ==> events[i] == history[p + i]
    ensures SeeAll(Since(history, from, base, k), numbers, events)
         == Since(history, from, base, Later(k, p + |numbers|))
    decreases numbers
  {
    if numbers != [] {
      var n := |numbers| - 1;
      FollowsLogins(history, from, base, k, p, numbers[..n], events[..n]);
      SeesOne(history, from, base, Later(k, p + n), p + n + 1);
    }
  }

  /** What the contract says of each event of a batch. */
  function Verdicts(accepts: Event -> bool, events: seq<Event>): seq<bool> {
    seq(|events|, i requires 0 <= i < |events| => accepts(events[i]))
  }

  /** Connect, select, commit, acknowledge, with nothing in between. */
  function Pass(w: World, accepts: Event -> bool, full: bool, uuid: nat): World
    requires Shaped(w) && w.phase.Idle?
  {
    var fetched := Act(false, Act(false, w, Connect), Select);
    ActShaped(false, w, Connect);
    ActShaped(false, Act(false, w, Connect), Select);
    var committed := Store(fetched, Verdicts(accepts, fetched.phase.events), full, uuid);
    Act(false, committed, WriteAck)
  }

  class OutboxReader {
    const spool: Spool
    var ack: Option<Ack>
    var epoch: Option<nat>
    var view: View

    constructor (spool: Spool, ack: Option<Ack>)
      ensures this.spool == spool && this.ack == ack && epoch == None && view == View(0, None)
    {
      this.spool, this.ack, epoch, view := spool, ack, None, View(0, None);
    }

    /** At the start and for a fresh epoch: the latest login state. */
    method Start(epoch: nat, box: Box)
      modifies this`epoch, this`view
      ensures this.epoch == Some(epoch)
      ensures view == if old(this.epoch) == Some(epoch) then old(view) else LastPresent(box, |box.history|)
    {
      if this.epoch != Some(epoch) {
        this.epoch, view := Some(epoch), View(0, None);
        var last: nat := |box.history|;
        while last > 0 && (last in box.gone || !IsOperator(box.history[last - 1]))
          invariant last <= |box.history| && LastPresent(box, |box.history|) == LastPresent(box, last)
          invariant this.epoch == Some(epoch) && view == View(0, None)
        {
          last := last - 1;
        }
        if last > 0 {
          SeeOperator(last, box.history[last - 1]);
        }
      }
    }

    method SeeOperator(number: nat, e: Event)
      modifies this`view
      ensures view == See(old(view), number, e)
    {
      if number <= view.number || !IsOperator(e) {
        return;
      }
      view := Shown(number, e);
    }

    method SeeBatch(numbers: seq<nat>, events: seq<Event>)
      requires |numbers| == |events|
      modifies this`view
      ensures view == SeeAll(old(view), numbers, events)
    {
      for i := 0 to |numbers|
        invariant view == SeeAll(old(view), numbers[..i], events[..i])
      {
        assert numbers[..i + 1][..i] == numbers[..i] && events[..i + 1][..i] == events[..i];
        SeeOperator(numbers[i], events[i]);
      }
      assert numbers[..|numbers|] == numbers && events[..|events|] == events;
    }

    /** Reads one batch of the current outbox `w.boxes[last]` and returns how many events were stored. */
    method Step(w: World, accepts: Event -> bool, bytes: nat, uuid: nat, written: bool) returns (n: nat)
      requires Shaped(w) && w.phase.Idle? && w.ack == ack && w.db == spool.db && spool.db.meta == Some(spool.me)
      modifies this, spool
      ensures var w' := Pass(w, accepts, bytes >= spool.budget, uuid);
              spool.db == w'.db && ack == w'.ack && n == w'.db.lastRow - w.db.lastRow
      ensures epoch == Some(Current(w))
      ensures var box := w.boxes[Current(w)];
              var start := if old(epoch) == epoch then old(view) else LastPresent(box, |box.history|);
              var fetched := Read(w.db, Current(w), box);
              view == SeeAll(start, fetched.numbers, fetched.events)
    {
      var e := Current(w);
      var box := w.boxes[e];
      Start(e, box);
      var from := Position(spool.db, e);
      AboveBounds(box, from, BATCH);
      var numbers := Above(box, from, BATCH);
      var events := Bodies(box, numbers);
      SeeBatch(numbers, events);
      n := StoreBatch(w, numbers, events, accepts, bytes, uuid, written);
    }

    method StoreBatch(w: World, numbers: seq<nat>, events: seq<Event>, accepts: Event -> bool,
                      bytes: nat, uuid: nat, written: bool) returns (n: nat)
      requires Shaped(w) && w.ack == ack && w.db == spool.db && spool.db.meta == Some(spool.me)
      requires |numbers| == |events|
      modifies this`ack, spool
      ensures var full := bytes >= spool.budget;
              var w' := Act(false, Store(w.(phase := Fetched(Current(w), numbers, events)),
                                         Verdicts(accepts, events), full, uuid), WriteAck);
              spool.db == w'.db && ack == w'.ack && n == w'.db.lastRow - w.db.lastRow
    {
      var e := Current(w);
      if numbers == [] {
        if SOURCE in spool.db.cursors && spool.db.cursors[SOURCE].epoch == e {
          ack := Some(Ack(e, spool.db.cursors[SOURCE].position));
        }
        return 0;
      }
      var items := AsItems(events, Verdicts(accepts, events));
      var r := spool.AppendLocked(items, Some(Cursor(SOURCE, e, Last(numbers))), false, bytes, uuid, written);
      if r.Err? {
        return 0;
      }
      StoresEach(Work(w.db, Meta(w.db)), items, uuid);
      ack := Some(Ack(e, Last(numbers)));
      return |numbers|;
    }
  }

  // ------------------------------------------------------------------
  // The readout over a whole run
  // ------------------------------------------------------------------

  /** OutboxCopy's world with what the reader shows in it. The last three remember where the reader started in this
      epoch, what it showed then, and how many events it has seen. */
  datatype Watch = Watch(w: World, epoch: Option<nat>, view: View, from: nat, base: View, seen: nat)

  const UNSTARTED := Watch(OC.FIRST, None, View(0, None), 0, View(0, None), 0)

  function Seeing(x: Watch, a: Action): Watch
    requires Shaped(x.w)
  {
    var w := Act(false, x.w, a);
    ActShaped(false, x.w, a);
    if !Enabled(x.w, a) then x else
      match a
      case Connect =>
        var box := x.w.boxes[Current(x.w)];
        var view := LastPresent(box, |box.history|);
        if x.epoch == Some(Current(x.w)) then x.(w := w)
        else Watch(w, Some(Current(x.w)), view, |box.history|, view, |box.history|)
      case Select =>
        var p := Position(x.w.db, x.w.phase.epoch);
        x.(w := w, view := SeeAll(x.view, w.phase.numbers, w.phase.events),
           seen := Later(x.seen, p + |w.phase.numbers|))
      case Crash => Watch(w, None, View(0, None), 0, View(0, None), 0)
      case _ => x.(w := w)
  }

  function WatchAll(actions: seq<Action>): (x: Watch)
    ensures Shaped(x.w)
  {
    if actions == [] then UNSTARTED else
      ActShaped(false, WatchAll(actions[..|actions| - 1]).w, actions[|actions| - 1]);
      Seeing(WatchAll(actions[..|actions| - 1]), actions[|actions| - 1])
  }

  predicate Shows(x: Watch, history: seq<Event>) {
    && x.from <= x.seen <= |history| && x.base.number <= x.from
    && x.view == Since(history, x.from, x.base, x.seen)
  }

  predicate WatchOk(x: Watch)
    requires Shaped(x.w)
  {
    if x.epoch.None? then x.w.phase.Idle? else
      var e := x.epoch.value;
      && e < |x.w.boxes| && (!x.w.phase.Idle? ==> x.w.phase.epoch == e)
      && Shows(x, x.w.boxes[e].history)
      && |x.w.stored[e]| <= x.seen && NoneMissed(x.w.boxes[e].history, |x.w.stored[e]|, x.from, x.base)
      && (x.w.phase.Fetched? ==> |x.w.stored[e]| + |x.w.phase.numbers| <= x.seen)
  }

  lemma ConnectWatched(x: Watch)
    requires Shaped(x.w) && OC.Inv(x.w) && WatchOk(x) && x.w.phase.Idle?
    ensures WatchOk(Seeing(x, Connect))
  {
    var e := Current(x.w);
    var box := x.w.boxes[e];
    var n := |box.history|;
    assert Exact(x.w, e);
    if x.epoch != Some(e) {
      var view := LastPresent(box, n);
      LastPresentBounds(box, n, n);
      LastLoginBounds(box.history, n, n);
      forall j {:trigger box.history[j - 1]} | |x.w.stored[e]| < j <= n && IsOperator(box.history[j - 1])
        ensures j <= view.number
      {
        LastPresentBounds(box, n, j);
      }
    }
  }

  /** The rows a SELECT brings are those right after what is stored. */
  lemma SelectBrings(w: World)
    requires Shaped(w) && OC.Inv(w) && w.phase.Connected?
    ensures var e := w.phase.epoch; var w' := Act(false, w, Select); var p := |w.stored[e]|;
            && w'.phase.Fetched? && w'.phase.epoch == e && w'.boxes == w.boxes && w'.stored == w.stored
            && Position(w.db, e) == p && p + |w'.phase.numbers| <= |w.boxes[e].history|
            && |w'.phase.events| == |w'.phase.numbers|
            && (forall i :: 0 <= i < |w'.phase.numbers| ==> w'.phase.numbers[i] == p + 1 + i)
            && (forall i :: 0 <= i < |w'.phase.numbers| ==> w'.phase.events[i] == w.boxes[e].history[p + i])
  {
    var e := w.phase.epoch;
    var w' := Act(false, w, Select);
    SelectKeeps(w);
    assert Exact(w, e) && Fresh(w', e, w'.phase.numbers, w'.phase.events);
    PrefixSlice(w.stored[e], w'.phase.events, w.boxes[e].history);
  }

  lemma PrefixSlice(a: seq<Event>, b: seq<Event>, c: seq<Event>)
    requires a + b <= c
    ensures |a| + |b| <= |c| && forall i :: 0 <= i < |b| ==> b[i] == c[|a| + i]
  {
    assert forall i :: 0 <= i < |b| ==> b[i] == (a + b)[|a| + i];
  }

  lemma SelectWatched(x: Watch)
    requires Shaped(x.w) && OC.Inv(x.w) && WatchOk(x) && x.w.phase.Connected?
    ensures WatchOk(Seeing(x, Select))
  {
    var e := x.w.phase.epoch;
    var w := Act(false, x.w, Select);
    SelectBrings(x.w);
    FollowsLogins(x.w.boxes[e].history, x.from, x.base, x.seen, |x.w.stored[e]|, w.phase.numbers, w.phase.events);
  }

  lemma CommitWatched(x: Watch, a: Action)
    requires Shaped(x.w) && OC.Inv(x.w) && WatchOk(x) && a.Commit? && Enabled(x.w, a)
    ensures WatchOk(Seeing(x, a))
  {
  }

  lemma NoneMissedLonger(history: seq<Event>, longer: seq<Event>, p: nat, from: nat, base: View)
    requires history <= longer && from <= |history| && NoneMissed(history, p, from, base)
    ensures NoneMissed(longer, p, from, base)
  {
    forall j {:trigger longer[j - 1]} | p < j <= from && IsOperator(longer[j - 1]) ensures j <= base.number {
      assert history[j - 1] == longer[j - 1];
    }
  }

  lemma LogWatched(x: Watch, event: Event)
    requires Shaped(x.w) && WatchOk(x)
    ensures WatchOk(Seeing(x, Log(event)))
  {
    if x.epoch.Some? {
      var history := x.w.boxes[x.epoch.value].history;
      LastLoginPrefix(history, history + [event], x.seen);
      NoneMissedLonger(history, history + [event], |x.w.stored[x.epoch.value]|, x.from, x.base);
    }
  }

  lemma OtherWatched(x: Watch, a: Action)
    requires Shaped(x.w) && WatchOk(x) && Enabled(x.w, a)
    requires a.PruneBox? || a.FreshEpoch? || a.WriteAck? || a.Crash? || a.SpoolWork?
    ensures WatchOk(Seeing(x, a))
  {
  }

  lemma {:induction false} RunWatched(actions: seq<Action>)
    ensures OC.Inv(WatchAll(actions).w) && WatchOk(WatchAll(actions))
  {
    if actions == [] {
      FirstInv();
    } else {
      var x, a := WatchAll(actions[..|actions| - 1]), actions[|actions| - 1];
      RunWatched(actions[..|actions| - 1]);
      StepKeeps(x.w, a);
      if Enabled(x.w, a) {
        match a
        case Connect => ConnectWatched(x);
        case Select => SelectWatched(x);
        case Commit(_, _, _) => CommitWatched(x, a);
        case Log(event) => LogWatched(x, event);
        case _ => OtherWatched(x, a);
      }
    }
  }

  /** For every interleaving of appends, prunes, fresh epochs, reader statements, refused commits and crashes: a
      running reader has seen at least all it has copied, and shows the login state after what it has seen -- if it
      showed the true one when it started; otherwise what it showed then, until the next login or logout. */
  lemma ReadoutFollows(actions: seq<Action>)
    ensures var x := WatchAll(actions);
            x.epoch.Some? ==>
              && x.epoch.value < |x.w.boxes|
              && var history := x.w.boxes[x.epoch.value].history;
                 && |x.w.stored[x.epoch.value]| <= x.seen && x.from <= x.seen <= |history|
                 && x.view == Since(history, x.from, x.base, x.seen)
                 && (x.base == LastLogin(history, x.from) ==> x.view == LastLogin(history, x.seen))
  {
    RunWatched(actions);
    var x := WatchAll(actions);
    if x.epoch.Some? {
      LastLoginBounds(x.w.boxes[x.epoch.value].history, x.seen, x.from);
    }
  }

  // ------------------------------------------------------------------
  // A login that is pruned
  // ------------------------------------------------------------------

  ghost predicate Reached(x: Watch) { exists actions :: WatchAll(actions) == x }

  lemma Step(x: Watch, a: Action)
    requires Shaped(x.w) && Reached(x)
    ensures Shaped(Seeing(x, a).w) && Reached(Seeing(x, a))
  {
    var actions :| WatchAll(actions) == x;
    assert (actions + [a])[..|actions|] == actions;
    assert WatchAll(actions + [a]) == Seeing(x, a);
    ActShaped(false, x.w, a);
  }

  const SOMEBODY := Event(1, LOGIN, MillWright(0, 1), None, 0, 100)
  const LOGGED_IN := View(1, Some(SOMEBODY))

  /** The login has been read from the outbox. */
  function Fetching(): World {
    OC.FIRST.(boxes := [Box([SOMEBODY], {})], phase := Fetched(0, [1], [SOMEBODY]))
  }

  function Connecting(): World { Fetching().(phase := Connected(0)) }

  lemma LoginLogged()
    ensures Reached(Watch(Connecting(), Some(0), LOGGED_IN, 1, LOGGED_IN, 1))
  {
    assert WatchAll([]) == UNSTARTED;
    assert [] + [SOMEBODY] == [SOMEBODY] && OC.FIRST.boxes[0 := Box([SOMEBODY], {})] == Connecting().boxes;
    Step(UNSTARTED, Log(SOMEBODY));
    Step(UNSTARTED.(w := Connecting().(phase := Idle)), Connect);
  }

  lemma LoginFetched()
    ensures Reached(Watch(Fetching(), Some(0), LOGGED_IN, 1, LOGGED_IN, 1))
  {
    LoginLogged();
    assert Above(Box([SOMEBODY], {}), 0, BATCH) == [1] by {
      assert Above(Box([SOMEBODY], {}), 1, BATCH - 1) == [];
    }
    assert Bodies(Box([SOMEBODY], {}), [1]) == [SOMEBODY];
    assert [1][..0] == [] && [SOMEBODY][..0] == [];
    Step(Watch(Connecting(), Some(0), LOGGED_IN, 1, LOGGED_IN, 1), Select);
  }

  lemma LoginTaken()
    ensures Takes(Fetching(), [true], false, 0)
  {
    var items, work := AsItems([SOMEBODY], [true]), Work(EMPTY, Meta(EMPTY));
    assert items[..0] == [];
    assert Storable(work, items, 0, 0);
    StoresWhen(work, items, 0);
  }

  lemma LoginAcked() returns (x: Watch)
    ensures Shaped(x.w) && Reached(x) && x.w.phase.Idle? && x.w.boxes == Fetching().boxes && x.w.ack == Some(Ack(0, 1))
  {
    LoginFetched();
    LoginTaken();
    var fetching := Watch(Fetching(), Some(0), LOGGED_IN, 1, LOGGED_IN, 1);
    Step(fetching, Commit([true], false, 0));
    var stored := Seeing(fetching, Commit([true], false, 0));
    assert stored.w.phase == Committed(0, 1) && stored.w.boxes == Fetching().boxes;
    Step(stored, WriteAck);
    x := Seeing(stored, WriteAck);
  }

  lemma LoginPruned() returns (x: Watch)
    ensures Shaped(x.w) && Reached(x) && x.w.phase.Idle? && x.epoch.None? && x.w.boxes == [Box([SOMEBODY], {1})]
  {
    var acked := LoginAcked();
    Step(acked, PruneBox({1}));
    var pruned := Seeing(acked, PruneBox({1}));
    assert pruned.w.boxes[0] == Box([SOMEBODY], {1});
    Step(pruned, Crash);
    x := Seeing(pruned, Crash);
  }

  /** The whole history has been seen and ends with a login, and nobody is shown. */
  predicate Forgotten(x: Watch) {
    && x.epoch.Some? && x.epoch.value < |x.w.boxes| && x.seen == |x.w.boxes[x.epoch.value].history|
    && LastLogin(x.w.boxes[x.epoch.value].history, x.seen) == LOGGED_IN && x.view == View(0, None)
  }

  /** The login is copied and acknowledged, MillWright prunes its row, and the agent starts again: the operator is
      still logged in, and the readout shows nobody. */
  lemma PrunedLoginForgotten()
    ensures exists actions :: Forgotten(WatchAll(actions))
  {
    var pruned := LoginPruned();
    var box := Box([SOMEBODY], {1});
    assert LastPresent(box, 1) == LastPresent(box, 0) == View(0, None);
    Step(pruned, Connect);
    var x := Seeing(pruned, Connect);
    assert x.w.boxes[0] == box && x.seen == 1 && x.view == View(0, None);
    assert Forgotten(x);
    var actions :| WatchAll(actions) == x;
  }
}
