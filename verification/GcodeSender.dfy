/** Sending the loaded program from a worker thread (agent_gcode.py, `GcodeFileSender`): what a late worker may and
    may not do, for every interleaving with the status loop. */
module GcodeSender {
  import opened Wrappers

  const RETRY_AFTER := 10.0
  const SEND_TRIES := 3

  /** Name, size and modification time. */
  datatype Fingerprint = Fingerprint(name: string, size: nat, modified: int)

  datatype Reason = TooLarge | TooManyChunks

  /** The sender's fields; `worker` is the thread started last. */
  datatype Sender = Sender(sent: Option<Fingerprint>, sentAt: real, retryAt: real, generation: nat,
                           refused: Option<(Fingerprint, Reason)>, worker: Option<nat>)

  const NEW := Sender(None, 0.0, 0.0, 0, None, None)

  /** One locked section each. */
  function Reset(s: Sender): Sender {
    s.(sent := None, retryAt := 0.0, refused := None, generation := s.generation + 1)
  }

  predicate Due(s: Sender, alive: bool, resend: real, fp: Fingerprint, now: real) {
    && !alive && now >= s.retryAt
    && (s.sent != Some(fp) || (resend > 0.0 && now - s.sentAt >= resend))
  }

  function NoteRefusal(s: Sender, fp: Fingerprint, reason: Reason, generation: nat): Sender {
    if generation != s.generation || (s.refused.Some? && s.refused.value.0 == fp) then s
    else s.(refused := Some((fp, reason)))
  }

  function NotPrepared(s: Sender, now: real): Sender { s.(retryAt := now + RETRY_AFTER) }

  function Finished(s: Sender, fp: Fingerprint, generation: nat, ok: bool, now: real): Sender {
    if generation != s.generation then s
    else if ok then s.(sent := Some(fp), sentAt := now, retryAt := 0.0)
    else s.(retryAt := now + RETRY_AFTER)
  }

  class GcodeFileSender {
    const resend: real
    var sent: Option<Fingerprint>
    var sentAt: real
    var retryAt: real
    var generation: nat
    var refused: Option<(Fingerprint, Reason)>
    var worker: Option<nat>

    function Fields(): Sender
      reads this
    {
      Sender(sent, sentAt, retryAt, generation, refused, worker)
    }

    constructor (resend: real)
      ensures Fields() == NEW && this.resend == resend
    {
      this.resend := resend;
      sent, sentAt, retryAt, generation, refused, worker := None, 0.0, 0.0, 0, None, None;
    }

    method Forget()
      modifies this`sent, this`retryAt, this`refused, this`generation
      ensures Fields() == Reset(old(Fields()))
    {
      sent, retryAt, refused, generation := None, 0.0, None, generation + 1;
    }

    /** `thread` is the worker started, if one is; it is given the generation of this moment. */
    method CheckAndSend(alive: bool, fp: Fingerprint, now: real, thread: nat) returns (started: bool)
      modifies this`worker
      ensures started <==> Due(old(Fields()), alive, resend, fp, now)
      ensures Fields() == if started then old(Fields()).(worker := Some(thread)) else old(Fields())
    {
      if alive || now < retryAt {
        return false;
      }
      if sent == Some(fp) && !(resend > 0.0 && now - sentAt >= resend) {
        return false;
      }
      worker := Some(thread);
      return true;
    }

    method Refuse(fp: Fingerprint, reason: Reason, given: nat)
      modifies this`refused
      ensures Fields() == NoteRefusal(old(Fields()), fp, reason, given)
    {
      if given != generation || (refused.Some? && refused.value.0 == fp) {
        return;
      }
      refused := Some((fp, reason));
    }

    method Finish(fp: Fingerprint, given: nat, ok: bool, now: real)
      modifies this`sent, this`sentAt, this`retryAt
      ensures Fields() == Finished(old(Fields()), fp, given, ok, now)
    {
      if given != generation {
        return;
      }
      if ok {
        sent, sentAt, retryAt := Some(fp), now, 0.0;
      } else {
        retryAt := now + RETRY_AFTER;
      }
    }

    /** Every packet is tried up to three times; `accepts(i, k)`: the socket takes packet i at its k-th try. */
    static method SendPackets(n: nat, accepts: (nat, nat) -> bool) returns (ok: bool)
      ensures ok <==> forall i :: 0 <= i < n ==> Accepted(accepts, i)
    {
      ok := true;
      for i := 0 to n
        invariant ok <==> forall j :: 0 <= j < i ==> Accepted(accepts, j)
      {
        var attempt: nat := 0;
        while attempt < SEND_TRIES && !accepts(i, attempt)
          invariant attempt <= SEND_TRIES && forall k: nat :: k < attempt ==> !accepts(i, k)
        {
          attempt := attempt + 1;
        }
        if attempt == SEND_TRIES {
          assert !Accepted(accepts, i);
          ok := false;
        }
      }
    }
  }

  predicate Accepted(accepts: (nat, nat) -> bool, i: nat) {
    exists k: nat :: k < SEND_TRIES && accepts(i, k)
  }

  // ------------------------------------------------------------------
  // The status loop and the workers
  // ------------------------------------------------------------------

  /** A worker thread: about to read the file; about to note a refusal; or sending, with `left` packets to go of
      `total`, `taken` of them accepted, `ok` as it keeps track of it. */
  datatype Worker =
    | Reading(fp: Fingerprint, generation: nat)
    | Refusing(fp: Fingerprint, generation: nat, reason: Reason)
    | Sending(fp: Fingerprint, generation: nat, left: nat, total: nat, taken: nat, ok: bool)

  /** A worker that ran to its end: which program, which generation, and whether all its packets were accepted. */
  datatype Done = Done(fp: Fingerprint, generation: nat, all: bool)

  datatype World = World(sender: Sender, alive: map<nat, Worker>, next: nat, history: set<Done>)

  const FIRST := World(NEW, map[], 0, {})

  datatype Action =
    | Restarted
    | Check(fp: Fingerprint, now: real)
    | Prepare(thread: nat, total: Option<nat>, reason: Option<Reason>, now: real)
    | Note(thread: nat)
    | Packet(thread: nat, accepted: bool)
    | Broken(thread: nat)
    | End(thread: nat, now: real)

  predicate Alive(w: World) { w.sender.worker.Some? && w.sender.worker.value in w.alive }

  function Act(resend: real, w: World, a: Action): World {
    match a
    case Restarted => w.(sender := Reset(w.sender))
    case Check(fp, now) =>
      if Due(w.sender, Alive(w), resend, fp, now)
      then w.(sender := w.sender.(worker := Some(w.next)), next := w.next + 1,
              alive := w.alive[w.next := Reading(fp, w.sender.generation)])
      else w
    case Prepare(t, total, reason, now) =>
      if t !in w.alive || !w.alive[t].Reading? then w
      else if reason.Some? then w.(alive := w.alive[t := Refusing(w.alive[t].fp, w.alive[t].generation, reason.value)])
      else if total.None? then w.(sender := NotPrepared(w.sender, now), alive := w.alive - {t})
      else w.(alive := w.alive[t := Sending(w.alive[t].fp, w.alive[t].generation, total.value, total.value, 0, true)])
    case Note(t) =>
      if t !in w.alive || !w.alive[t].Refusing? then w
      else var r := w.alive[t];
           w.(sender := NoteRefusal(w.sender, r.fp, r.reason, r.generation),
              alive := w.alive[t := Sending(r.fp, r.generation, 1, 1, 0, true)])
    case Packet(t, accepted) =>
      if t !in w.alive || !w.alive[t].Sending? || w.alive[t].left == 0 then w
      else var s := w.alive[t];
           w.(alive := w.alive[t := s.(left := s.left - 1, taken := s.taken + (if accepted then 1 else 0),
                                       ok := s.ok && accepted)])
    case Broken(t) =>
      if t !in w.alive || !w.alive[t].Sending? then w
      else w.(alive := w.alive[t := w.alive[t].(left := 0, ok := false)])
    case End(t, now) =>
      if t !in w.alive || !w.alive[t].Sending? || w.alive[t].left > 0 then w
      else var s := w.alive[t];
           w.(sender := Finished(w.sender, s.fp, s.generation, s.ok, now), alive := w.alive - {t},
              history := w.history + {Done(s.fp, s.generation, s.taken == s.total)})
  }

  function ActAll(resend: real, actions: seq<Action>): World {
    if actions == [] then FIRST else Act(resend, ActAll(resend, actions[..|actions| - 1]), actions[|actions| - 1])
  }

  ghost predicate Inv(w: World) {
    && (forall t :: t in w.alive ==>
          w.sender.worker == Some(t) && t < w.next && w.alive[t].generation <= w.sender.generation)
    && (forall t :: t in w.alive && w.alive[t].Sending? ==>
          w.alive[t].ok ==> w.alive[t].taken + w.alive[t].left == w.alive[t].total)
    && (w.sender.sent.Some? ==> Done(w.sender.sent.value, w.sender.generation, true) in w.history)
  }

  lemma StepKeeps(resend: real, w: World, a: Action)
    requires Inv(w)
    ensures Inv(Act(resend, w, a))
  {
  }

  lemma {:induction false} RunKeeps(resend: real, actions: seq<Action>)
    ensures Inv(ActAll(resend, actions))
  {
    if actions != [] {
      RunKeeps(resend, actions[..|actions| - 1]);
      StepKeeps(resend, ActAll(resend, actions[..|actions| - 1]), actions[|actions| - 1]);
    }
  }

  /** For every interleaving: at most one worker is alive, and a program counts as sent only if a worker started since
      the last reset had every packet of it accepted. */
  lemma LateWorkersNeverWin(resend: real, actions: seq<Action>)
    ensures var w := ActAll(resend, actions);
            && (forall t, u :: t in w.alive && u in w.alive ==> t == u)
            && (w.sender.sent.Some? ==> Done(w.sender.sent.value, w.sender.generation, true) in w.history)
  {
    RunKeeps(resend, actions);
  }

  /** The thread a step belongs to, if it is a worker's. */
  function ThreadOf(a: Action): Option<nat> {
    match a
    case Prepare(t, _, _, _) => Some(t)
    case Note(t) => Some(t)
    case Packet(t, _) => Some(t)
    case Broken(t) => Some(t)
    case End(t, _) => Some(t)
    case _ => None
  }

  /** A worker from before the last reset changes nothing of the sender -- but for one field: if it cannot read its
      file it still puts off the next send. */
  lemma LateWorkerOnlyDelays(resend: real, w: World, a: Action)
    requires ThreadOf(a).Some? && ThreadOf(a).value in w.alive
    requires w.alive[ThreadOf(a).value].generation != w.sender.generation
    ensures Act(resend, w, a).sender ==
              if a.Prepare? && w.alive[a.thread].Reading? && a.total.None? && a.reason.None?
              then w.sender.(retryAt := a.now + RETRY_AFTER) else w.sender
  {
  }

  /** That one case, reached: after the reset the program is due at once, but for the late worker. */
  lemma LateWorkerMayDelay(resend: real, fp: Fingerprint)
    ensures var w := ActAll(resend, [Check(fp, 0.0), Restarted, Prepare(0, None, None, 5.0)]);
            && w.alive == map[] && w.sender.generation == 1 && w.sender.sent.None?
            && !Due(w.sender, false, resend, fp, 14.0) && Due(w.sender, false, resend, fp, 15.0)
  {
    var run := [Check(fp, 0.0), Restarted, Prepare(0, None, None, 5.0)];
    assert run[..2] == [run[0], run[1]] && run[..2][..1] == [run[0]] && [run[0]][..0] == [];
    var alive := map[0 := Reading(fp, 0)];
    assert FIRST.alive[0 := Reading(fp, 0)] == alive;
    var w1 := World(NEW.(worker := Some(0)), alive, 1, {});
    assert ActAll(resend, []) == FIRST && Act(resend, FIRST, run[0]) == w1;
    assert ActAll(resend, [run[0]]) == w1;
    assert ActAll(resend, run[..2]) == w1.(sender := Reset(w1.sender));
    assert alive - {0} == map[];
  }

  // ------------------------------------------------------------------
  // The sender's fields, read off what happened
  // ------------------------------------------------------------------

  predicate Starts(resend: real, w: World, a: Action) { a.Check? && Act(resend, w, a).next > w.next }

  /** The worker was started, and nothing was forgotten since. */
  predicate Current(resend: real, actions: seq<Action>, t: nat) {
    if actions == [] then false else
      var n := |actions| - 1;
      if actions[n].Restarted? then false
      else if Starts(resend, ActAll(resend, actions[..n]), actions[n]) && ActAll(resend, actions[..n]).next == t
      then true
      else Current(resend, actions[..n], t)
  }

  /** Since it began to send, the worker has had every packet accepted, and nothing broke. */
  predicate Flawless(resend: real, actions: seq<Action>, t: nat) {
    if actions == [] then true else
      var n := |actions| - 1;
      var w := ActAll(resend, actions[..n]);
      match actions[n]
      case Packet(u, accepted) =>
        && Flawless(resend, actions[..n], t)
        && (u == t && t in w.alive && w.alive[t].Sending? && w.alive[t].left > 0 ==> accepted)
      case Broken(u) => Flawless(resend, actions[..n], t) && !(u == t && t in w.alive && w.alive[t].Sending?)
      case _ => (t in w.alive && !w.alive[t].Sending?) || Flawless(resend, actions[..n], t)
  }

  predicate Ends(w: World, a: Action) {
    a.End? && a.thread in w.alive && w.alive[a.thread].Sending? && w.alive[a.thread].left == 0
  }

  predicate CannotPrepare(w: World, a: Action) {
    a.Prepare? && a.thread in w.alive && w.alive[a.thread].Reading? && a.reason.None? && a.total.None?
  }

  /** The last program sent whole since anything was forgotten, and when. */
  function LastSent(resend: real, actions: seq<Action>): Option<(Fingerprint, real)> {
    if actions == [] then None else
      var init, a := actions[..|actions| - 1], actions[|actions| - 1];
      var w := ActAll(resend, init);
      if a.Restarted? then None
      else if Ends(w, a) && Current(resend, init, a.thread) && Flawless(resend, init, a.thread)
      then Some((w.alive[a.thread].fp, a.now))
      else LastSent(resend, init)
  }

  /** Before when nothing is tried: ten seconds after the last send that failed, or whose file could not be read. */
  function NotBefore(resend: real, actions: seq<Action>): real {
    if actions == [] then 0.0 else
      var init, a := actions[..|actions| - 1], actions[|actions| - 1];
      var w := ActAll(resend, init);
      if a.Restarted? then 0.0
      else if CannotPrepare(w, a) then a.now + 10.0
      else if Ends(w, a) && Current(resend, init, a.thread) then
        if Flawless(resend, init, a.thread) then 0.0 else a.now + 10.0
      else NotBefore(resend, init)
  }

  /** The workers know what became of them. */
  ghost predicate WorkersRead(resend: real, actions: seq<Action>) {
    var w := ActAll(resend, actions);
    && (forall t :: t in w.alive ==> (w.alive[t].generation == w.sender.generation <==> Current(resend, actions, t)))
    && (forall t :: t in w.alive && w.alive[t].Sending? ==> (w.alive[t].ok <==> Flawless(resend, actions, t)))
  }

  lemma WorkersStep(resend: real, init: seq<Action>, a: Action)
    requires WorkersRead(resend, init)
    ensures WorkersRead(resend, init + [a])
  {
    var actions := init + [a];
    assert actions[..|init|] == init && actions[|init|] == a;
    RunKeeps(resend, init);
    var w, w' := ActAll(resend, init), ActAll(resend, actions);
    forall t | t in w'.alive
      ensures w'.alive[t].generation == w'.sender.generation <==> Current(resend, actions, t)
      ensures w'.alive[t].Sending? ==> (w'.alive[t].ok <==> Flawless(resend, actions, t))
    {
    }
  }

  ghost predicate SenderReads(resend: real, actions: seq<Action>) {
    var s := ActAll(resend, actions).sender;
    && s.retryAt == NotBefore(resend, actions)
    && match LastSent(resend, actions)
       case None => s.sent.None?
       case Some((fp, at)) => s.sent == Some(fp) && s.sentAt == at
  }

  lemma SenderStep(resend: real, init: seq<Action>, a: Action)
    requires WorkersRead(resend, init) && SenderReads(resend, init)
    ensures SenderReads(resend, init + [a])
  {
    var actions := init + [a];
    assert actions[..|init|] == init && actions[|init|] == a;
  }

  lemma {:induction false} RunReads(resend: real, actions: seq<Action>)
    ensures WorkersRead(resend, actions) && SenderReads(resend, actions)
  {
    if actions != [] {
      var init, a := actions[..|actions| - 1], actions[|actions| - 1];
      RunReads(resend, init);
      WorkersStep(resend, init, a);
      SenderStep(resend, init, a);
      assert actions == init + [a];
    }
  }

  /** When a check starts a worker, over every run: exactly if none is alive, the time for it has come, and the program
      is not the one sent last, or that was a resend interval ago. The worker then alive is for that program. */
  lemma StartsExactly(resend: real, actions: seq<Action>, fp: Fingerprint, now: real)
    ensures var w := ActAll(resend, actions); var w' := Act(resend, w, Check(fp, now));
            && (w'.next > w.next <==>
                  && w.alive == map[] && now >= NotBefore(resend, actions)
                  && (match LastSent(resend, actions)
                      case None => true
                      case Some((last, at)) => last != fp || (resend > 0.0 && now - at >= resend)))
            && (w'.next > w.next ==>
                  w'.next == w.next + 1 && w'.alive == map[w.next := Reading(fp, w.sender.generation)])
            && (w'.next == w.next ==> w' == w)
  {
    RunReads(resend, actions);
    RunKeeps(resend, actions);
    var w := ActAll(resend, actions);
    if w.alive != map[] {
      var t :| t in w.alive;
      assert Alive(w);
    }
  }

  /** What each step of a worker leads to: its own end, nothing of other workers. */
  lemma WorkerMoves(resend: real, w: World, a: Action)
    requires ThreadOf(a).Some? && ThreadOf(a).value in w.alive
    ensures var w', t := Act(resend, w, a), ThreadOf(a).value; var before := w.alive[t];
            && w'.next == w.next && (forall u :: u != t ==> (u in w'.alive <==> u in w.alive))
            && (before.Reading? && a.Prepare? ==>
                  match (a.reason, a.total)
                  case (Some(reason), _) =>
                    t in w'.alive && w'.alive[t] == Refusing(before.fp, before.generation, reason)
                  case (None, Some(n)) =>
                    t in w'.alive && w'.alive[t] == Sending(before.fp, before.generation, n, n, 0, true)
                  case (None, None) => t !in w'.alive)
            && (before.Refusing? && a.Note? ==>
                  && t in w'.alive && w'.alive[t] == Sending(before.fp, before.generation, 1, 1, 0, true)
                  && (before.generation == w.sender.generation ==>
                        w'.sender.refused.Some? && w'.sender.refused.value.0 == before.fp
                        && ((w.sender.refused.Some? && w.sender.refused.value.0 == before.fp)
                            || w'.sender.refused.value.1 == before.reason)))
            && (before.Sending? && before.left > 0 && a.Packet? ==>
                  t in w'.alive && w'.alive[t].left == before.left - 1)
            && (before.Sending? && before.left == 0 && a.End? ==>
                  && t !in w'.alive
                  && w'.history == w.history + {Done(before.fp, before.generation, before.taken == before.total)})
  {
  }
}
