/** When a status packet goes out (agent_packets.py, `PacketGate`, and the loop around it in status.py): fault edges
    are never lost, and how far apart packets are in real time. */
module PacketGate {
  import opened Wrappers

  /** The cycle state of a sample: Unset before the first, Unknown when the status could not be read. */
  datatype State = Unset | Idle | Running | Paused | Unknown

  datatype Config = Config(poll: real, heartbeat: real)

  /** The gate's fields; `lastPoll` None stands for minus infinity. A fault picture is known by a number. */
  datatype Gate = Gate(sampled: State, lastPoll: Option<real>, previous: State, idleSent: bool, lastHeartbeat: real,
                       lastFault: Option<nat>, faultPending: bool)

  const NEW := Gate(Unset, None, Unset, false, 0.0, None, false)

  predicate PollDue(g: Gate, config: Config, now: real) {
    g.lastPoll.None? || now - g.lastPoll.value >= config.poll
  }

  /** What a sample leaves in the gate, and whether the packet part of the loop runs for it. */
  function Tick(g: Gate, config: Config, now: real, state: State, fault: Option<nat>): (Gate, bool) {
    var edge := fault.Some? && g.lastFault.Some? && fault != g.lastFault;
    var g' := g.(sampled := state, lastFault := if fault.Some? then fault else g.lastFault,
                 faultPending := g.faultPending || edge);
    if state != g.sampled || g'.faultPending || PollDue(g, config, now) then (g'.(lastPoll := Some(now)), true)
    else (g', false)
  }

  /** What deciding on a packet leaves in the gate, and whether one is wanted. */
  function ShouldSend(g: Gate, config: Config, now: real, state: State, errors: bool): (Gate, bool) {
    if !state.Idle? then (g.(previous := state, idleSent := false), true) else
      var changed := state != g.previous;
      var g' := g.(previous := state, idleSent := g.idleSent && !changed,
                   lastHeartbeat := if changed then now else g.lastHeartbeat);
      (g', !(g'.idleSent && !errors && !g.faultPending && now - g'.lastHeartbeat < config.heartbeat))
  }

  function Sent(g: Gate, now: real, state: State): Gate {
    if state.Idle? then g.(faultPending := false, idleSent := true, lastHeartbeat := now) else g.(faultPending := false)
  }

  class PacketGate {
    const config: Config
    var sampled: State
    var lastPoll: Option<real>
    var previous: State
    var idleSent: bool
    var lastHeartbeat: real
    var lastFault: Option<nat>
    var faultPending: bool

    function Fields(): Gate
      reads this
    {
      Gate(sampled, lastPoll, previous, idleSent, lastHeartbeat, lastFault, faultPending)
    }

    constructor (config: Config)
      ensures Fields() == NEW && this.config == config
    {
      this.config := config;
      sampled, lastPoll, previous, idleSent := Unset, None, Unset, false;
      lastHeartbeat, lastFault, faultPending := 0.0, None, false;
    }

    method OnSample(now: real, state: State, fault: Option<nat>) returns (due: bool)
      modifies this`sampled, this`lastPoll, this`lastFault, this`faultPending
      ensures (Fields(), due) == Tick(old(Fields()), config, now, state, fault)
    {
      var change := state != sampled;
      sampled := state;
      if fault.Some? && fault != lastFault {
        if lastFault.Some? {
          faultPending := true;
        }
        lastFault := fault;
      }
      if !(change || faultPending) && lastPoll.Some? && now - lastPoll.value < config.poll {
        return false;
      }
      lastPoll := Some(now);
      return true;
    }

    method Decide(now: real, state: State, errors: bool) returns (send: bool)
      modifies this`previous, this`idleSent, this`lastHeartbeat
      ensures (Fields(), send) == ShouldSend(old(Fields()), config, now, state, errors)
    {
      var changed := state != previous;
      previous := state;
      if !state.Idle? {
        idleSent := false;
        return true;
      }
      if changed {
        idleSent, lastHeartbeat := false, now;
      }
      return !(idleSent && !errors && !faultPending && now - lastHeartbeat < config.heartbeat);
    }

    method PacketSent(now: real, state: State)
      modifies this`faultPending, this`idleSent, this`lastHeartbeat
      ensures Fields() == Sent(old(Fields()), now, state)
    {
      faultPending := false;
      if state.Idle? {
        idleSent, lastHeartbeat := true, now;
      }
    }
  }

  // ------------------------------------------------------------------
  // The sampling loop
  // ------------------------------------------------------------------

  /** One pass of the loop; `built`: the packet, if one is wanted, could be built. */
  datatype Sample = Sample(now: real, state: State, fault: Option<nat>, errors: bool, built: bool)

  /** The gate after a sample, and whether a packet was wanted. */
  function Pass(g: Gate, config: Config, s: Sample): (Gate, bool) {
    var (g1, due) := Tick(g, config, s.now, s.state, s.fault);
    if !due then (g1, false) else
      var (g2, send) := ShouldSend(g1, config, s.now, s.state, s.errors);
      if !send then (g2, false) else (if s.built then Sent(g2, s.now, s.state) else g2, true)
  }

  function After(config: Config, samples: seq<Sample>, n: nat): Gate
    requires n <= |samples|
  {
    if n == 0 then NEW else Pass(After(config, samples, n - 1), config, samples[n - 1]).0
  }

  predicate Wanted(config: Config, samples: seq<Sample>, i: nat)
    requires i < |samples|
  {
    Pass(After(config, samples, i), config, samples[i]).1
  }

  predicate Packet(config: Config, samples: seq<Sample>, i: nat)
    requires i < |samples|
  {
    Wanted(config, samples, i) && samples[i].built
  }

  // ------------------------------------------------------------------
  // Fault edges
  // ------------------------------------------------------------------

  /** The fault picture last known before sample i. */
  function LastKnown(samples: seq<Sample>, i: nat): Option<nat>
    requires i <= |samples|
  {
    if i == 0 then None else if samples[i - 1].fault.Some? then samples[i - 1].fault else LastKnown(samples, i - 1)
  }

  predicate Edge(samples: seq<Sample>, i: nat)
    requires i < |samples|
  {
    samples[i].fault.Some? && LastKnown(samples, i).Some? && samples[i].fault != LastKnown(samples, i)
  }

  lemma {:induction false} KnowsLast(config: Config, samples: seq<Sample>, i: nat)
    requires i <= |samples|
    ensures After(config, samples, i).lastFault == LastKnown(samples, i)
  {
    if i > 0 {
      KnowsLast(config, samples, i - 1);
    }
  }

  /** From an edge on, a packet is wanted at every sample until one can be built: it goes out at the very sample of
      the edge, or at the first later one that builds. */
  lemma {:induction false} EdgesGoOut(config: Config, samples: seq<Sample>, i: nat, j: nat)
    requires i <= j < |samples| && Edge(samples, i) && forall k :: i <= k < j ==> !samples[k].built
    ensures Wanted(config, samples, j) && (Packet(config, samples, j) <==> samples[j].built)
    ensures After(config, samples, j + 1).faultPending <==> !samples[j].built
    decreases j
  {
    if i == j {
      KnowsLast(config, samples, i);
    } else {
      EdgesGoOut(config, samples, i, j - 1);
      assert After(config, samples, j).faultPending;
    }
  }

  // ------------------------------------------------------------------
  // When a packet is wanted, read off the samples
  // ------------------------------------------------------------------

  predicate Changes(samples: seq<Sample>, i: nat)
    requires i < |samples|
  {
    i == 0 || samples[i].state != samples[i - 1].state
  }

  /** A change of the fault picture among the first n samples that no packet has carried yet. */
  predicate FaultWaits(config: Config, samples: seq<Sample>, n: nat)
    requires n <= |samples|
  {
    n > 0 && !Packet(config, samples, n - 1) && (FaultWaits(config, samples, n - 1) || Edge(samples, n - 1))
  }

  /** The packet part of the loop runs for sample i: a change of state or of the fault picture, or a poll's time since
      it last ran. */
  predicate Worked(config: Config, samples: seq<Sample>, i: nat)
    requires i < |samples|
    decreases i, 1
  {
    || Changes(samples, i) || FaultWaits(config, samples, i) || Edge(samples, i)
    || (match LastWork(config, samples, i)
        case None => true
        case Some(t) => samples[i].now >= t + config.poll)
  }

  /** When it last ran for one of the first n samples. */
  function LastWork(config: Config, samples: seq<Sample>, n: nat): Option<real>
    requires n <= |samples|
    decreases n, 0
  {
    if n == 0 then None
    else if Worked(config, samples, n - 1) then Some(samples[n - 1].now)
    else LastWork(config, samples, n - 1)
  }

  /** The last packet of the idle stretch that the first n samples end with. */
  function LastIdlePacket(config: Config, samples: seq<Sample>, n: nat): Option<real>
    requires n <= |samples|
  {
    if n == 0 || !samples[n - 1].state.Idle? then None
    else if Packet(config, samples, n - 1) then Some(samples[n - 1].now)
    else if Changes(samples, n - 1) then None
    else LastIdlePacket(config, samples, n - 1)
  }

  /** An idle sample says nothing new: the stretch has had a packet, nothing is caught or waits, and the heartbeat is
      not due. */
  predicate HeldBack(config: Config, samples: seq<Sample>, i: nat)
    requires i < |samples|
  {
    && samples[i].state.Idle? && !Changes(samples, i) && !samples[i].errors
    && !FaultWaits(config, samples, i) && !Edge(samples, i)
    && match LastIdlePacket(config, samples, i)
       case None => false
       case Some(t) => samples[i].now < t + config.heartbeat
  }

  /** The gate's fields, read off the samples so far. */
  predicate ReadOff(g: Gate, config: Config, samples: seq<Sample>, n: nat)
    requires n <= |samples|
  {
    && g.lastFault == LastKnown(samples, n) && g.faultPending == FaultWaits(config, samples, n)
    && g.lastPoll == LastWork(config, samples, n)
    && (if n == 0 then g == NEW else
          && g.sampled == samples[n - 1].state && g.previous == samples[n - 1].state
          && (samples[n - 1].state.Idle? ==>
                match LastIdlePacket(config, samples, n)
                case None => !g.idleSent
                case Some(t) => g.idleSent && g.lastHeartbeat == t))
  }

  lemma PassReads(g: Gate, config: Config, samples: seq<Sample>, i: nat)
    requires i < |samples| && g == After(config, samples, i) && ReadOff(g, config, samples, i)
    ensures Wanted(config, samples, i) <==> Worked(config, samples, i) && !HeldBack(config, samples, i)
    ensures ReadOff(After(config, samples, i + 1), config, samples, i + 1)
  {
  }

  lemma {:induction false} GateReads(config: Config, samples: seq<Sample>, n: nat)
    requires n <= |samples|
    ensures ReadOff(After(config, samples, n), config, samples, n)
  {
    if n > 0 {
      GateReads(config, samples, n - 1);
      PassReads(After(config, samples, n - 1), config, samples, n - 1);
    }
  }

  /** A packet is wanted exactly when the packet part runs and the sample is not an idle one that says nothing new. */
  lemma WantedExactly(config: Config, samples: seq<Sample>, i: nat)
    requires i < |samples|
    ensures Wanted(config, samples, i) <==> Worked(config, samples, i) && !HeldBack(config, samples, i)
  {
    GateReads(config, samples, i);
    PassReads(After(config, samples, i), config, samples, i);
  }

  // ------------------------------------------------------------------
  // Real time
  // ------------------------------------------------------------------

  /** Samples come in order, at most `d` apart. */
  predicate Timed(samples: seq<Sample>, d: real) {
    forall i {:trigger samples[i]} :: 0 < i < |samples| ==>
      samples[i - 1].now <= samples[i].now <= samples[i - 1].now + d
  }

  /** Samples i + 1 .. j bring no packet. */
  ghost predicate Silent(config: Config, samples: seq<Sample>, i: nat, j: nat)
    requires i <= j < |samples|
  {
    forall k {:trigger Packet(config, samples, k)} :: i < k <= j ==> !Packet(config, samples, k)
  }

  /** Samples i .. j are idle, without edges or messages, and packets can be built. */
  predicate Calm(samples: seq<Sample>, i: nat, j: nat)
    requires i <= j < |samples|
  {
    forall k :: i <= k <= j ==>
      samples[k].state.Idle? && samples[k].built && !samples[k].errors && (k > i ==> !Edge(samples, k))
  }

  /** After an idle packet at `t`, with nothing sent since: the last packet work was before the heartbeat ran out, and
      less than a poll ago or just now. */
  predicate Quiet(g: Gate, config: Config, t: real, now: real) {
    && g.sampled.Idle? && g.previous.Idle? && g.idleSent && !g.faultPending && g.lastHeartbeat == t
    && g.lastPoll.Some? && t <= g.lastPoll.value <= now && g.lastPoll.value - t < config.heartbeat
    && (now == g.lastPoll.value || now - g.lastPoll.value < config.poll)
  }

  lemma QuietStep(g: Gate, config: Config, t: real, s: Sample, before: real)
    requires Quiet(g, config, t, before) && config.heartbeat > 0.0 && before <= s.now
    requires s.state.Idle? && !s.errors && (s.fault.Some? && g.lastFault.Some? ==> s.fault == g.lastFault)
    ensures var (g', wanted) := Pass(g, config, s);
            if wanted then s.now - t >= config.heartbeat else Quiet(g', config, t, s.now)
  {
  }

  lemma {:induction false} StaysQuiet(config: Config, samples: seq<Sample>, d: real, i: nat, j: nat)
    requires i <= j < |samples| && Timed(samples, d) && config.heartbeat > 0.0
    requires Packet(config, samples, i) && Silent(config, samples, i, j) && Calm(samples, i, j)
    ensures Quiet(After(config, samples, j + 1), config, samples[i].now, samples[j].now)
    decreases j
  {
    if i < j {
      assert Silent(config, samples, i, j - 1) && Calm(samples, i, j - 1);
      StaysQuiet(config, samples, d, i, j - 1);
      assert !Packet(config, samples, j) && samples[j].built && !Edge(samples, j);
      QuietPass(config, samples, samples[i].now, j);
    } else {
      SentIsQuiet(After(config, samples, i), config, samples[i]);
    }
  }

  /** Right after an idle packet the gate is quiet. */
  lemma SentIsQuiet(g: Gate, config: Config, s: Sample)
    requires config.heartbeat > 0.0 && s.state.Idle? && s.built && Pass(g, config, s).1
    ensures Quiet(Pass(g, config, s).0, config, s.now, s.now)
  {
  }

  lemma QuietPass(config: Config, samples: seq<Sample>, t: real, j: nat)
    requires 0 < j < |samples| && config.heartbeat > 0.0 && samples[j - 1].now <= samples[j].now
    requires samples[j].state.Idle? && !samples[j].errors && !Edge(samples, j)
    requires Quiet(After(config, samples, j), config, t, samples[j - 1].now)
    ensures if Wanted(config, samples, j) then samples[j].now - t >= config.heartbeat
            else Quiet(After(config, samples, j + 1), config, t, samples[j].now)
  {
    KnowsLast(config, samples, j);
    QuietStep(After(config, samples, j), config, t, samples[j], samples[j - 1].now);
  }

  /** Consecutive idle packets without an edge or a message: at least a heartbeat apart, and less than a heartbeat, a
      poll and one sample gap. */
  lemma IdlePackets(config: Config, samples: seq<Sample>, d: real, i: nat, j: nat)
    requires i < j < |samples| && Timed(samples, d) && config.heartbeat > 0.0 && config.poll >= 0.0
    requires Packet(config, samples, i) && Packet(config, samples, j) && Silent(config, samples, i, j - 1)
    requires Calm(samples, i, j)
    ensures config.heartbeat <= samples[j].now - samples[i].now < config.heartbeat + config.poll + d
  {
    assert Calm(samples, i, j - 1);
    StaysQuiet(config, samples, d, i, j - 1);
    assert samples[j].built && !Edge(samples, j);
    QuietPass(config, samples, samples[i].now, j);
  }

  /** And the heartbeat never stops: that long after an idle packet there has been another. */
  lemma IdleNeverSilent(config: Config, samples: seq<Sample>, d: real, i: nat, j: nat)
    requires i < j < |samples| && Timed(samples, d) && config.heartbeat > 0.0 && config.poll >= 0.0
    requires Packet(config, samples, i) && Calm(samples, i, j)
    requires samples[j].now - samples[i].now >= config.heartbeat + config.poll
    ensures !Silent(config, samples, i, j)
  {
    if Silent(config, samples, i, j) {
      StaysQuiet(config, samples, d, i, j);
    }
  }

  /** Samples i .. j are not idle and packets can be built. */
  predicate Active(samples: seq<Sample>, i: nat, j: nat)
    requires i <= j < |samples|
  {
    forall k :: i <= k <= j ==> !samples[k].state.Idle? && samples[k].built
  }

  lemma {:induction false} ActivePolls(config: Config, samples: seq<Sample>, d: real, i: nat, j: nat)
    requires i <= j < |samples| && Timed(samples, d) && config.poll > 0.0
    requires Packet(config, samples, i) && Silent(config, samples, i, j) && Active(samples, i, j)
    ensures After(config, samples, j + 1).lastPoll == Some(samples[i].now)
    ensures samples[j].now - samples[i].now < config.poll
    decreases j
  {
    if i < j {
      assert Silent(config, samples, i, j - 1) && Active(samples, i, j - 1);
      ActivePolls(config, samples, d, i, j - 1);
      assert !Packet(config, samples, j) && samples[j].built && !samples[j].state.Idle?;
    }
  }

  /** While a cycle runs or is paused, or its state is not known, consecutive packets are less than a poll and one
      sample gap apart. */
  lemma ActivePackets(config: Config, samples: seq<Sample>, d: real, i: nat, j: nat)
    requires i < j < |samples| && Timed(samples, d) && config.poll > 0.0
    requires Packet(config, samples, i) && Silent(config, samples, i, j - 1) && Active(samples, i, j)
    ensures samples[j].now - samples[i].now < config.poll + d
  {
    assert Active(samples, i, j - 1);
    ActivePolls(config, samples, d, i, j - 1);
  }
}
