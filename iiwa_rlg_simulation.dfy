/**
 * Model of `IiwaRlgSimulator` in the pybullet IIWA simulation script: the two
 * latest-value command buffers (IIWA arm, Schunk gripper), the Schunk status
 * conversion, and the bookkeeping of the `RunSim` loop (simulated time,
 * status cadence, smoothed step rate, throttling sleep, quit/restart keys).
 *
 * The physics engine, LCM and ROS transports, clocks and the keyboard are
 * outside the model: per iteration, the loop receives the LCM packet that
 * `handle_timeout` delivers (if any), the Schunk command the ROS handler
 * delivers (if any), the two clock readings around the physics step, the
 * gripper paddle joint states after the step, and the keyboard events.
 * The locks are modelled by making every handler one atomic update.
 */
module IiwaRlgSimulation {
  import opened Wrappers

  const NumIiwaJoints: nat := 7
  const NumSchunkJoints: nat := 2
  /** Metres of paddle travel per commanded millimetre, as the Schunk handler scales it. */
  const SchunkMmScale: real := 0.005
  /** Minimum simulated time between two status publications. */
  const StatusPeriod: real := 0.033
  /** RC time constant of the step-rate estimate. */
  const SimRateRC: real := 0.1
  /** `ord('q')` and `ord('r')`. */
  const KeyQ: int := 113
  const KeyR: int := 114
  /** pybullet's `KEY_WAS_TRIGGERED` flag bit. */
  const KeyWasTriggered: bv32 := 2

  /** A decoded `lcmt_iiwa_command` (the fields the handler reads). */
  datatype IiwaCommand = IiwaCommand(numJoints: int, jointPosition: seq<real>)
  /** What the LCM handler receives: a message that decodes, or one that does not. */
  datatype LcmPacket = Decoded(command: IiwaCommand) | Undecodable
  /** A `WSG_50_command` (the fields the handler reads). */
  datatype SchunkCommand = SchunkCommand(positionMm: real, force: real)
  /** The pybullet joint state fields used: position, velocity, applied motor torque. */
  datatype JointState = JointState(position: real, velocity: real, appliedTorque: real)
  /** A `WSG_50_state` (the fields the publisher fills from the paddles). */
  datatype SchunkStatus = SchunkStatus(positionMm: real, force: real, speedMmPerS: real)
  datatype KeyEvent = KeyEvent(key: int, flags: bv32)
  /** What the keyboard poll decides: keep going, restart (`r`) or quit (`q`). */
  datatype ControlSignal = Continue | Restart | Quit
  /** The Schunk position and torque buffers. */
  datatype SchunkBuffers = SchunkBuffers(position: seq<real>, torque: seq<real>)

  // ---------------------------------------------------------------- IIWA buffer

  /**
   * How many leading entries the IIWA handler overwrites. It loops over
   * `range(num_joints)`; reading past the message's positions or writing past
   * the 7-entry buffer raises, and the handler catches the exception.
   */
  function WrittenJoints(cmd: IiwaCommand): (n: nat)
    ensures n <= NumIiwaJoints && n <= |cmd.jointPosition| && (n == 0 || n <= cmd.numJoints)
    ensures n == NumIiwaJoints || n == |cmd.jointPosition| || n == cmd.numJoints || cmd.numJoints < 0
  {
    var bound := if cmd.numJoints < 0 then 0 else cmd.numJoints;
    var n := if bound < |cmd.jointPosition| then bound else |cmd.jointPosition|;
    if n < NumIiwaJoints then n else NumIiwaJoints
  }

  /**
   * The IIWA buffer after the handler processed a packet: the first
   * `WrittenJoints` entries come from the message, the others keep their
   * values; an undecodable packet changes nothing.
   */
  function ApplyIiwaPacket(buf: seq<real>, p: LcmPacket): (r: seq<real>)
    ensures |r| == |buf|
    ensures p.Undecodable? ==> r == buf
    ensures p.Decoded? ==> forall k :: 0 <= k < |buf| && k < WrittenJoints(p.command) ==>
      r[k] == p.command.jointPosition[k]
    ensures p.Decoded? ==> forall k :: WrittenJoints(p.command) <= k < |buf| ==> r[k] == buf[k]
  {
    match p
    case Undecodable => buf
    case Decoded(cmd) =>
      var n := WrittenJoints(cmd);
      seq(|buf|, k requires 0 <= k < |buf| => if k < n then cmd.jointPosition[k] else buf[k])
  }

  /** A well-formed 7-joint command replaces the whole buffer. */
  lemma FullCommandReplacesBuffer(buf: seq<real>, cmd: IiwaCommand)
    requires |buf| == NumIiwaJoints && cmd.numJoints == |cmd.jointPosition| == NumIiwaJoints
    ensures ApplyIiwaPacket(buf, Decoded(cmd)) == cmd.jointPosition
  {
    var r := ApplyIiwaPacket(buf, Decoded(cmd));
    assert forall k :: 0 <= k < |r| ==> r[k] == cmd.jointPosition[k];
  }

  /** Handling the same packet twice leaves the buffer as handling it once. */
  lemma ApplyIiwaPacketIdempotent(buf: seq<real>, p: LcmPacket)
    ensures ApplyIiwaPacket(ApplyIiwaPacket(buf, p), p) == ApplyIiwaPacket(buf, p)
  {
    var once := ApplyIiwaPacket(buf, p);
    var twice := ApplyIiwaPacket(once, p);
    if p.Decoded? {
      assert forall k :: 0 <= k < |once| ==> twice[k] == once[k];
    }
  }

  // -------------------------------------------------------------- Schunk buffers

  /**
   * The Schunk handler's targets: the two paddles mirrored about the centre,
   * each `position_mm * 0.005` from it, both with the commanded force.
   */
  function SchunkCommandTargets(c: SchunkCommand): (r: SchunkBuffers)
    ensures |r.position| == NumSchunkJoints && |r.torque| == NumSchunkJoints
    ensures r.position[0] == -r.position[1] && r.position[1] == c.positionMm * SchunkMmScale
    ensures r.torque[0] == r.torque[1] == c.force
  {
    SchunkBuffers([-c.positionMm * SchunkMmScale, c.positionMm * SchunkMmScale], [c.force, c.force])
  }

  /**
   * The status `PublishSchunkStatus` reports for the two paddle joints: the
   * gap between the paddles in mm, half the torque difference, and the rate
   * of change of the gap in mm/s.
   */
  function SchunkStatusOf(left: JointState, right: JointState): (s: SchunkStatus)
    ensures s.positionMm == (right.position - left.position) * 1000.0
    ensures s.force == (right.appliedTorque - left.appliedTorque) / 2.0
    ensures s.speedMmPerS == (right.velocity - left.velocity) * 1000.0
  {
    SchunkStatus((-left.position + right.position) * 1000.0,
                 (-left.appliedTorque + right.appliedTorque) / 2.0,
                 (-left.velocity + right.velocity) * 1000.0)
  }

  /**
   * Command and status do not round-trip: with the paddles exactly at the
   * commanded targets, the reported gap is ten times the commanded one.
   */
  lemma SchunkCommandStatusGap(c: SchunkCommand, vl: real, vr: real, tl: real, tr: real)
    ensures var t := SchunkCommandTargets(c);
      var s := SchunkStatusOf(JointState(t.position[0], vl, tl), JointState(t.position[1], vr, tr));
      s.positionMm == 10.0 * c.positionMm && (c.positionMm != 0.0 ==> s.positionMm != c.positionMm)
  {
  }

  // --------------------------------------------------------------------- keys

  predicate Triggered(e: KeyEvent) { e.flags & KeyWasTriggered != 0 }

  /** A key event that ends `RunSim`: a triggered `q` or `r`. */
  predicate IsStopEvent(e: KeyEvent) { Triggered(e) && (e.key == KeyQ || e.key == KeyR) }

  /** The scan over the polled keyboard events, in the order the poll returns them. */
  function KeySignal(events: seq<KeyEvent>): ControlSignal
  {
    if events == [] then Continue
    else if Triggered(events[0]) && events[0].key == KeyQ then Quit
    else if Triggered(events[0]) && events[0].key == KeyR then Restart
    else KeySignal(events[1..])
  }

  /** The first stop event decides: `q` quits and `r` restarts. */
  lemma {:induction false} KeySignalFirstStopEvent(events: seq<KeyEvent>, i: nat)
    requires i < |events| && IsStopEvent(events[i])
    requires forall j :: 0 <= j < i ==> !IsStopEvent(events[j])
    ensures KeySignal(events) == if events[i].key == KeyQ then Quit else Restart
  {
    if i > 0 {
      assert !IsStopEvent(events[0]);
      KeySignalFirstStopEvent(events[1..], i - 1);
    }
  }

  /** The loop keeps going exactly when no polled event is a triggered `q` or `r`. */
  lemma {:induction false} KeySignalContinue(events: seq<KeyEvent>)
    ensures KeySignal(events) == Continue <==> forall i :: 0 <= i < |events| ==> !IsStopEvent(events[i])
  {
    if events != [] {
      KeySignalContinue(events[1..]);
      assert forall i :: 1 <= i < |events| ==> events[i] == events[1..][i - 1];
    }
  }

  // ------------------------------------------------------------ loop arithmetic

  /** The smoothing factor `timestep / (RC + timestep)` of the step-rate estimate. */
  function SimRateAlpha(timestep: real): (alpha: real)
    requires timestep > 0.0
    ensures 0.0 < alpha < 1.0
    ensures alpha * (SimRateRC + timestep) == timestep
  {
    timestep / (SimRateRC + timestep)
  }

  /** One step of the exponential moving average; it lies between the old estimate and the sample. */
  function SmoothedRate(avg: real, sample: real, alpha: real): (r: real)
    requires 0.0 < alpha < 1.0
    ensures MinReal(avg, sample) <= r <= MaxReal(avg, sample)
    ensures avg == sample ==> r == avg
  {
    var r := sample * alpha + (1.0 - alpha) * avg;
    assert r - avg == alpha * (sample - avg) && sample - r == (1.0 - alpha) * (sample - avg);
    ProductSign(alpha, sample - avg);
    ProductSign(1.0 - alpha, sample - avg);
    r
  }

  lemma ProductSign(k: real, d: real)
    requires k > 0.0
    ensures d >= 0.0 ==> k * d >= 0.0
    ensures d <= 0.0 ==> k * d <= 0.0
  {
  }

  /** The variables `RunSim` carries from one iteration to the next. */
  datatype Bookkeeping = Bookkeeping(simTime: real, lastStatusSend: real, avgSimRate: real)

  /** `sim_time = 0.0`, `last_status_send = 0`, `avg_sim_rate = -1.`: no estimate yet. */
  const InitialBookkeeping := Bookkeeping(0.0, 0.0, -1.0)

  /** The clock readings just before and just after the physics step. */
  datatype StepTiming = StepTiming(startStep: real, endStep: real)

  datatype TickResult = TickResult(next: Bookkeeping, publish: bool, stepRate: real, sleep: Option<real>)

  /**
   * The arithmetic of one `RunSim` iteration after the physics step:
   * advance simulated time, decide whether to publish status, update the
   * step-rate estimate, and decide how long to sleep.
   */
  function Tick(b: Bookkeeping, timestep: real, alpha: real, rate: real, startTime: real,
                t: StepTiming): (r: TickResult)
    requires timestep > 0.0 && 0.0 < alpha < 1.0 && t.endStep > t.startStep
    ensures r.next.simTime == b.simTime + timestep
    ensures r.publish <==> r.next.simTime - b.lastStatusSend > StatusPeriod
    ensures r.next.lastStatusSend == if r.publish then r.next.simTime else b.lastStatusSend
    ensures r.stepRate > 0.0 && r.stepRate * (t.endStep - t.startStep) == timestep
    ensures b.avgSimRate < 0.0 ==> r.next.avgSimRate == r.stepRate
    ensures b.avgSimRate >= 0.0 ==>
      MinReal(b.avgSimRate, r.stepRate) <= r.next.avgSimRate <= MaxReal(b.avgSimRate, r.stepRate)
    ensures r.sleep.Some? <==> r.next.simTime > (t.endStep - startTime) * rate
    ensures r.sleep.Some? ==>
      r.sleep.value > 0.0 && (t.endStep - startTime) * rate + r.sleep.value == r.next.simTime
  {
    var simTime := b.simTime + timestep;
    var publish := simTime - b.lastStatusSend > StatusPeriod;
    var stepRate := timestep / (t.endStep - t.startStep);
    var avg := if b.avgSimRate < 0.0 then stepRate else SmoothedRate(b.avgSimRate, stepRate, alpha);
    var targetSimTime := (t.endStep - startTime) * rate;
    TickResult(Bookkeeping(simTime, if publish then simTime else b.lastStatusSend, avg),
               publish, stepRate, if simTime > targetSimTime then Some(simTime - targetSimTime) else None)
  }

  // ------------------------------------------------------------ loop inputs

  /** What one iteration of `RunSim` receives from outside the model. */
  datatype Iteration = Iteration(
    lcm: Option<LcmPacket>,
    schunk: Option<SchunkCommand>,
    timing: StepTiming,
    leftPaddle: JointState,
    rightPaddle: JointState,
    keys: seq<KeyEvent>)

  /** What one iteration of `RunSim` did, and the values it carried on. */
  datatype StepRecord = StepRecord(
    iiwaTargets: seq<real>,
    schunkTargets: SchunkBuffers,
    simTime: real,
    lastStatusSend: real,
    stepRate: real,
    status: Option<SchunkStatus>,
    sleep: Option<real>)

  /** The IIWA buffer after the LCM delivery of one iteration, if any. */
  function DeliverIiwa(buf: seq<real>, lcm: Option<LcmPacket>): seq<real>
  {
    match lcm
    case Some(p) => ApplyIiwaPacket(buf, p)
    case None => buf
  }

  /** The Schunk buffers after the ROS delivery of one iteration, if any. */
  function DeliverSchunk(bufs: SchunkBuffers, schunk: Option<SchunkCommand>): SchunkBuffers
  {
    match schunk
    case Some(c) => SchunkCommandTargets(c)
    case None => bufs
  }

  /** The IIWA buffer after the packets delivered by a run of iterations. */
  function IiwaBufferAfter(buf: seq<real>, inputs: seq<Iteration>): (r: seq<real>)
  {
    if inputs == [] then buf
    else DeliverIiwa(IiwaBufferAfter(buf, inputs[..|inputs| - 1]), inputs[|inputs| - 1].lcm)
  }

  /** The Schunk buffers after the commands delivered by a run of iterations. */
  function SchunkBuffersAfter(bufs: SchunkBuffers, inputs: seq<Iteration>): SchunkBuffers
  {
    if inputs == [] then bufs
    else DeliverSchunk(SchunkBuffersAfter(bufs, inputs[..|inputs| - 1]), inputs[|inputs| - 1].schunk)
  }

  /**
   * Latest value wins: once a well-formed 7-joint command was delivered and
   * no packet followed it, the IIWA buffer holds exactly that command.
   */
  lemma {:induction false} LatestFullCommandWins(buf: seq<real>, inputs: seq<Iteration>, k: nat, cmd: IiwaCommand)
    requires |buf| == NumIiwaJoints && k < |inputs| && inputs[k].lcm == Some(Decoded(cmd))
    requires cmd.numJoints == |cmd.jointPosition| == NumIiwaJoints
    requires forall j :: k < j < |inputs| ==> inputs[j].lcm.None?
    ensures IiwaBufferAfter(buf, inputs) == cmd.jointPosition
  {
    IiwaBufferLength(buf, inputs[..|inputs| - 1]);
    if k < |inputs| - 1 {
      LatestFullCommandWins(buf, inputs[..|inputs| - 1], k, cmd);
    } else {
      FullCommandReplacesBuffer(IiwaBufferAfter(buf, inputs[..|inputs| - 1]), cmd);
    }
  }

  /** Handling packets never changes the length of the IIWA buffer. */
  lemma {:induction false} IiwaBufferLength(buf: seq<real>, inputs: seq<Iteration>)
    ensures |IiwaBufferAfter(buf, inputs)| == |buf|
  {
    if inputs != [] {
      IiwaBufferLength(buf, inputs[..|inputs| - 1]);
    }
  }

  /** Latest value wins for the gripper: the buffers hold the targets of the last command delivered. */
  lemma {:induction false} LatestSchunkCommandWins(bufs: SchunkBuffers, inputs: seq<Iteration>, k: nat, c: SchunkCommand)
    requires k < |inputs| && inputs[k].schunk == Some(c)
    requires forall j :: k < j < |inputs| ==> inputs[j].schunk.None?
    ensures SchunkBuffersAfter(bufs, inputs) == SchunkCommandTargets(c)
  {
    if k < |inputs| - 1 {
      LatestSchunkCommandWins(bufs, inputs[..|inputs| - 1], k, c);
    }
  }

  /** Without IIWA packets the IIWA buffer keeps its contents, whatever the gripper is sent. */
  lemma {:induction false} IiwaBufferWithoutPackets(buf: seq<real>, inputs: seq<Iteration>)
    requires forall j :: 0 <= j < |inputs| ==> inputs[j].lcm.None?
    ensures IiwaBufferAfter(buf, inputs) == buf
  {
    if inputs != [] {
      IiwaBufferWithoutPackets(buf, inputs[..|inputs| - 1]);
    }
  }

  /** Without gripper commands the gripper buffers keep their contents, whatever the arm is sent. */
  lemma {:induction false} SchunkBuffersWithoutCommands(bufs: SchunkBuffers, inputs: seq<Iteration>)
    requires forall j :: 0 <= j < |inputs| ==> inputs[j].schunk.None?
    ensures SchunkBuffersAfter(bufs, inputs) == bufs
  {
    if inputs != [] {
      SchunkBuffersWithoutCommands(bufs, inputs[..|inputs| - 1]);
    }
  }

  /** One more iteration delivers its own packet and command on top of the earlier ones. */
  lemma BuffersAfterSnoc(buf: seq<real>, bufs: SchunkBuffers, inputs: seq<Iteration>, n: nat)
    requires n < |inputs|
    ensures IiwaBufferAfter(buf, inputs[..n + 1]) == DeliverIiwa(IiwaBufferAfter(buf, inputs[..n]), inputs[n].lcm)
    ensures SchunkBuffersAfter(bufs, inputs[..n + 1]) == DeliverSchunk(SchunkBuffersAfter(bufs, inputs[..n]), inputs[n].schunk)
  {
    var prefix := inputs[..n + 1];
    assert prefix[..n] == inputs[..n] && prefix[n] == inputs[n];
  }

  /** The step rates of a run of records. */
  function StepRates(records: seq<StepRecord>): (rates: seq<real>)
    ensures |rates| == |records| && forall i :: 0 <= i < |records| ==> rates[i] == records[i].stepRate
  {
    if records == [] then [] else StepRates(records[..|records| - 1]) + [records[|records| - 1].stepRate]
  }

  /** The least element of a non-empty sequence. */
  function SeqMin(s: seq<real>): (m: real)
    requires |s| > 0
    ensures forall i :: 0 <= i < |s| ==> m <= s[i]
    ensures exists i :: 0 <= i < |s| && s[i] == m
  {
    if |s| == 1 then s[0] else MinReal(SeqMin(s[..|s| - 1]), s[|s| - 1])
  }

  /** The greatest element of a non-empty sequence. */
  function SeqMax(s: seq<real>): (m: real)
    requires |s| > 0
    ensures forall i :: 0 <= i < |s| ==> s[i] <= m
    ensures exists i :: 0 <= i < |s| && s[i] == m
  {
    if |s| == 1 then s[0] else MaxReal(SeqMax(s[..|s| - 1]), s[|s| - 1])
  }

  /** Simulated time after `k` iterations: `k` timesteps added one at a time. */
  function Ticks(k: nat, timestep: real): real
  {
    if k == 0 then 0.0 else Ticks(k - 1, timestep) + timestep
  }

  /** Adding the timestep `k` times is multiplying it by `k`. */
  lemma {:induction false} TicksIsProduct(k: nat, timestep: real)
    ensures Ticks(k, timestep) == k as real * timestep
  {
    if k > 0 {
      TicksIsProduct(k - 1, timestep);
    }
  }

  // ------------------------------------------------------- what RunSim keeps

  /** The IIWA buffer an iteration started from. */
  function IiwaBefore(records: seq<StepRecord>, i: nat, iiwa0: seq<real>): seq<real>
    requires i <= |records|
  {
    if i == 0 then iiwa0 else records[i - 1].iiwaTargets
  }

  /** The gripper buffers an iteration started from. */
  function SchunkBefore(records: seq<StepRecord>, i: nat, schunk0: SchunkBuffers): SchunkBuffers
    requires i <= |records|
  {
    if i == 0 then schunk0 else records[i - 1].schunkTargets
  }

  /** `last_status_send` as an iteration found it: 0 at the start. */
  function SendBefore(records: seq<StepRecord>, i: nat): real
    requires i <= |records|
  {
    if i == 0 then 0.0 else records[i - 1].lastStatusSend
  }

  /** Each iteration applies the targets the buffers hold after that iteration's deliveries. */
  ghost predicate BuffersRecorded(records: seq<StepRecord>, inputs: seq<Iteration>,
                                  iiwa0: seq<real>, schunk0: SchunkBuffers)
    requires |records| <= |inputs|
  {
    forall i :: 0 <= i < |records| ==> RecordedAt(records, inputs, iiwa0, schunk0, i)
  }

  /** Iteration `i` applied the buffers as its own deliveries left them. */
  ghost predicate RecordedAt(records: seq<StepRecord>, inputs: seq<Iteration>,
                             iiwa0: seq<real>, schunk0: SchunkBuffers, i: nat)
    requires i < |records| <= |inputs|
  {
    records[i].iiwaTargets == DeliverIiwa(IiwaBefore(records, i, iiwa0), inputs[i].lcm) &&
    records[i].schunkTargets == DeliverSchunk(SchunkBefore(records, i, schunk0), inputs[i].schunk)
  }

  /** The targets an iteration applies are the latest values delivered up to and including it. */
  lemma {:induction false} BuffersRecordedAreLatest(records: seq<StepRecord>, inputs: seq<Iteration>,
                                                    iiwa0: seq<real>, schunk0: SchunkBuffers, i: nat)
    requires |records| <= |inputs| && i < |records| && BuffersRecorded(records, inputs, iiwa0, schunk0)
    ensures records[i].iiwaTargets == IiwaBufferAfter(iiwa0, inputs[..i + 1])
    ensures records[i].schunkTargets == SchunkBuffersAfter(schunk0, inputs[..i + 1])
  {
    BuffersAfterSnoc(iiwa0, schunk0, inputs, i);
    assert RecordedAt(records, inputs, iiwa0, schunk0, i);
    if i == 0 {
      assert inputs[..0] == [];
    } else {
      BuffersRecordedAreLatest(records, inputs, iiwa0, schunk0, i - 1);
    }
  }

  /** Each iteration adds exactly one timestep of simulated time. */
  ghost predicate SimTimesAdvance(records: seq<StepRecord>, timestep: real)
  {
    forall i :: 0 <= i < |records| ==> records[i].simTime == Ticks(i + 1, timestep)
  }

  /**
   * Status is published exactly when more than `StatusPeriod` of simulated
   * time passed since `last_status_send`, which then becomes the current
   * simulated time; the status reports the paddles of that iteration.
   */
  ghost predicate PublishCadence(records: seq<StepRecord>, inputs: seq<Iteration>)
    requires |records| <= |inputs|
  {
    forall i :: 0 <= i < |records| ==> CadenceAt(records, inputs, i)
  }

  /** Iteration `i` published, or not, as the cadence demands. */
  ghost predicate CadenceAt(records: seq<StepRecord>, inputs: seq<Iteration>, i: nat)
    requires i < |records| <= |inputs|
  {
    (records[i].status.Some? <==> records[i].simTime - SendBefore(records, i) > StatusPeriod) &&
    records[i].lastStatusSend == (if records[i].status.Some? then records[i].simTime else SendBefore(records, i)) &&
    (records[i].status.Some? ==>
       records[i].status.value == SchunkStatusOf(inputs[i].leftPaddle, inputs[i].rightPaddle))
  }

  /** Any two publications are more than `StatusPeriod` of simulated time apart. */
  ghost predicate PublishesSpaced(records: seq<StepRecord>)
  {
    forall i, j :: 0 <= i < j < |records| && records[i].status.Some? && records[j].status.Some? ==>
      records[j].simTime - records[i].simTime > StatusPeriod
  }

  /** `rate` is `timestep / (endStep - startStep)`, a positive rate. */
  ghost predicate IsStepRate(rate: real, t: StepTiming, timestep: real)
  {
    rate > 0.0 && rate * (t.endStep - t.startStep) == timestep
  }

  /** Each step rate is the timestep over the wall time the physics step took. */
  ghost predicate RateSamples(records: seq<StepRecord>, inputs: seq<Iteration>, timestep: real)
    requires |records| <= |inputs|
  {
    forall i :: 0 <= i < |records| ==> IsStepRate(records[i].stepRate, inputs[i].timing, timestep)
  }

  /**
   * The loop sleeps exactly when simulated time is ahead of wall time
   * scaled by the rate, and then for a positive duration.
   */
  ghost predicate Throttled(records: seq<StepRecord>, inputs: seq<Iteration>, rate: real, startTime: real)
    requires |records| <= |inputs|
  {
    forall i :: 0 <= i < |records| ==> ThrottledAt(records[i], inputs[i], rate, startTime)
  }

  /** One iteration slept exactly when it was ahead, and then for a positive time. */
  ghost predicate ThrottledAt(rec: StepRecord, it: Iteration, rate: real, startTime: real)
  {
    (rec.sleep.Some? <==> rec.simTime > (it.timing.endStep - startTime) * rate) &&
    (rec.sleep.Some? ==> rec.sleep.value > 0.0)
  }

  /** How the variables `RunSim` carries relate to the records so far. */
  ghost predicate Carried(b: Bookkeeping, records: seq<StepRecord>, timestep: real)
  {
    CarriedTimes(b, records, timestep) && CarriedRate(b, records)
  }

  /** Simulated time and `last_status_send` as the records left them. */
  ghost predicate CarriedTimes(b: Bookkeeping, records: seq<StepRecord>, timestep: real)
  {
    && b.simTime == Ticks(|records|, timestep)
    && b.lastStatusSend == SendBefore(records, |records|)
  }

  /** The smoothed rate: unset before the first step, then within the samples. */
  ghost predicate CarriedRate(b: Bookkeeping, records: seq<StepRecord>)
  {
    && (records == [] ==> b.avgSimRate == -1.0)
    && (records != [] ==> 0.0 <= SeqMin(StepRates(records)) <= b.avgSimRate <= SeqMax(StepRates(records)))
  }

  /** The record of one iteration: its buffers, and what its `Tick` decided. */
  ghost predicate RecordsTick(rec: StepRecord, tick: TickResult, it: Iteration)
  {
    && rec.simTime == tick.next.simTime && rec.lastStatusSend == tick.next.lastStatusSend
    && rec.stepRate == tick.stepRate && rec.sleep == tick.sleep
    && rec.status == if tick.publish then Some(SchunkStatusOf(it.leftPaddle, it.rightPaddle)) else None
  }

  /** The previous records are a prefix of the extended run. */
  lemma RecordsSnoc(records: seq<StepRecord>, rec: StepRecord)
    ensures forall i :: 0 <= i < |records| ==> (records + [rec])[i] == records[i]
    ensures StepRates(records + [rec]) == StepRates(records) + [rec.stepRate]
  {
    assert (records + [rec])[..|records|] == records;
  }

  lemma RecordedStep(records: seq<StepRecord>, inputs: seq<Iteration>, iiwa0: seq<real>, schunk0: SchunkBuffers,
                     rec: StepRecord)
    requires |records| < |inputs| && BuffersRecorded(records, inputs, iiwa0, schunk0)
    requires rec.iiwaTargets == DeliverIiwa(IiwaBefore(records, |records|, iiwa0), inputs[|records|].lcm)
    requires rec.schunkTargets == DeliverSchunk(SchunkBefore(records, |records|, schunk0), inputs[|records|].schunk)
    ensures BuffersRecorded(records + [rec], inputs, iiwa0, schunk0)
  {
    var rs := records + [rec];
    RecordsSnoc(records, rec);
    forall i | 0 <= i < |rs|
      ensures RecordedAt(rs, inputs, iiwa0, schunk0, i)
    {
      if i < |records| {
        assert RecordedAt(records, inputs, iiwa0, schunk0, i);
      }
      if 0 < i {
        assert rs[i - 1] == records[i - 1];
      }
    }
  }

  lemma SimTimesStep(records: seq<StepRecord>, timestep: real, rec: StepRecord)
    requires SimTimesAdvance(records, timestep) && rec.simTime == Ticks(|records| + 1, timestep)
    ensures SimTimesAdvance(records + [rec], timestep)
  {
    RecordsSnoc(records, rec);
  }

  lemma CadenceStep(b: Bookkeeping, records: seq<StepRecord>, inputs: seq<Iteration>, timestep: real,
                    tick: TickResult, rec: StepRecord)
    requires |records| < |inputs| && PublishCadence(records, inputs) && Carried(b, records, timestep)
    requires RecordsTick(rec, tick, inputs[|records|])
    requires tick.publish <==> tick.next.simTime - b.lastStatusSend > StatusPeriod
    requires tick.next.lastStatusSend == if tick.publish then tick.next.simTime else b.lastStatusSend
    ensures PublishCadence(records + [rec], inputs)
  {
    var rs := records + [rec];
    RecordsSnoc(records, rec);
    forall i | 0 <= i < |rs|
      ensures CadenceAt(rs, inputs, i)
    {
      if i < |records| {
        assert CadenceAt(records, inputs, i);
      }
      if 0 < i {
        assert rs[i - 1] == records[i - 1];
      }
    }
  }

  lemma CarriedStep(b: Bookkeeping, records: seq<StepRecord>, timestep: real, tick: TickResult, rec: StepRecord)
    requires Carried(b, records, timestep) && timestep > 0.0
    requires rec.simTime == tick.next.simTime == b.simTime + timestep
    requires rec.lastStatusSend == tick.next.lastStatusSend
    requires tick.next.lastStatusSend == if rec.status.Some? then rec.simTime else b.lastStatusSend
    requires rec.stepRate == tick.stepRate > 0.0
    requires b.avgSimRate < 0.0 ==> tick.next.avgSimRate == tick.stepRate
    requires b.avgSimRate >= 0.0 ==>
      MinReal(b.avgSimRate, tick.stepRate) <= tick.next.avgSimRate <= MaxReal(b.avgSimRate, tick.stepRate)
    ensures Carried(tick.next, records + [rec], timestep)
  {
    CarriedTimesStep(b, records, timestep, tick.next, rec);
    CarriedRateStep(b, records, tick.next, rec);
  }

  lemma CarriedTimesStep(b: Bookkeeping, records: seq<StepRecord>, timestep: real, next: Bookkeeping, rec: StepRecord)
    requires CarriedTimes(b, records, timestep) && timestep > 0.0
    requires rec.simTime == next.simTime == b.simTime + timestep
    requires rec.lastStatusSend == next.lastStatusSend
    ensures CarriedTimes(next, records + [rec], timestep)
  {
    assert (records + [rec])[|records|] == rec;
  }

  lemma CarriedRateStep(b: Bookkeeping, records: seq<StepRecord>, next: Bookkeeping, rec: StepRecord)
    requires CarriedRate(b, records) && rec.stepRate > 0.0
    requires b.avgSimRate < 0.0 ==> next.avgSimRate == rec.stepRate
    requires b.avgSimRate >= 0.0 ==>
      MinReal(b.avgSimRate, rec.stepRate) <= next.avgSimRate <= MaxReal(b.avgSimRate, rec.stepRate)
    ensures CarriedRate(next, records + [rec])
  {
    var n := |records|;
    var rs := records + [rec];
    RecordsSnoc(records, rec);
    var rates := StepRates(rs);
    if n == 0 {
      assert rates == [rec.stepRate];
    } else {
      assert rates[..n] == StepRates(records);
      assert SeqMin(rates) == MinReal(SeqMin(StepRates(records)), rec.stepRate);
      assert SeqMax(rates) == MaxReal(SeqMax(StepRates(records)), rec.stepRate);
    }
  }

  lemma RateSamplesStep(records: seq<StepRecord>, inputs: seq<Iteration>, timestep: real, rec: StepRecord)
    requires |records| < |inputs| && RateSamples(records, inputs, timestep)
    requires IsStepRate(rec.stepRate, inputs[|records|].timing, timestep)
    ensures RateSamples(records + [rec], inputs, timestep)
  {
    RecordsSnoc(records, rec);
  }

  lemma ThrottledStep(records: seq<StepRecord>, inputs: seq<Iteration>, rate: real, startTime: real,
                      rec: StepRecord)
    requires |records| < |inputs| && Throttled(records, inputs, rate, startTime)
    requires ThrottledAt(rec, inputs[|records|], rate, startTime)
    ensures Throttled(records + [rec], inputs, rate, startTime)
  {
    RecordsSnoc(records, rec);
  }

  /** The step rate `Tick` computes is the timestep over the duration of the step. */
  lemma TickStepRate(b: Bookkeeping, timestep: real, alpha: real, rate: real, startTime: real, t: StepTiming)
    requires timestep > 0.0 && 0.0 < alpha < 1.0 && t.endStep > t.startStep
    ensures IsStepRate(Tick(b, timestep, alpha, rate, startTime, t).stepRate, t, timestep)
  {
  }

  /** Everything the bookkeeping of `RunSim` keeps true about the iterations run so far. */
  ghost predicate RunFacts(b: Bookkeeping, records: seq<StepRecord>, inputs: seq<Iteration>,
                           timestep: real, rate: real, startTime: real)
  {
    && |records| <= |inputs|
    && Carried(b, records, timestep)
    && SimTimesAdvance(records, timestep)
    && PublishCadence(records, inputs)
    && RateSamples(records, inputs, timestep)
    && Throttled(records, inputs, rate, startTime)
  }

  /** One more iteration, recorded from its `Tick`, keeps the facts. */
  lemma RunFactsStep(b: Bookkeeping, records: seq<StepRecord>, inputs: seq<Iteration>,
                     timestep: real, alpha: real, rate: real, startTime: real,
                     tick: TickResult, rec: StepRecord, next: Bookkeeping, nextRecords: seq<StepRecord>)
    requires RunFacts(b, records, inputs, timestep, rate, startTime) && |records| < |inputs|
    requires timestep > 0.0 && 0.0 < alpha < 1.0
    requires inputs[|records|].timing.endStep > inputs[|records|].timing.startStep
    requires tick == Tick(b, timestep, alpha, rate, startTime, inputs[|records|].timing)
    requires RecordsTick(rec, tick, inputs[|records|])
    requires next == tick.next && nextRecords == records + [rec]
    ensures RunFacts(next, nextRecords, inputs, timestep, rate, startTime)
  {
    var it := inputs[|records|];
    SimTimesStep(records, timestep, rec);
    CadenceStep(b, records, inputs, timestep, tick, rec);
    CarriedStep(b, records, timestep, tick, rec);
    TickStepRate(b, timestep, alpha, rate, startTime, it.timing);
    RateSamplesStep(records, inputs, timestep, rec);
    ThrottledStep(records, inputs, rate, startTime, rec);
  }

  /** Simulated time never decreases from one iteration to a later one. */
  lemma {:induction false} TicksGrow(i: nat, j: nat, timestep: real)
    requires i <= j && timestep > 0.0
    ensures Ticks(i, timestep) <= Ticks(j, timestep)
    decreases j - i
  {
    if i < j {
      TicksGrow(i, j - 1, timestep);
    }
  }

  /** Once iteration `i` published, `last_status_send` is at least its simulated time. */
  lemma {:induction false} SendAfterPublish(records: seq<StepRecord>, inputs: seq<Iteration>, timestep: real,
                                            i: nat, j: nat)
    requires |records| <= |inputs| && timestep > 0.0
    requires SimTimesAdvance(records, timestep) && PublishCadence(records, inputs)
    requires i < j <= |records| && records[i].status.Some?
    ensures records[i].simTime <= SendBefore(records, j)
    decreases j - i
  {
    assert CadenceAt(records, inputs, j - 1);
    if i < j - 1 {
      SendAfterPublish(records, inputs, timestep, i, j - 1);
      if records[j - 1].status.Some? {
        TicksGrow(i + 1, j, timestep);
      }
    }
  }

  /** The cadence spaces publications: any two are more than `StatusPeriod` of simulated time apart. */
  lemma CadenceSpacesPublications(records: seq<StepRecord>, inputs: seq<Iteration>, timestep: real)
    requires |records| <= |inputs| && timestep > 0.0
    requires SimTimesAdvance(records, timestep) && PublishCadence(records, inputs)
    ensures PublishesSpaced(records)
  {
    forall i, j | 0 <= i < j < |records| && records[i].status.Some? && records[j].status.Some?
      ensures records[j].simTime - records[i].simTime > StatusPeriod
    {
      assert CadenceAt(records, inputs, j);
      SendAfterPublish(records, inputs, timestep, i, j);
    }
  }

  // ------------------------------------------------- the loop, as a function

  /** What `RunSim` holds after some iterations: its bookkeeping, both buffers and the records. */
  datatype SimState = SimState(book: Bookkeeping, iiwa: seq<real>, schunk: SchunkBuffers, records: seq<StepRecord>)

  /** The record of one iteration: the targets it applied, and what its `Tick` decided. */
  function RecordOf(iiwaTargets: seq<real>, schunkTargets: SchunkBuffers, tick: TickResult, it: Iteration): (rec: StepRecord)
    ensures RecordsTick(rec, tick, it)
  {
    StepRecord(iiwaTargets, schunkTargets, tick.next.simTime, tick.next.lastStatusSend, tick.stepRate,
               if tick.publish then Some(SchunkStatusOf(it.leftPaddle, it.rightPaddle)) else None,
               tick.sleep)
  }

  /** Every physics step took some wall time. */
  ghost predicate StepsTakeTime(inputs: seq<Iteration>)
  {
    forall i :: 0 <= i < |inputs| ==> inputs[i].timing.endStep > inputs[i].timing.startStep
  }

  /**
   * The first `k` iterations of the loop: deliveries into the buffers, the
   * targets read back, and the bookkeeping of `Tick`, from the buffers
   * `iiwa0` and `schunk0` and the initial bookkeeping.
   */
  function Run(iiwa0: seq<real>, schunk0: SchunkBuffers, inputs: seq<Iteration>, k: nat,
               timestep: real, rate: real, startTime: real): (st: SimState)
    requires k <= |inputs| && timestep > 0.0 && StepsTakeTime(inputs)
    ensures |st.records| == k
  {
    if k == 0 then SimState(InitialBookkeeping, iiwa0, schunk0, [])
    else
      var prev := Run(iiwa0, schunk0, inputs, k - 1, timestep, rate, startTime);
      var it := inputs[k - 1];
      var iiwa := DeliverIiwa(prev.iiwa, it.lcm);
      var schunk := DeliverSchunk(prev.schunk, it.schunk);
      var tick := Tick(prev.book, timestep, SimRateAlpha(timestep), rate, startTime, it.timing);
      SimState(tick.next, iiwa, schunk, prev.records + [RecordOf(iiwa, schunk, tick, it)])
  }

  /**
   * After any number of iterations, each iteration applied the latest
   * targets delivered up to it, and the buffers hold the latest values.
   */
  lemma {:induction false} RunBuffers(iiwa0: seq<real>, schunk0: SchunkBuffers, inputs: seq<Iteration>, k: nat,
                                      timestep: real, rate: real, startTime: real)
    requires k <= |inputs| && timestep > 0.0 && StepsTakeTime(inputs)
    ensures var st := Run(iiwa0, schunk0, inputs, k, timestep, rate, startTime);
      && BuffersRecorded(st.records, inputs, iiwa0, schunk0)
      && st.iiwa == IiwaBefore(st.records, k, iiwa0) == IiwaBufferAfter(iiwa0, inputs[..k])
      && st.schunk == SchunkBefore(st.records, k, schunk0) == SchunkBuffersAfter(schunk0, inputs[..k])
  {
    if k > 0 {
      RunBuffers(iiwa0, schunk0, inputs, k - 1, timestep, rate, startTime);
      var prev := Run(iiwa0, schunk0, inputs, k - 1, timestep, rate, startTime);
      var st := Run(iiwa0, schunk0, inputs, k, timestep, rate, startTime);
      var rec := st.records[k - 1];
      assert st.records == prev.records + [rec];
      BuffersAfterSnoc(iiwa0, schunk0, inputs, k - 1);
      RecordedStep(prev.records, inputs, iiwa0, schunk0, rec);
    } else {
      assert inputs[..0] == [];
    }
  }

  /**
   * After any number of iterations: simulated time advanced by one timestep
   * per iteration, status was published on the cadence and never more often,
   * each rate sample is the timestep over its step's wall time, the smoothed
   * rate stays within the samples, and the loop slept exactly when ahead.
   */
  lemma {:induction false} RunBookkeeping(iiwa0: seq<real>, schunk0: SchunkBuffers, inputs: seq<Iteration>, k: nat,
                                          timestep: real, rate: real, startTime: real)
    requires k <= |inputs| && timestep > 0.0 && StepsTakeTime(inputs)
    ensures var st := Run(iiwa0, schunk0, inputs, k, timestep, rate, startTime);
      RunFacts(st.book, st.records, inputs, timestep, rate, startTime)
  {
    if k > 0 {
      RunBookkeeping(iiwa0, schunk0, inputs, k - 1, timestep, rate, startTime);
      var prev := Run(iiwa0, schunk0, inputs, k - 1, timestep, rate, startTime);
      var it := inputs[k - 1];
      var alpha := SimRateAlpha(timestep);
      var tick := Tick(prev.book, timestep, alpha, rate, startTime, it.timing);
      var st := Run(iiwa0, schunk0, inputs, k, timestep, rate, startTime);
      var rec := st.records[k - 1];
      assert st.records == prev.records + [rec] && st.book == tick.next;
      assert inputs[|prev.records|] == it && RecordsTick(rec, tick, it);
      RunFactsStep(prev.book, prev.records, inputs, timestep, alpha, rate, startTime, tick, rec, st.book, st.records);
    }
  }

  /** However many iterations ran, no two status publications are closer than `StatusPeriod`. */
  lemma RunPublishesSpaced(iiwa0: seq<real>, schunk0: SchunkBuffers, inputs: seq<Iteration>, k: nat,
                           timestep: real, rate: real, startTime: real)
    requires k <= |inputs| && timestep > 0.0 && StepsTakeTime(inputs)
    ensures PublishesSpaced(Run(iiwa0, schunk0, inputs, k, timestep, rate, startTime).records)
  {
    var st := Run(iiwa0, schunk0, inputs, k, timestep, rate, startTime);
    RunBookkeeping(iiwa0, schunk0, inputs, k, timestep, rate, startTime);
    CadenceSpacesPublications(st.records, inputs, timestep);
  }

  // ------------------------------------------------------------ the simulator

  class IiwaRlgSimulator {
    const timestep: real
    const rate: real
    /** The 7 latest IIWA position targets, updated entry by entry. */
    const lastIiwaPositionCommand: array<real>
    var lastSchunkPositionCommand: seq<real>
    var lastSchunkTorqueCommand: seq<real>

    ghost predicate Valid()
      reads this
    {
      lastIiwaPositionCommand.Length == NumIiwaJoints &&
      |lastSchunkPositionCommand| == NumSchunkJoints && |lastSchunkTorqueCommand| == NumSchunkJoints
    }

    function SchunkState(): SchunkBuffers
      reads this
    {
      SchunkBuffers(lastSchunkPositionCommand, lastSchunkTorqueCommand)
    }

    /** All buffers start at zero. */
    constructor (timestep: real, rate: real)
      ensures Valid() && fresh(lastIiwaPositionCommand)
      ensures this.timestep == timestep && this.rate == rate
      ensures lastIiwaPositionCommand[..] == [0.0, 0.0, 0.0, 0.0, 0.0, 0.0, 0.0]
      ensures lastSchunkPositionCommand == [0.0, 0.0] && lastSchunkTorqueCommand == [0.0, 0.0]
    {
      this.timestep := timestep;
      this.rate := rate;
      lastIiwaPositionCommand := new real[NumIiwaJoints](_ => 0.0);
      lastSchunkPositionCommand := [0.0, 0.0];
      lastSchunkTorqueCommand := [0.0, 0.0];
    }

    /** The LCM handler: overwrite the leading entries the message provides. */
    method HandleIiwaCommand(packet: LcmPacket)
      requires Valid()
      modifies lastIiwaPositionCommand
      ensures Valid()
      ensures lastIiwaPositionCommand[..] == ApplyIiwaPacket(old(lastIiwaPositionCommand[..]), packet)
      ensures SchunkState() == old(SchunkState())
    {
      match packet
      case Undecodable =>
      case Decoded(msg) =>
        var i: nat := 0;
        while i < msg.numJoints
          invariant i <= WrittenJoints(msg)
          invariant forall k :: 0 <= k < i ==> lastIiwaPositionCommand[k] == msg.jointPosition[k]
          invariant forall k :: i <= k < NumIiwaJoints ==> lastIiwaPositionCommand[k] == old(lastIiwaPositionCommand[k])
          decreases msg.numJoints - i
        {
          if i >= |msg.jointPosition| || i >= lastIiwaPositionCommand.Length {
            break;
          }
          lastIiwaPositionCommand[i] := msg.jointPosition[i];
          i := i + 1;
        }
        assert i == WrittenJoints(msg);
        assert lastIiwaPositionCommand[..] == ApplyIiwaPacket(old(lastIiwaPositionCommand[..]), packet);
    }

    /** A copy of the IIWA buffer. */
    method GetIiwaPositionCommand() returns (command: seq<real>)
      ensures command == lastIiwaPositionCommand[..]
    {
      command := lastIiwaPositionCommand[..];
    }

    /** The ROS handler: replace both gripper buffers. */
    method HandleSchunkCommand(msg: SchunkCommand)
      modifies this
      ensures SchunkState() == SchunkCommandTargets(msg)
      ensures lastIiwaPositionCommand[..] == old(lastIiwaPositionCommand[..])
    {
      var t := SchunkCommandTargets(msg);
      lastSchunkPositionCommand := t.position;
      lastSchunkTorqueCommand := t.torque;
    }

    /** Copies of the gripper buffers. */
    method GetSchunkCommand() returns (positionCommand: seq<real>, torqueCommand: seq<real>)
      ensures positionCommand == lastSchunkPositionCommand && torqueCommand == lastSchunkTorqueCommand
    {
      positionCommand := lastSchunkPositionCommand;
      torqueCommand := lastSchunkTorqueCommand;
    }

    /**
     * The deliveries of one iteration and the reads that follow: the LCM
     * packet `handle_timeout` hands to the IIWA handler on this thread, then
     * the gripper command of the ROS thread as one atomic update, then the
     * copies of both buffers that are sent to the motors.
     */
    method DeliverAndRead(it: Iteration) returns (iiwaTargets: seq<real>, schunkTargets: SchunkBuffers)
      requires Valid()
      modifies this, lastIiwaPositionCommand
      ensures Valid()
      ensures iiwaTargets == lastIiwaPositionCommand[..] == DeliverIiwa(old(lastIiwaPositionCommand[..]), it.lcm)
      ensures schunkTargets == SchunkState() == DeliverSchunk(old(SchunkState()), it.schunk)
    {
      if it.lcm.Some? {
        HandleIiwaCommand(it.lcm.value);
      }
      if it.schunk.Some? {
        HandleSchunkCommand(it.schunk.value);
      }
      iiwaTargets := GetIiwaPositionCommand();
      var schunkPosition, schunkTorque := GetSchunkCommand();
      schunkTargets := SchunkBuffers(schunkPosition, schunkTorque);
    }

    /**
     * The simulation loop, over the iterations the inputs describe. It stops
     * at the first iteration whose keyboard poll yields `q` (Quit) or `r`
     * (Restart); `Continue` means the inputs ran out first. A positive rate
     * and steps ending after the start keep the rate printed each iteration,
     * `sim_time / (elapsed * rate)`, from dividing by zero.
     */
    method RunSim(startTime: real, inputs: seq<Iteration>)
      returns (signal: ControlSignal, records: seq<StepRecord>, avgSimRate: real)
      requires Valid() && timestep > 0.0 && StepsTakeTime(inputs)
      requires rate > 0.0 && forall i :: 0 <= i < |inputs| ==> inputs[i].timing.endStep > startTime
      modifies this, lastIiwaPositionCommand
      ensures Valid()
      ensures |records| <= |inputs|
      ensures signal == Continue ==> |records| == |inputs|
      ensures signal == Continue ==> forall i :: 0 <= i < |records| ==> KeySignal(inputs[i].keys) == Continue
      ensures signal != Continue ==> |records| > 0 && signal == KeySignal(inputs[|records| - 1].keys)
      ensures forall i :: 0 <= i < |records| - 1 ==> KeySignal(inputs[i].keys) == Continue
      ensures var st := Run(old(lastIiwaPositionCommand[..]), old(SchunkState()), inputs, |records|,
                            timestep, rate, startTime);
        records == st.records && avgSimRate == st.book.avgSimRate &&
        lastIiwaPositionCommand[..] == st.iiwa && SchunkState() == st.schunk
    {
      ghost var iiwa0 := lastIiwaPositionCommand[..];
      ghost var schunk0 := SchunkState();
      var alpha := SimRateAlpha(timestep);
      var b := InitialBookkeeping;
      signal := Continue;
      records := [];
      var n := 0;
      while n < |inputs| && signal == Continue
        invariant Valid()
        invariant n <= |inputs|
        invariant signal != Continue ==> n > 0 && signal == KeySignal(inputs[n - 1].keys)
        invariant forall i :: 0 <= i < n - 1 ==> KeySignal(inputs[i].keys) == Continue
        invariant signal == Continue ==> forall i :: 0 <= i < n ==> KeySignal(inputs[i].keys) == Continue
        invariant SimState(b, lastIiwaPositionCommand[..], SchunkState(), records)
               == Run(iiwa0, schunk0, inputs, n, timestep, rate, startTime)
        decreases |inputs| - n
      {
        var it := inputs[n];
        var iiwaTargets, schunkTargets := DeliverAndRead(it);
        // the physics step runs between the two clock readings
        var tick := Tick(b, timestep, alpha, rate, startTime, it.timing);
        b := tick.next;
        records := records + [RecordOf(iiwaTargets, schunkTargets, tick, it)];
        n := n + 1;
        signal := KeySignal(it.keys);
      }
      avgSimRate := b.avgSimRate;
    }
  }
}
