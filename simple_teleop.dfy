/**
 * Model of the mouse teleoperation node: the small message constructors and
 * the control loop of `do_main`, which turns mouse and keyboard flags into
 * clamped roll, yaw, pitch and gripper goals and a Cartesian setpoint.
 *
 * ROS services, the action client, tf lookups and the gripper driver are
 * outside the model: per iteration the loop receives the plan number the
 * plan runner reports, the plan number a restart would return, the current
 * end-effector translation (or the failed lookup) and the mouse events, and
 * it returns what it sends out.
 */
module SimpleTeleop {
  import opened Wrappers

  datatype Vector3 = Vector3(x: real, y: real, z: real)

  /** A `robot_msgs/CartesianGain`. */
  datatype CartesianGain = CartesianGain(rotation: Vector3, translation: Vector3)

  /** A `robot_msgs/ExternalForceGuard`: the guarded body, the frame the force is expressed in, the force. */
  datatype ExternalForceGuard = ExternalForceGuard(bodyFrame: string, forceFrameId: string, force: Vector3)

  /** A `robot_msgs/ForceGuard`. */
  datatype ForceGuard = ForceGuard(externalForceGuards: seq<ExternalForceGuard>)

  /** The end-effector frame name. */
  const EeFrame: string := "iiwa_link_ee"

  // ------------------------------------------------------------- constructors

  /** All three rotation gains are `kpRot`, all three translation gains `kpTrans`. */
  function MakeCartesianGainsMsg(kpRot: real, kpTrans: real): (msg: CartesianGain)
    ensures msg.rotation.x == kpRot && msg.rotation.y == kpRot && msg.rotation.z == kpRot
    ensures msg.translation.x == kpTrans && msg.translation.y == kpTrans && msg.translation.z == kpTrans
  {
    CartesianGain(Vector3(kpRot, kpRot, kpRot), Vector3(kpTrans, kpTrans, kpTrans))
  }

  /**
   * One force guard on the end effector, expressed in the end-effector frame:
   * a force of magnitude `scale` along its negative x axis.
   */
  function MakeForceGuardMsg(scale: real): (msg: ForceGuard)
    ensures |msg.externalForceGuards| == 1
    ensures msg.externalForceGuards[0].bodyFrame == EeFrame && msg.externalForceGuards[0].forceFrameId == EeFrame
    ensures msg.externalForceGuards[0].force == Vector3(-scale, 0.0, 0.0)
  {
    var forceVec := Vector3(scale * -1.0, scale * 0.0, scale * 0.0);
    ForceGuard([ExternalForceGuard(EeFrame, EeFrame, forceVec)])
  }

  /** Reorders a `[w, x, y, z]` quaternion as `[x, y, z, w]`. */
  function Ro(quat: seq<real>): (r: seq<real>)
    requires |quat| >= 4
    ensures |r| == 4 && r[3] == quat[0]
    ensures forall k :: 0 <= k < 3 ==> r[k] == quat[k + 1]
  {
    [quat[1], quat[2], quat[3], quat[0]]
  }

  /** `Ro` is a rotation of the four components: applied four times it gives them back. */
  lemma RoFourTimesIsIdentity(quat: seq<real>)
    requires |quat| >= 4
    ensures Ro(Ro(Ro(Ro(quat)))) == quat[..4]
  {
    var q1 := Ro(quat);
    var q2 := Ro(q1);
    var q3 := Ro(q2);
    var q4 := Ro(q3);
    assert q4[0] == quat[0] && q4[1] == quat[1] && q4[2] == quat[2] && q4[3] == quat[3];
  }

  /** `Ro` keeps the four components, only moving them. */
  lemma RoPermutes(quat: seq<real>)
    requires |quat| >= 4
    ensures multiset(Ro(quat)) == multiset(quat[..4])
  {
    assert Ro(quat) == quat[1..4] + quat[..1];
    assert quat[..4] == quat[..1] + quat[1..4];
    assert multiset(Ro(quat)) == multiset(quat[1..4]) + multiset(quat[..1]);
  }

  // -------------------------------------------------------------- goal updates

  const RollStep: real := 0.01
  const RollLimit: real := 0.9
  const YawStep: real := 0.02
  const PitchStep: real := 0.02
  const YawPitchLimit: real := 1.314
  const GripperStep: real := 0.01
  const GripperOpen: real := 0.1
  const ForwardScale: real := 0.03
  const ScaleDown: real := 0.01
  const ForceGuardScale: real := 20.0
  const KpRot: real := 5.0
  const KpTrans: real := 10.0

  /** The flags and wheel deltas of `get_mouse_events` that the loop reads. */
  datatype MouseEvents = MouseEvents(
    r: bool, w: bool, s: bool, a: bool, d: bool,
    rotateLeft: bool, rotateRight: bool,
    sideButtonBack: bool, sideButtonForward: bool,
    mouseWheelUp: bool, mouseWheelDown: bool,
    deltaX: real, deltaY: real)

  /** The goals the loop carries across iterations. */
  datatype Goals = Goals(roll: real, yaw: real, pitch: real, gripper: real)

  /** Roll, yaw and pitch start at zero; the gripper starts open. */
  const InitialGoals := Goals(0.0, 0.0, 0.0, GripperOpen)

  /** `np.clip(v, a_min = lo, a_max = hi)`. */
  function Clip(v: real, lo: real, hi: real): (r: real)
    requires lo <= hi
    ensures lo <= r <= hi
    ensures lo <= v <= hi ==> r == v
    ensures v < lo ==> r == lo
    ensures v > hi ==> r == hi
  {
    MinReal(MaxReal(v, lo), hi)
  }

  /** The net change two opposing buttons ask for: `+step`, `-step`, or nothing for both or neither. */
  function NetStep(up: bool, down: bool, step: real): (delta: real)
    ensures up && !down ==> delta == step
    ensures down && !up ==> delta == -step
    ensures up == down ==> delta == 0.0
  {
    (if up then step else 0.0) - (if down then step else 0.0)
  }

  /**
   * One angular goal after its two buttons: moved by the net step, then
   * clipped to `[-limit, limit]`.
   */
  function StepAxis(v: real, up: bool, down: bool, step: real, limit: real): (r: real)
    requires limit >= 0.0
    ensures -limit <= r <= limit
    ensures -limit <= v + NetStep(up, down, step) <= limit ==> r == v + NetStep(up, down, step)
    ensures v + NetStep(up, down, step) > limit ==> r == limit
    ensures v + NetStep(up, down, step) < -limit ==> r == -limit
  {
    Clip(v + NetStep(up, down, step), -limit, limit)
  }

  /** The gripper goal's two clamping `if`s: raise a negative value to 0, then lower one above 0.1 to 0.1. */
  function GripperClamp(g: real): (r: real)
  {
    var g1 := if g < 0.0 then 0.0 else g;
    if g1 > GripperOpen then GripperOpen else g1
  }

  /** The two `if`s clamp exactly as clipping to `[0, 0.1]` would. */
  lemma GripperClampIsClip(g: real)
    ensures GripperClamp(g) == Clip(g, 0.0, GripperOpen)
    ensures 0.0 <= GripperClamp(g) <= GripperOpen
  {
  }

  /** The gripper goal after the wheel: one step per wheel direction, then clamped. */
  function StepGripper(g: real, up: bool, down: bool): (r: real)
    ensures 0.0 <= r <= GripperOpen
    ensures 0.0 <= g + NetStep(up, down, GripperStep) <= GripperOpen ==> r == g + NetStep(up, down, GripperStep)
    ensures g + NetStep(up, down, GripperStep) < 0.0 ==> r == 0.0
    ensures g + NetStep(up, down, GripperStep) > GripperOpen ==> r == GripperOpen
  {
    var g1 := g + NetStep(up, down, GripperStep);
    GripperClampIsClip(g1);
    GripperClamp(g1)
  }

  /** All four goals after one iteration's events, in the order the loop applies them. */
  function StepGoals(g: Goals, e: MouseEvents): (r: Goals)
    ensures -RollLimit <= r.roll <= RollLimit
    ensures -YawPitchLimit <= r.yaw <= YawPitchLimit && -YawPitchLimit <= r.pitch <= YawPitchLimit
    ensures 0.0 <= r.gripper <= GripperOpen
  {
    Goals(StepAxis(g.roll, e.rotateLeft, e.rotateRight, RollStep, RollLimit),
          StepAxis(g.yaw, e.sideButtonBack, e.sideButtonForward, YawStep, YawPitchLimit),
          StepAxis(g.pitch, e.d, e.a, PitchStep, YawPitchLimit),
          StepGripper(g.gripper, e.mouseWheelUp, e.mouseWheelDown))
  }

  /** Goals within their ranges, as every iteration leaves them. */
  predicate InRange(g: Goals)
  {
    && -RollLimit <= g.roll <= RollLimit
    && -YawPitchLimit <= g.yaw <= YawPitchLimit && -YawPitchLimit <= g.pitch <= YawPitchLimit
    && 0.0 <= g.gripper <= GripperOpen
  }

  /** Without any goal button or wheel event, goals within their ranges stay where they are. */
  lemma StepGoalsIdle(g: Goals, e: MouseEvents)
    requires InRange(g)
    requires !e.rotateLeft && !e.rotateRight && !e.sideButtonBack && !e.sideButtonForward
    requires !e.a && !e.d && !e.mouseWheelUp && !e.mouseWheelDown
    ensures StepGoals(g, e) == g
  {
  }

  /** `w` moves the target back by 0.03, `s` forward by 0.03; both or neither cancel. */
  function ForwardDelta(e: MouseEvents): (delta: real)
    ensures e.w && !e.s ==> delta == -ForwardScale
    ensures e.s && !e.w ==> delta == ForwardScale
    ensures e.w == e.s ==> delta == 0.0
  {
    var delta := 0.0;
    var delta := if e.w then delta - ForwardScale else delta;
    if e.s then delta + ForwardScale else delta
  }

  /** The commanded end-effector position: the current one plus the forward step and the scaled mouse motion. */
  function TargetTranslation(ee: Vector3, e: MouseEvents): (t: Vector3)
    ensures t.x - ee.x == ForwardDelta(e)
    ensures t.y - ee.y == ScaleDown * e.deltaX && t.z - ee.z == -ScaleDown * e.deltaY
  {
    var targetTranslation := Vector3(ForwardDelta(e), e.deltaX * ScaleDown, e.deltaY * -ScaleDown);
    Vector3(ee.x + targetTranslation.x, ee.y + targetTranslation.y, ee.z + targetTranslation.z)
  }

  // -------------------------------------------------------------- control loop

  /**
   * A `robot_msgs/CartesianGoalPoint` without its orientation: the frame of
   * the point, the point, the velocity, the gains and the end-effector frame.
   */
  datatype CartesianGoalPoint = CartesianGoalPoint(
    frameId: string, xyzPoint: Vector3, xyzDPoint: Vector3, gain: CartesianGain, eeFrameId: string)

  /** The setpoint published for a target position. */
  function Setpoint(target: Vector3): (msg: CartesianGoalPoint)
    ensures msg.frameId == "world" && msg.xyzPoint == target && msg.xyzDPoint == Vector3(0.0, 0.0, 0.0)
    ensures msg.gain == MakeCartesianGainsMsg(KpRot, KpTrans) && msg.eeFrameId == EeFrame
  {
    CartesianGoalPoint("world", target, Vector3(0.0, 0.0, 0.0), MakeCartesianGainsMsg(KpRot, KpTrans), EeFrame)
  }

  /** What one iteration of the control loop receives from outside the model. */
  datatype TeleopIteration = TeleopIteration(
    reportedPlanNumber: int,
    restartedPlanNumber: int,
    eeTranslation: Option<Vector3>,
    events: MouseEvents)

  /** What the rest of an iteration did once the plan number was checked. */
  datatype Action =
    | PoseUnavailable
    | Homed
    | Commanded(setpoint: CartesianGoalPoint, gripperCommand: real)

  /** The force guard a plan restart was requested with (if the plan changed), and the action taken. */
  datatype IterationOutput = IterationOutput(restart: Option<ForceGuard>, action: Action)

  /** The goals and the plan number the loop carries. */
  datatype TeleopState = TeleopState(goals: Goals, planNumber: int)

  datatype StepResult = StepResult(next: TeleopState, output: IterationOutput)

  /** One iteration of the control loop. */
  function TeleopStep(st: TeleopState, it: TeleopIteration): (r: StepResult)
    ensures r.next.planNumber == if it.reportedPlanNumber != st.planNumber then it.restartedPlanNumber else st.planNumber
    ensures r.output.restart.Some? <==> it.reportedPlanNumber != st.planNumber
    ensures r.output.restart.Some? ==> r.output.restart.value == MakeForceGuardMsg(ForceGuardScale)
    ensures it.eeTranslation.None? ==> r.output.action == PoseUnavailable && r.next.goals == st.goals
    ensures it.eeTranslation.Some? && it.events.r ==> r.output.action == Homed && r.next.goals == st.goals
    ensures it.eeTranslation.Some? && !it.events.r ==>
      r.next.goals == StepGoals(st.goals, it.events) &&
      r.output.action == Commanded(Setpoint(TargetTranslation(it.eeTranslation.value, it.events)), r.next.goals.gripper)
  {
    var restart := if it.reportedPlanNumber != st.planNumber then Some(MakeForceGuardMsg(ForceGuardScale)) else None;
    var planNumber := if it.reportedPlanNumber != st.planNumber then it.restartedPlanNumber else st.planNumber;
    match it.eeTranslation
    case None => StepResult(TeleopState(st.goals, planNumber), IterationOutput(restart, PoseUnavailable))
    case Some(ee) =>
      if it.events.r then StepResult(TeleopState(st.goals, planNumber), IterationOutput(restart, Homed))
      else
        var goals := StepGoals(st.goals, it.events);
        var target := TargetTranslation(ee, it.events);
        StepResult(TeleopState(goals, planNumber), IterationOutput(restart, Commanded(Setpoint(target), goals.gripper)))
  }

  datatype RunResult = RunResult(final: TeleopState, outputs: seq<IterationOutput>)

  /** The control loop over a run of iterations. */
  function TeleopRun(st: TeleopState, inputs: seq<TeleopIteration>): (r: RunResult)
    ensures |r.outputs| == |inputs|
  {
    if inputs == [] then RunResult(st, [])
    else
      var prev := TeleopRun(st, inputs[..|inputs| - 1]);
      var step := TeleopStep(prev.final, inputs[|inputs| - 1]);
      RunResult(step.next, prev.outputs + [step.output])
  }

  /**
   * From goals within their ranges, the goals stay within their ranges
   * however many iterations run, and every gripper command is in `[0, 0.1]`.
   */
  lemma {:induction false} TeleopRunInRange(st: TeleopState, inputs: seq<TeleopIteration>)
    requires InRange(st.goals)
    ensures InRange(TeleopRun(st, inputs).final.goals)
    ensures forall i :: 0 <= i < |inputs| && TeleopRun(st, inputs).outputs[i].action.Commanded? ==>
      0.0 <= TeleopRun(st, inputs).outputs[i].action.gripperCommand <= GripperOpen
  {
    if inputs != [] {
      var front := inputs[..|inputs| - 1];
      TeleopRunInRange(st, front);
      var prev := TeleopRun(st, front);
      var r := TeleopRun(st, inputs);
      assert r.outputs == prev.outputs + [TeleopStep(prev.final, inputs[|inputs| - 1]).output];
      forall i | 0 <= i < |inputs| && r.outputs[i].action.Commanded?
        ensures 0.0 <= r.outputs[i].action.gripperCommand <= GripperOpen
      {
        if i < |front| {
          assert r.outputs[i] == prev.outputs[i];
        }
      }
    }
  }

  /**
   * The plan number the loop holds after a run is the one of the last
   * iteration that found the reported number changed, or the initial one.
   */
  lemma {:induction false} TeleopRunPlanNumber(st: TeleopState, inputs: seq<TeleopIteration>, k: nat)
    requires k < |inputs| && TeleopRun(st, inputs[..k]).final.planNumber != inputs[k].reportedPlanNumber
    requires forall j :: k < j < |inputs| ==> inputs[j].reportedPlanNumber == inputs[k].restartedPlanNumber
    ensures TeleopRun(st, inputs).final.planNumber == inputs[k].restartedPlanNumber
    decreases |inputs|
  {
    var front := inputs[..|inputs| - 1];
    if k == |inputs| - 1 {
      assert front == inputs[..k];
    } else {
      assert front[..k] == inputs[..k];
      TeleopRunPlanNumber(st, front, k);
    }
  }

  /**
   * The loop's in-place goal updates for one iteration's events: roll, yaw
   * and pitch stepped and clipped, then the gripper stepped and clamped.
   */
  method UpdateGoals(roll0: real, yaw0: real, pitch0: real, gripper0: real, e: MouseEvents)
    returns (rollGoal: real, yawGoal: real, pitchGoal: real, gripperGoalPos: real)
    ensures Goals(rollGoal, yawGoal, pitchGoal, gripperGoalPos) == StepGoals(Goals(roll0, yaw0, pitch0, gripper0), e)
  {
    rollGoal, yawGoal, pitchGoal, gripperGoalPos := roll0, yaw0, pitch0, gripper0;
    if e.rotateLeft {
      rollGoal := rollGoal + RollStep;
    }
    if e.rotateRight {
      rollGoal := rollGoal - RollStep;
    }
    rollGoal := Clip(rollGoal, -RollLimit, RollLimit);
    assert rollGoal == StepAxis(roll0, e.rotateLeft, e.rotateRight, RollStep, RollLimit);
    if e.sideButtonBack {
      yawGoal := yawGoal + YawStep;
    }
    if e.sideButtonForward {
      yawGoal := yawGoal - YawStep;
    }
    yawGoal := Clip(yawGoal, -YawPitchLimit, YawPitchLimit);
    assert yawGoal == StepAxis(yaw0, e.sideButtonBack, e.sideButtonForward, YawStep, YawPitchLimit);
    if e.d {
      pitchGoal := pitchGoal + PitchStep;
    }
    if e.a {
      pitchGoal := pitchGoal - PitchStep;
    }
    pitchGoal := Clip(pitchGoal, -YawPitchLimit, YawPitchLimit);
    assert pitchGoal == StepAxis(pitch0, e.d, e.a, PitchStep, YawPitchLimit);
    if e.mouseWheelUp {
      gripperGoalPos := gripperGoalPos + GripperStep;
    }
    if e.mouseWheelDown {
      gripperGoalPos := gripperGoalPos - GripperStep;
    }
    if gripperGoalPos < 0.0 {
      gripperGoalPos := 0.0;
    }
    if gripperGoalPos > GripperOpen {
      gripperGoalPos := GripperOpen;
    }
    assert gripperGoalPos == StepGripper(gripper0, e.mouseWheelUp, e.mouseWheelDown);
  }

  /**
   * The loop of `do_main`, over the iterations the inputs describe. The
   * plan number starts as the one the first streaming request returned.
   */
  method RunTeleopLoop(initialPlanNumber: int, inputs: seq<TeleopIteration>)
    returns (outputs: seq<IterationOutput>, rollGoal: real, yawGoal: real, pitchGoal: real,
             gripperGoalPos: real, planNumber: int)
    ensures var run := TeleopRun(TeleopState(InitialGoals, initialPlanNumber), inputs);
      outputs == run.outputs && run.final == TeleopState(Goals(rollGoal, yawGoal, pitchGoal, gripperGoalPos), planNumber)
  {
    ghost var st0 := TeleopState(InitialGoals, initialPlanNumber);
    rollGoal, yawGoal, pitchGoal := 0.0, 0.0, 0.0;
    gripperGoalPos := GripperOpen;
    planNumber := initialPlanNumber;
    outputs := [];
    var n := 0;
    while n < |inputs|
      invariant n <= |inputs|
      invariant TeleopRun(st0, inputs[..n]) ==
        RunResult(TeleopState(Goals(rollGoal, yawGoal, pitchGoal, gripperGoalPos), planNumber), outputs)
    {
      var it := inputs[n];
      assert inputs[..n + 1][..n] == inputs[..n];
      ghost var before := TeleopState(Goals(rollGoal, yawGoal, pitchGoal, gripperGoalPos), planNumber);
      ghost var outputsBefore := outputs;
      ghost var step := TeleopStep(before, it);
      var restart := None;
      if it.reportedPlanNumber != planNumber {
        restart := Some(MakeForceGuardMsg(ForceGuardScale));
        planNumber := it.restartedPlanNumber;
      }
      if it.eeTranslation.None? {
        outputs := outputs + [IterationOutput(restart, PoseUnavailable)];
      } else if it.events.r {
        outputs := outputs + [IterationOutput(restart, Homed)];
      } else {
        var e := it.events;
        var deltaX := e.deltaX * ScaleDown;
        var deltaY := e.deltaY * -ScaleDown;
        var deltaForward := 0.0;
        if e.w {
          deltaForward := deltaForward - ForwardScale;
        }
        if e.s {
          deltaForward := deltaForward + ForwardScale;
        }
        rollGoal, yawGoal, pitchGoal, gripperGoalPos := UpdateGoals(rollGoal, yawGoal, pitchGoal, gripperGoalPos, e);
        var ee := it.eeTranslation.value;
        var targetTransEe := Vector3(ee.x + deltaForward, ee.y + deltaX, ee.z + deltaY);
        var newMsg := Setpoint(targetTransEe);
        assert targetTransEe == TargetTranslation(ee, e);
        outputs := outputs + [IterationOutput(restart, Commanded(newMsg, gripperGoalPos))];
      }
      assert step.next == TeleopState(Goals(rollGoal, yawGoal, pitchGoal, gripperGoalPos), planNumber);
      assert outputs == outputsBefore + [step.output];
      n := n + 1;
    }
    assert inputs[..n] == inputs;
  }
}
