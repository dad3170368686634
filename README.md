# Verified model of the IIWA simulation, teleop and poser helpers

This project models, in Dafny, the sequential logic of three Python scripts
from a robot-manipulation code base:

- **The pybullet IIWA + Schunk simulator** (`IiwaRlgSimulator`), in module
  `IiwaRlgSimulation`. Its parts:
  - two latest-value command buffers: 7 IIWA joint targets, and the 2
    mirrored Schunk paddle targets with their 2 force limits;
  - the handlers that overwrite the buffers and the getters that copy them;
  - the conversion of paddle joint states into a Schunk status;
  - the bookkeeping of the `RunSim` loop: simulated time, status cadence,
    the smoothed step-rate estimate, the throttling sleep and the `q`/`r`
    keys.

  The loop is a method over a finite sequence of per-iteration inputs. It is
  proved equal to a pure function, `Run`, and the lemmas about `Run` state
  what the loop keeps true.
- **The URDF loader** (`load_from_urdf_or_sdf`), in module `UrdfLoader`:
  - the dispatch on the file extension;
  - the loop that rewrites every `package://<name>/` reference with a
    package map's resolver, modelled as an abstract function.
- **The mouse teleop node** (`simple_teleop.py`), in module `SimpleTeleop`:
  - the message constructors `ro`, `make_cartesian_gains_msg` and
    `make_force_guard_msg`;
  - the control loop of `do_main`, which steps and clamps the roll, yaw,
    pitch and gripper goals, restarts the plan when the plan number changes,
    and computes the Cartesian setpoint.

  The loop is a method proved equal to a fold of a pure step function,
  `TeleopRun`.
- **`PoserVisualizer`'s path and transform helpers**, in module
  `PoserVisualization`:
  - the output-folder property and its setter;
  - resolving a relative path against the folder, using POSIX
    `os.path.join`, which fails when no folder is set;
  - the response file name chosen by `load_poser_response`;
  - the column-major reshape in `parse_transform`.

`Wrappers` holds `Option`, `Result` and small min/max helpers.

Arithmetic is over `real`. Where the code divides, the model requires a
positive timestep and a positive wall duration for each physics step.
Wherever the code calls something outside the model, the model takes it as
an input. These inputs are:

- each iteration's clock readings;
- the LCM packet and ROS command delivered in an iteration;
- the paddle joint states and the keyboard events;
- the plan numbers, the end-effector pose and the mouse events;
- the package resolver, `os.path.expandvars` and the file contents.

Sleeping is returned as a duration rather than performed.

A few details of the code that the model keeps:

- Status is published only when the simulated-time gap since the last
  publication is strictly greater than 0.033.
- The arm handler has no notion of an unknown command group. An IIWA
  message that fails to decode leaves the buffer unchanged.
- The keyboard is polled at the end of each iteration, after the physics
  step and the status publication. A `q` or `r` therefore ends `RunSim`
  after the iteration in which it was read.
- The package-URL rewrite ends with `full_text[curr_ind:-1]`, as the code
  writes it (see "## Findings").

## Model

| member | source | states |
|---|---|---|
| UrdfLoader.SlashFrom | src/catkin_projects/drake_simulation/scripts/pybullet_iiwa_rlg_simulation.py:71 | the `[^\/]*\/` part of the pattern: the first `/` at or after a position, or none at all |
| UrdfLoader.MatchAt | src/catkin_projects/drake_simulation/scripts/pybullet_iiwa_rlg_simulation.py:71 | a match of `package:\/\/[^\/]*\/` at a position is the literal prefix, then non-slash characters, then a `/`; if there is no match, the prefix is absent or no `/` follows it |
| UrdfLoader.NextMatch | src/catkin_projects/drake_simulation/scripts/pybullet_iiwa_rlg_simulation.py:71-74 | `re.finditer` order: the leftmost match at or after the previous match's end; no match starts before it; if it is absent, no match starts anywhere after that end |
| UrdfLoader.SliceToLast | src/catkin_projects/drake_simulation/scripts/pybullet_iiwa_rlg_simulation.py:78 | Python's `text[from:-1]`: everything from `from` up to, but excluding, the final character; empty at the end of the text |
| UrdfLoader.RewriteWithoutPackageUrls | src/catkin_projects/drake_simulation/scripts/pybullet_iiwa_rlg_simulation.py:71-78 | text with no package reference comes out of the rewrite loop as written with only its final character removed |
| UrdfLoader.RewriteIdentityCopies | src/catkin_projects/drake_simulation/scripts/pybullet_iiwa_rlg_simulation.py:71-78 | with a resolver that returns its argument, the loop as written copies the text between and around matches unchanged and in order; at most the final character is lost |
| UrdfLoader.RewriteDropsFinalChar | src/catkin_projects/drake_simulation/scripts/pybullet_iiwa_rlg_simulation.py:78 | with a resolver that returns its argument, and a text that does not end in `/`, the loop as written returns the text without its final character |
| UrdfLoader.RewriteTruncatesClosingTag | src/catkin_projects/drake_simulation/scripts/pybullet_iiwa_rlg_simulation.py:78 | whatever the package map, the file text `</robot>` is rewritten to `</robot` |
| UrdfLoader.RewriteAsWrittenLosesLastChar | src/catkin_projects/drake_simulation/scripts/pybullet_iiwa_rlg_simulation.py:71-78 | for any resolver, when the text does not end in `/`: the intended rewrite is exactly the rewrite as written plus the text's final character |
| UrdfLoader.RewriteAsWrittenIsPrefix | src/catkin_projects/drake_simulation/scripts/pybullet_iiwa_rlg_simulation.py:71-78 | for any resolver, the rewrite as written is the intended rewrite, or the intended rewrite minus the input's final character |
| UrdfLoader.RewriteWholeIdentity | src/catkin_projects/drake_simulation/scripts/pybullet_iiwa_rlg_simulation.py:71-78 | with a resolver that returns its argument, the corrected rewrite gives back its input exactly |
| UrdfLoader.ResolvePackageUrls | src/catkin_projects/drake_simulation/scripts/pybullet_iiwa_rlg_simulation.py:67-78 | the rewrite loop as written: it replaces each match by its resolution, copies the text between matches, and then writes `text[curr:-1]`. The result is the intended rewrite, or the intended rewrite minus the input's final character |
| UrdfLoader.Extension | src/catkin_projects/drake_simulation/scripts/pybullet_iiwa_rlg_simulation.py:60 | `split(".")[-1]`: the suffix after the last dot, which contains no dot; if the path has no dot, the whole path |
| UrdfLoader.LoadFromUrdfOrSdf | src/catkin_projects/drake_simulation/scripts/pybullet_iiwa_rlg_simulation.py:57-89 | `urdf` without a package map loads the expanded path; `urdf` with one loads `/tmp/resolved_urdf.urdf`, which holds the file text as the loop rewrites it; `sdf` loads the expanded path as SDF; any other extension is the exit case, which carries that extension |
| IiwaRlgSimulation.WrittenJoints | src/catkin_projects/drake_simulation/scripts/pybullet_iiwa_rlg_simulation.py:186-191 | the IIWA handler's loop over `range(num_joints)` writes as many leading entries as it can before it reads past the message or writes past the 7-entry buffer, and the exception stops it |
| IiwaRlgSimulation.ApplyIiwaPacket | src/catkin_projects/drake_simulation/scripts/pybullet_iiwa_rlg_simulation.py:184-192 | the buffer after a packet: the leading written entries come from the message, the others keep their values; an undecodable packet changes nothing; the length is kept |
| IiwaRlgSimulation.FullCommandReplacesBuffer | src/catkin_projects/drake_simulation/scripts/pybullet_iiwa_rlg_simulation.py:188-189 | a 7-joint command with 7 positions replaces the whole buffer |
| IiwaRlgSimulation.ApplyIiwaPacketIdempotent | src/catkin_projects/drake_simulation/scripts/pybullet_iiwa_rlg_simulation.py:184-192 | handling the same packet twice gives the same buffer as handling it once |
| IiwaRlgSimulation.SchunkCommandTargets | src/catkin_projects/drake_simulation/scripts/pybullet_iiwa_rlg_simulation.py:226-227 | the gripper targets are `[-m*0.005, m*0.005]`, exact negatives of each other, and the torques are `[f, f]` |
| IiwaRlgSimulation.SchunkStatusOf | src/catkin_projects/drake_simulation/scripts/pybullet_iiwa_rlg_simulation.py:245-249 | the status gap is `(q1 - q0)*1000`, the force `(t1 - t0)/2` and the speed `(v1 - v0)*1000` |
| IiwaRlgSimulation.SchunkCommandStatusGap | src/catkin_projects/drake_simulation/scripts/pybullet_iiwa_rlg_simulation.py:226-249 | with the paddles exactly at the commanded targets, the reported gap is 10·m, so command and status do not round-trip for any m ≠ 0 |
| IiwaRlgSimulation.KeySignalFirstStopEvent | src/catkin_projects/drake_simulation/scripts/pybullet_iiwa_rlg_simulation.py:316-323 | the first triggered `q` or `r` among the polled events decides: `q` quits and `r` restarts |
| IiwaRlgSimulation.KeySignalContinue | src/catkin_projects/drake_simulation/scripts/pybullet_iiwa_rlg_simulation.py:316-323 | the loop goes on exactly when no polled event is a triggered `q` or `r` (both directions) |
| IiwaRlgSimulation.SimRateAlpha | src/catkin_projects/drake_simulation/scripts/pybullet_iiwa_rlg_simulation.py:257-258 | for a positive timestep, `alpha = timestep/(0.1 + timestep)` lies strictly between 0 and 1 |
| IiwaRlgSimulation.SmoothedRate | src/catkin_projects/drake_simulation/scripts/pybullet_iiwa_rlg_simulation.py:304 | the moving-average update lies between the old estimate and the new sample, and is a fixed point when the two are equal |
| IiwaRlgSimulation.Tick | src/catkin_projects/drake_simulation/scripts/pybullet_iiwa_rlg_simulation.py:287-310 | one iteration's arithmetic: it adds one timestep; it publishes iff the gap exceeds 0.033, and then `last_status_send` moves; the step rate is the timestep over the step's duration; the first sample sets the average and later averages stay between the old value and the sample; it sleeps iff ahead of `elapsed*rate`, and then for exactly the positive lead |
| IiwaRlgSimulation.IiwaBufferLength | src/catkin_projects/drake_simulation/scripts/pybullet_iiwa_rlg_simulation.py:188-189 | handling any run of packets keeps the IIWA buffer's length |
| IiwaRlgSimulation.LatestFullCommandWins | src/catkin_projects/drake_simulation/scripts/pybullet_iiwa_rlg_simulation.py:184-198 | after a full 7-joint command with no later packet, the IIWA buffer holds exactly that command |
| IiwaRlgSimulation.LatestSchunkCommandWins | src/catkin_projects/drake_simulation/scripts/pybullet_iiwa_rlg_simulation.py:223-237 | the gripper buffers hold the targets of the last command delivered |
| IiwaRlgSimulation.IiwaBufferWithoutPackets | src/catkin_projects/drake_simulation/scripts/pybullet_iiwa_rlg_simulation.py:184-192 | without IIWA packets the IIWA buffer is unchanged, whatever the gripper receives |
| IiwaRlgSimulation.SchunkBuffersWithoutCommands | src/catkin_projects/drake_simulation/scripts/pybullet_iiwa_rlg_simulation.py:223-230 | without gripper commands the gripper buffers are unchanged, whatever the arm receives |
| IiwaRlgSimulation.TicksIsProduct | src/catkin_projects/drake_simulation/scripts/pybullet_iiwa_rlg_simulation.py:290 | adding the timestep once per iteration gives `k * timestep` after k iterations |
| IiwaRlgSimulation.BuffersRecordedAreLatest | src/catkin_projects/drake_simulation/scripts/pybullet_iiwa_rlg_simulation.py:266-284 | the targets each iteration sends to the motors are the latest values delivered up to and including that iteration |
| IiwaRlgSimulation.SendAfterPublish | src/catkin_projects/drake_simulation/scripts/pybullet_iiwa_rlg_simulation.py:293-296 | once an iteration published, every later `last_status_send` is at least that iteration's simulated time |
| IiwaRlgSimulation.CadenceSpacesPublications | src/catkin_projects/drake_simulation/scripts/pybullet_iiwa_rlg_simulation.py:290-296 | from one timestep per iteration and the publish rule: any two publications are more than 0.033 of simulated time apart |
| IiwaRlgSimulation.RunBuffers | src/catkin_projects/drake_simulation/scripts/pybullet_iiwa_rlg_simulation.py:264-284 | after any number of iterations, each iteration sent the buffers as its own deliveries left them, and the buffers hold the latest values delivered |
| IiwaRlgSimulation.RunBookkeeping | src/catkin_projects/drake_simulation/scripts/pybullet_iiwa_rlg_simulation.py:254-310 | after any number of iterations: <br>• simulated time is k timesteps and `last_status_send` is the last publication's time (0 if none); <br>• each iteration published exactly on the cadence and reported its paddles' status; <br>• each rate sample is the timestep over its step's wall time; <br>• the average is -1 before the first step and afterwards lies between the least and greatest sample; <br>• each iteration slept exactly when it was ahead, for a positive time |
| IiwaRlgSimulation.RunPublishesSpaced | src/catkin_projects/drake_simulation/scripts/pybullet_iiwa_rlg_simulation.py:290-296 | in any run, any two status publications are more than 0.033 of simulated time apart |
| IiwaRlgSimulation.IiwaRlgSimulator.constructor | src/catkin_projects/drake_simulation/scripts/pybullet_iiwa_rlg_simulation.py:108-122 | the IIWA buffer starts as 7 zeros, and the Schunk position and torque buffers as 2 zeros each |
| IiwaRlgSimulation.IiwaRlgSimulator.HandleIiwaCommand | src/catkin_projects/drake_simulation/scripts/pybullet_iiwa_rlg_simulation.py:184-192 | the in-place loop leaves the array equal to `ApplyIiwaPacket` of its old contents and does not touch the gripper buffers |
| IiwaRlgSimulation.IiwaRlgSimulator.GetIiwaPositionCommand | src/catkin_projects/drake_simulation/scripts/pybullet_iiwa_rlg_simulation.py:194-198 | returns a copy of the IIWA buffer's contents |
| IiwaRlgSimulation.IiwaRlgSimulator.HandleSchunkCommand | src/catkin_projects/drake_simulation/scripts/pybullet_iiwa_rlg_simulation.py:223-230 | the gripper buffers become the command's targets and the IIWA buffer is not touched |
| IiwaRlgSimulation.IiwaRlgSimulator.GetSchunkCommand | src/catkin_projects/drake_simulation/scripts/pybullet_iiwa_rlg_simulation.py:232-237 | returns copies of both gripper buffers |
| IiwaRlgSimulation.IiwaRlgSimulator.DeliverAndRead | src/catkin_projects/drake_simulation/scripts/pybullet_iiwa_rlg_simulation.py:266-284 | an iteration's deliveries followed by the reads: the targets sent are the buffers after that iteration's packet and command |
| IiwaRlgSimulation.IiwaRlgSimulator.RunSim | src/catkin_projects/drake_simulation/scripts/pybullet_iiwa_rlg_simulation.py:252-323 | the loop stops at the first iteration whose poll yields `q` or `r`, and returns that signal. It returns `Continue` only when it ran every iteration and no poll yielded `q` or `r`. Its records, its average rate and the final buffers are those of `Run` for the iterations performed |
| SimpleTeleop.MakeCartesianGainsMsg | src/catkin_projects/simple_teleop/simple_teleop.py:42-53 | all three rotation gains are `kp_rot` and all three translation gains are `kp_trans` |
| SimpleTeleop.MakeForceGuardMsg | src/catkin_projects/simple_teleop/simple_teleop.py:55-71 | exactly one guard, with body frame and force frame `iiwa_link_ee`, and force `scale*[-1,0,0]` |
| SimpleTeleop.Ro | src/catkin_projects/simple_teleop/simple_teleop.py:73-74 | `[w,x,y,z]` becomes `[x,y,z,w]`: the first component moves to the end and the others keep their order |
| SimpleTeleop.RoFourTimesIsIdentity | src/catkin_projects/simple_teleop/simple_teleop.py:73-74 | `ro` is a rotation: applied four times, it gives the four components back |
| SimpleTeleop.RoPermutes | src/catkin_projects/simple_teleop/simple_teleop.py:73-74 | `ro` keeps the multiset of the four components |
| SimpleTeleop.Clip | src/catkin_projects/simple_teleop/simple_teleop.py:228 | `np.clip`: the result lies in the interval; inside it the value is unchanged; below or above it the result is the nearest bound |
| SimpleTeleop.NetStep | src/catkin_projects/simple_teleop/simple_teleop.py:224-227 | two opposing buttons give `+step`, `-step`, or nothing when both or neither are pressed |
| SimpleTeleop.StepAxis | src/catkin_projects/simple_teleop/simple_teleop.py:224-242 | an angle goal moves by the net step and is clipped to `[-limit, limit]`: unchanged inside, the bound outside |
| SimpleTeleop.GripperClampIsClip | src/catkin_projects/simple_teleop/simple_teleop.py:279-282 | the two clamping `if`s equal clipping to `[0, 0.1]` |
| SimpleTeleop.StepGripper | src/catkin_projects/simple_teleop/simple_teleop.py:275-282 | the gripper goal moves ±0.01 with the wheel and always lies in `[0, 0.1]`; in range it is the stepped value, and out of range it is the nearest bound |
| SimpleTeleop.StepGoals | src/catkin_projects/simple_teleop/simple_teleop.py:224-282 | after any events, roll is in `[-0.9, 0.9]`, yaw and pitch are in `[-1.314, 1.314]`, and the gripper is in `[0, 0.1]` |
| SimpleTeleop.StepGoalsIdle | src/catkin_projects/simple_teleop/simple_teleop.py:224-282 | goals already in range, with no goal button or wheel event, are unchanged |
| SimpleTeleop.ForwardDelta | src/catkin_projects/simple_teleop/simple_teleop.py:216-221 | −0.03 for `w` alone, +0.03 for `s` alone, 0 for both or neither |
| SimpleTeleop.TargetTranslation | src/catkin_projects/simple_teleop/simple_teleop.py:212-255 | the target is the current end-effector translation plus `[delta_forward, 0.01*delta_x, -0.01*delta_y]` |
| SimpleTeleop.Setpoint | src/catkin_projects/simple_teleop/simple_teleop.py:258-271 | the goal point is in frame `world`, at the target, with zero velocity, gains `(5, 10)` and end-effector frame `iiwa_link_ee` |
| SimpleTeleop.TeleopStep | src/catkin_projects/simple_teleop/simple_teleop.py:183-283 | a plan restart, with the 20 N force guard, happens iff the reported plan number differs, and the new number is then adopted. A failed pose lookup or an `r` event leaves every goal unchanged and publishes nothing. Otherwise the goals are stepped, and the published setpoint and gripper command follow from them |
| SimpleTeleop.TeleopRunInRange | src/catkin_projects/simple_teleop/simple_teleop.py:175-285 | from goals in range, the goals stay in range over any run, and every gripper command sent is in `[0, 0.1]` |
| SimpleTeleop.TeleopRunPlanNumber | src/catkin_projects/simple_teleop/simple_teleop.py:183-191 | the plan number after a run is the one returned by the last restart, as long as later reports agree with it |
| SimpleTeleop.UpdateGoals | src/catkin_projects/simple_teleop/simple_teleop.py:224-282 | the in-place `+=`/`-=`, `np.clip` and clamp updates of the four goals compute `StepGoals` |
| SimpleTeleop.RunTeleopLoop | src/catkin_projects/simple_teleop/simple_teleop.py:175-285 | the imperative loop, from goals `(0, 0, 0, 0.1)`, produces the outputs and final goals and plan number of the fold of `TeleopStep` |
| PoserVisualization.PathJoinRelative | modules/spartan/poser/poser_visualizer.py:59 | `os.path.join` with a relative component starts with the folder and ends with the component, with a `/` between them when the folder lacks one |
| PoserVisualization.PathJoinAbsolute | modules/spartan/poser/poser_visualizer.py:59 | an absolute component replaces the folder |
| PoserVisualization.PathJoinEndsWithComponent | modules/spartan/poser/poser_visualizer.py:59 | the joined path always ends with the component |
| PoserVisualization.ParseTransform | modules/spartan/poser/poser_visualizer.py:145-157 | the reshape succeeds iff there are exactly 16 coefficients, and then gives a 4×4 matrix whose entry `(i, j)` is `coeffs[4*j + i]` |
| PoserVisualization.FlattenColumnMajor | modules/spartan/poser/poser_visualizer.py:148 | the column-major list of a 4×4 matrix: 16 coefficients, with entry `(k % 4, k / 4)` at position k |
| PoserVisualization.ParseFlattenRoundTrip | modules/spartan/poser/poser_visualizer.py:155-156 | reshaping a matrix's column-major list gives the matrix back |
| PoserVisualization.FlattenParseRoundTrip | modules/spartan/poser/poser_visualizer.py:155-156 | flattening a reshaped list of 16 coefficients gives the list back |
| PoserVisualization.PoserVisualizer.constructor | modules/spartan/poser/poser_visualizer.py:16-18 | the output folder is the given one, possibly unset |
| PoserVisualization.PoserVisualizer.SetPoserOutputFolder | modules/spartan/poser/poser_visualizer.py:20-31 | after the setter, the property reads back the value set |
| PoserVisualization.PoserVisualizer.ConvertRelativePathToAbsolute | modules/spartan/poser/poser_visualizer.py:44-59 | fails with `poser_output_folder cannot be None` exactly when no folder is set; otherwise it returns the folder joined with the path |
| PoserVisualization.PoserVisualizer.LoadPoserResponse | modules/spartan/poser/poser_visualizer.py:33-41 | the file opened is `poser_response.yaml` joined onto the folder; with no folder it is the `ValueError` |
| PoserVisualization.ResponseFileInFolder | modules/spartan/poser/poser_visualizer.py:40 | with a folder set, the response file's path starts with the folder and ends with `poser_response.yaml` |

## Left out

- The pybullet physics, joint-state queries and motor calls are left out; they are calls into a foreign engine. The paddle states after the step are inputs, and the targets sent to the motors are recorded.
- `PublishIiwaStatus` and `ResetSimulation` are left out. `PublishIiwaStatus` builds an LCM status message from pybullet's joint states and a copy of the IIWA command buffer (lines 216-218); `ResetSimulation` builds the pybullet world.
- The LCM and ROS transports are left out, and so are message decoding and publishing. A decoding failure is an `Undecodable` packet.
- The ROS thread's Schunk handler runs concurrently in the code. The model gives each iteration at most one gripper command, delivered atomically before the buffers are read.
- `threading.Lock` is left out; each handler is one atomic update.
- `time.time()` and `time.sleep` are left out: clock readings are inputs, and the sleep duration is returned.
- The `last_print_time` branch is left out except for its division. It prints `sim_time / target_sim_time` (line 314) and fires on the first iteration, because line 259 sets `last_print_time` 100 s in the past.
- RunSim: requires `rate > 0` and every physics step to end after the loop started, so that `target_sim_time` is positive and line 314 cannot divide by zero. With `rate == 0` the code raises `ZeroDivisionError` on the first iteration; the model does not capture that crash.
- The keyboard events come from a dict in the code and from a sequence in the model. The order the poll returns them in is an input.
- `RunSim` in the code loops forever until a key is read. The model runs over a finite sequence of iterations, and `Continue` means the inputs ran out.
- For the URDF loader, `os.path.expandvars`, reading the file and `packageMap.resolveFilename` are passed in as functions. Writing `/tmp/resolved_urdf.urdf` and the pybullet load calls are represented by the returned `LoadRequest`. `exit(-1)` is the `UnknownExtension` request.
- The `__main__` blocks of the scripts are left out; they are setup and argument parsing.
- In the teleop node, the following are left out:
  - the ROS services, the action client, the tf lookup and its exception, `SchunkDriver`, the initial moves and gripper commands before the loop, `rate.sleep` and the outer exception handler;
  - the Euler-to-quaternion computation of the setpoint's orientation, which is floating-point linear algebra in a foreign library. `CartesianGoalPoint` therefore has no quaternion.
- The plan number of a restart is an input of the iteration.
- `RunTeleopLoop` starts from goals `(0, 0, 0, 0.1)`, the values they hold when the loop begins (simple_teleop.py:102-104 and 120). The earlier close command `gripper_goal_pos = 0.0` is not modelled.
- In `PoserVisualizer`, the following are left out:
  - the YAML loading in `load_poser_response` (what it computes is the file name);
  - `make_default`, `visualize_result`, the VTK containers and the getters for them;
  - `getTransformFromNumpy`, so `ParseTransform` returns the reshaped matrix.
- Python's `os.path.join` is modelled for two POSIX components only.

## Findings

| source | as written | input that shows it | evidently intended | confidence | as-written member | corrected member |
|---|---|---|---|---|---|---|
| src/catkin_projects/drake_simulation/scripts/pybullet_iiwa_rlg_simulation.py:78 | after the last match the loop writes `full_text[curr_ind:-1]`, dropping the file's final character | a file whose text is `</robot>` is written out as `</robot`, which is no longer well-formed XML; this is true whatever the package map | `full_text[curr_ind:]`, copying the rest of the file | high (not executed) | UrdfLoader.RewriteTruncatesClosingTag | UrdfLoader.RewriteWholeIdentity |

In the model:

- `UrdfLoader.Rewritten` is the rewrite as written. `ResolvePackageUrls` and `LoadFromUrdfOrSdf` compute it, as the code does.
- `RewriteAsWrittenLosesLastChar` shows that, for any resolver and any text not ending in `/`, the rewrite as written is one character short of the intended one.
- `UrdfLoader.RewrittenWhole` is the corrected rewrite, `full_text[curr_ind:]`. `RewriteWholeIdentity` proves that it gives back its input when every reference resolves to itself.
