# Tello Gazebo plugin: velocity-to-force pipeline

A Dafny model of the control core of the Tello drone's Gazebo model plugin:
- the symmetric acceleration clamp;
- how a `cmd_vel` command (a normalised body-frame Twist) is scaled into the setpoints of four channel controllers (x, y, z, yaw);
- the per-tick `OnUpdate`.

`OnUpdate` runs these steps in order. It computes `dt` from the stored sim time and stores the new sim time. It asks each controller for an acceleration demand, clamps each demand to its axis' bound, and multiplies by the mass and the moment of inertia to get force and torque. It then zeroes the X and Y components of the base link's orientation quaternion and writes the levelled pose back. Only after that does it apply the force and the torque.

Numbers are `real` in place of `double`. `M_PI` is the exact value of the double nearest to pi.

Files:
- `geometry.dfy` (module `Geometry`): the ignition::math value types `Vector3`, `Matrix3`, `Quaternion` and `Pose3`, with the two products the plugin uses.
- `pid.dfy` (module `Pid`): the channel controller. Its control law is a function value fixed at construction, of (setpoint, measured value, dt, third argument). The setpoint is a mutable field.
- `tello_plugin.dfy` (module `TelloGazebo`):
  - the constants, `Clamp`, and the command scaling;
  - the specification function `Tick` of one update, with lemmas about it;
  - the functions over runs of commands and runs of ticks;
  - the class `TelloPlugin`, whose methods `CmdVelCallback` and `OnUpdate` are proved against those functions.

Gazebo is not modelled. The sim time of a tick is the `simTime` of its `UpdateInfo`. What a tick reads from the base link becomes the method input `LinkState`: body-frame velocities, mass, inertia matrix and world pose. What it hands back becomes the method result `LinkCommands`: the pose for `SetWorldPose`, the force and its application point for `AddLinkForce`, and the torque for `AddRelativeTorque`.

Three points of the code's behaviour that the model keeps as written:
- **First tick.** `OnUpdate` does not special-case the first tick. `sim_time_` starts at a default-constructed time of zero, so the first `dt` is the sim time itself. The plugin constructor promises sim time 0.
- **Torque.** `MOI()` is the 3×3 inertia matrix, and `Vector3d * Matrix3d` multiplies the vector, read as a row, by the matrix. So the torque is the clamped yaw demand times the bottom row of the matrix, not a component-wise product. `TickTorqueDiagonal` shows the two agree, with zero torque about x and y, when the inertia is diagonal (principal axes).
- **Levelling.** Zeroing quaternion X and Y keeps the yaw only when roll or pitch is zero; see "## Findings". `OnUpdate` and `Tick` keep the code's levelling. `LevelPoseKeepingHeading` is the heading-preserving alternative, with its property proved.

## Model

| member | source | states |
|---|---|---|
| TelloGazebo.Clamp | tello_gazebo/src/tello_plugin.cpp:28-31 | for a non-negative bound the result lies in [-max, max]; a value already inside the range is returned unchanged |
| TelloGazebo.ClampSaturates | tello_gazebo/src/tello_plugin.cpp:30 | above the range the result is exactly max, below it exactly -max |
| TelloGazebo.ClampIsProjection | tello_gazebo/src/tello_plugin.cpp:28-31 | clamp equals the reference definition max(-max, min(v, max)) and is the point of [-max, max] nearest to v |
| TelloGazebo.ClampIdempotent | tello_gazebo/src/tello_plugin.cpp:30 | clamping twice is clamping once |
| TelloGazebo.ClampOdd | tello_gazebo/src/tello_plugin.cpp:30 | clamp(-v, m) == -clamp(v, m): the saturation is symmetric |
| TelloGazebo.ClampMonotone | tello_gazebo/src/tello_plugin.cpp:30 | clamp preserves order |
| TelloGazebo.ClampNegativeBound | tello_gazebo/src/tello_plugin.cpp:30 | with a negative bound the expression maps every value to max or -max, so it is not an interval saturation |
| TelloGazebo.ScaleCommand | tello_gazebo/src/tello_plugin.cpp:20-22 | a normalised component in [-1, 1] gives a setpoint within that axis' largest velocity (8, 4, pi) |
| TelloGazebo.CommandRoundTrip | tello_gazebo/src/tello_plugin.cpp:223-226 | dividing the setpoints by the per-axis maxima recovers linear x/y/z and angular z of the message; only angular x and y, which the callback never reads, are lost |
| TelloGazebo.TargetsRoundTrip | tello_gazebo/src/tello_plugin.cpp:223-226 | ScaleCommand undoes UnscaleTargets on every setpoint quadruple; together with CommandRoundTrip, scaling is a bijection on (linear, angular z) |
| TelloGazebo.FullForwardCommand | tello_gazebo/src/tello_plugin.cpp:223 | the command linear (1, 0, 0), yaw 0 sets the setpoints (8, 0, 0, 0) |
| TelloGazebo.TargetsAfter | tello_gazebo/src/tello_plugin.cpp:217-227 | the setpoints after the callback has run on each message of a run in turn, starting from given setpoints |
| TelloGazebo.LastCommandWins | tello_gazebo/src/tello_plugin.cpp:217-227 | after any non-empty run of cmd_vel messages the setpoints are those of the last message alone, whatever they were before |
| TelloGazebo.RawDemand | tello_gazebo/src/tello_plugin.cpp:165-170 | the unclamped demands: each controller's law on its setpoint, the body-frame velocity component it governs, dt and 0; angular x and y stay 0 |
| TelloGazebo.Saturate | tello_gazebo/src/tello_plugin.cpp:177-181 | after clamping, \|x\|, \|y\| <= 8, \|z\| <= 4 and \|yaw\| <= pi; a demand already within bounds is unchanged; the uncontrolled angular x/y pass through |
| TelloGazebo.SaturateIdempotent | tello_gazebo/src/tello_plugin.cpp:177-181 | clamping an already clamped demand changes nothing |
| TelloGazebo.Tick | tello_gazebo/src/tello_plugin.cpp:153-206 | one tick given its dt: the clamped raw demand times the mass gives the force, applied at the centre of mass; times the inertia matrix it gives the torque; the world pose is levelled |
| Geometry.Scale | tello_gazebo/src/tello_plugin.cpp:189 | `Vector3d * double`: every component times the scalar |
| Geometry.RowTimes | tello_gazebo/src/tello_plugin.cpp:190 | `Vector3d * Matrix3d`: the vector read as a row, times the matrix |
| TelloGazebo.TickForce | tello_gazebo/src/tello_plugin.cpp:167-169 | force component i is clamp(law_i(setpoint_i, body-frame linear velocity i, dt, 0), bound_i) times the mass; it is applied at the configured centre of mass |
| TelloGazebo.TickTorque | tello_gazebo/src/tello_plugin.cpp:170 | torque is clamp(yaw law(yaw setpoint, body-frame angular z velocity, dt, 0), pi) times the bottom row of the inertia matrix; angular x/y demand is never computed |
| TelloGazebo.TickTorqueDiagonal | tello_gazebo/src/tello_plugin.cpp:190 | with a diagonal inertia the torque is (0, 0, clamped yaw demand times the z moment) |
| Geometry.RowTimesDiagonal | tello_gazebo/src/tello_plugin.cpp:190 | the row-vector product with a diagonal matrix is the component-wise product with its diagonal |
| Geometry.RowTimesAlongZ | tello_gazebo/src/tello_plugin.cpp:190 | a vector along z times a matrix is the bottom row scaled |
| TelloGazebo.TickUnsaturated | tello_gazebo/src/tello_plugin.cpp:177-190 | when no demand exceeds its bound, force and torque are the raw demands times mass and inertia |
| TelloGazebo.TickLevelsPose | tello_gazebo/src/tello_plugin.cpp:199-202 | the new pose is the old one with quaternion X and Y zero; position and quaternion W and Z are unchanged; a level pose is kept as it is |
| TelloGazebo.LevelPose | tello_gazebo/src/tello_plugin.cpp:199-202 | the world pose with quaternion X and Y set to 0 and the rest untouched, not renormalised |
| TelloGazebo.LevelPoseKeepsYawIff | tello_gazebo/src/tello_plugin.cpp:199-202 | for a pose built from half-angle roll, pitch and yaw, the levelled quaternion keeps the yaw direction (cy, sy) exactly when sin(roll/2)·sin(pitch/2) = 0, in both directions |
| TelloGazebo.LevelPoseTurnsHeading | tello_gazebo/src/tello_plugin.cpp:199-202 | the pose (1, 1, 1, 0) levels to (1, 0, 0, 0), and the heading (1, 2) becomes (1, 0): no positive factor relates the two |
| TelloGazebo.LevelPoseKeepingHeading | tello_gazebo/src/tello_plugin.cpp:199 | the alternative levelling keeps the position and has quaternion X and Y zero; whenever the heading is defined, its heading is a positive multiple of the original's; when it is undefined (n = 0) the result is the code's own levelling |
| TelloGazebo.TickDecoupled | tello_gazebo/src/tello_plugin.cpp:188-202 | the new pose does not depend on laws, setpoints or dt, and force and torque do not depend on the pose |
| TelloGazebo.SaturatedForwardScenario | tello_gazebo/src/tello_plugin.cpp:178 | full forward command, body at rest, an x law giving 16 for that error at dt 0.1: the demand is clamped to 8 and the force is 8 times the mass |
| TelloGazebo.Dts | tello_gazebo/src/tello_plugin.cpp:153-154 | a run of ticks computes one dt per tick |
| TelloGazebo.SimTimes | tello_gazebo/src/tello_plugin.cpp:153 | the sim time of each update of a run, one per update |
| TelloGazebo.DtsTelescope | tello_gazebo/src/tello_plugin.cpp:153-154 | the dts of a run of ticks add up to the last sim time minus the stored sim time before the run |
| TelloGazebo.DtsAt | tello_gazebo/src/tello_plugin.cpp:153-154 | tick i of a run sees its own sim time minus the previous one, the stored sim time for the first tick |
| TelloGazebo.DtsNonNegative | tello_gazebo/src/tello_plugin.cpp:153-154 | while sim time does not go backwards (from the stored time on) no tick sees a negative dt |
| Pid.Controller.constructor | tello_gazebo/src/tello_plugin.cpp:65-68 | a controller is built with its law fixed; its first setpoint is left unspecified |
| Pid.Controller.SetTarget | tello_gazebo/src/tello_plugin.cpp:223-226 | set_target overwrites the setpoint |
| Pid.Controller.Calc | tello_gazebo/src/tello_plugin.cpp:167-170 | calc returns the controller's law applied to its current setpoint and the three arguments, and leaves the setpoint as it was |
| TelloGazebo.TelloPlugin.constructor | tello_gazebo/src/tello_plugin.cpp:40-74 | four distinct fresh controllers with the given laws, stored sim time 0, the given centre of mass |
| TelloGazebo.TelloPlugin.CmdVelCallback | tello_gazebo/src/tello_plugin.cpp:217-227 | all four setpoints become ScaleCommand(msg) regardless of their old values; the stored sim time is unchanged |
| TelloGazebo.TelloPlugin.OnUpdate | tello_gazebo/src/tello_plugin.cpp:143-207 | dt is the new sim time minus the stored one, the new sim time is stored, the result is Tick with that dt on the current laws and setpoints, and the setpoints are left unchanged |
| TelloGazebo.LastCommandBeforeTick | tello_gazebo/src/tello_plugin.cpp:143-227 | two commands followed by a tick: the tick's force, torque and pose use only the second command's setpoints |
| TelloGazebo.RunUpdates | tello_gazebo/src/tello_plugin.cpp:143-207 | a run of updates: tick i is Tick with the i-th dt of Dts from the stored sim time, the stored sim time ends as the last update's, and the setpoints are unchanged |

## Findings

| source | as written | input that shows it | evidently intended | confidence | as-written member | corrected member |
|---|---|---|---|---|---|---|
| tello_gazebo/src/tello_plugin.cpp:199-202 | quaternion X and Y are set to zero to remove roll and pitch | roll, pitch and yaw (0.3, -0.2, 1.0) rad level to yaw of about 1.03 rad; the quaternion (1, 1, 1, 0), heading (1, 2), levels to (1, 0, 0, 0), heading (1, 0) | roll and pitch become zero and the yaw stays as it was | not executed; the drift is second order in roll and pitch, so it is small when applied every tick | TelloGazebo.LevelPoseKeepsYawIff, TelloGazebo.LevelPoseTurnsHeading | TelloGazebo.LevelPoseKeepingHeading |

## Left out

- `Load`: SDF parsing, console output, assertions, and creation of ROS publishers, services, subscriptions and timers. This is plugin and transport wiring. Its one effect on the core, the SDF `center_of_mass` value, is a constructor parameter.
- `spin_10Hz` telemetry and the empty `command_callback`: they do not touch the control state.
- The static counter and the debug printing in `OnUpdate`: they have no effect on the outputs.
- pid.hpp is not part of this model. The controller's formula (gains 2, 0, 0, the angle flag, integral and derivative state, angle wrapping) is an abstract law given at construction. Properties that belong to it, such as a zero-`dt` step returning the proportional term, are not stated.
- Pid.Controller.Calc: does not model the change to the controller's internal state that `calc` may make, because that state lives in pid.hpp. The model's law depends only on the setpoint and the three arguments.
- Pid.Controller.constructor: does not promise the initial setpoint, because pid.hpp's initial value is not part of this model.
- Gazebo's calls (`RelativeLinearVel`, `RelativeAngularVel`, `GetInertial`, `WorldPose`, `SetWorldPose`, `AddLinkForce`, `AddRelativeTorque`) are inputs and outputs only. Physics and quaternion renormalisation are not modelled: the levelled quaternion is returned as written.
- `gazebo::common::Time` (seconds and nanoseconds as integers) is a real number of seconds.
- IEEE double rounding: all arithmetic is exact over `real`.
- The concurrency between ROS callbacks and the Gazebo update thread: calls are sequential in the model.
- TelloGazebo.Clamp: the bound holds for non-NaN doubles only. A NaN fails both comparisons and passes through unchanged, and `real` has no NaN.
- TelloGazebo.LevelPoseKeepingHeading: takes the heading's length as a parameter, because `real` has no square root. The model does not substitute it into `OnUpdate`, which keeps the code's levelling.
- The order of `OnUpdate`'s three outputs is not modelled. The code calls `SetWorldPose` first, then `AddLinkForce`, then `AddRelativeTorque`, so Gazebo applies the link-frame force to the already-levelled body. `LinkCommands` holds the three as one record, and Gazebo's effect of each call is not part of the model.
