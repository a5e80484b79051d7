/** The velocity-to-force pipeline of the Tello Gazebo model plugin: the
    acceleration clamp, the scaling of cmd_vel commands into controller
    setpoints, and the per-tick update that turns the four controllers'
    demands into a force, a torque and a levelled pose. */
module TelloGazebo {
  import opened Geometry
  import opened Pid

  /** M_PI: the double nearest to pi, written out exactly. */
  const PI: real := 3.141592653589793115997963468544185161590576171875

  /** Largest commanded velocities: horizontal, vertical, yaw. */
  const MAX_XY_V: real := 8.0
  const MAX_Z_V: real := 4.0
  const MAX_ANG_V: real := PI

  /** Largest acceleration demands: horizontal, vertical, yaw. */
  const MAX_XY_A: real := 8.0
  const MAX_Z_A: real := 4.0
  const MAX_ANG_A: real := PI

  // ---------------------------------------------------------------------
  // clamp

  /** `clamp(v, max)`: hard symmetric saturation to [-max, max]. */
  function Clamp(v: real, max: real): (r: real)
    ensures 0.0 <= max ==> -max <= r <= max
    ensures -max <= v <= max ==> r == v
  {
    if v > max then max else if v < -max then -max else v
  }

  function Min(a: real, b: real): (r: real) { if a <= b then a else b }
  function Max(a: real, b: real): (r: real) { if a <= b then b else a }
  function Abs(a: real): (r: real) { if a < 0.0 then -a else a }

  /** Above the range the result is the upper bound, below it the lower. */
  lemma ClampSaturates(v: real, max: real)
    requires 0.0 <= max
    ensures v > max ==> Clamp(v, max) == max
    ensures v < -max ==> Clamp(v, max) == -max
  {
  }

  /** For a non-negative bound, clamp agrees with the reference definition
      max(-max, min(v, max)) and is the point of [-max, max] nearest to v. */
  lemma ClampIsProjection(v: real, max: real, w: real)
    requires 0.0 <= max
    ensures Clamp(v, max) == Max(-max, Min(v, max))
    ensures -max <= w <= max ==> Abs(Clamp(v, max) - v) <= Abs(w - v)
  {
  }

  lemma ClampIdempotent(v: real, max: real)
    requires 0.0 <= max
    ensures Clamp(Clamp(v, max), max) == Clamp(v, max)
  {
  }

  lemma ClampOdd(v: real, max: real)
    requires 0.0 <= max
    ensures Clamp(-v, max) == -Clamp(v, max)
  {
  }

  lemma ClampMonotone(a: real, b: real, max: real)
    requires 0.0 <= max && a <= b
    ensures Clamp(a, max) <= Clamp(b, max)
  {
  }

  /** With a negative bound the source's expression does not saturate to an
      interval: every value goes to one of the two bounds. */
  lemma ClampNegativeBound(v: real, max: real)
    requires max < 0.0
    ensures Clamp(v, max) == max || Clamp(v, max) == -max
    ensures v <= max ==> Clamp(v, max) == -max
  {
  }

  // ---------------------------------------------------------------------
  // cmd_vel_callback

  /** geometry_msgs/Twist, the cmd_vel message. */
  datatype Twist = Twist(linear: Vector3, angular: Vector3)

  /** The setpoints of the x, y, z and yaw controllers. */
  datatype Targets = Targets(x: real, y: real, z: real, yaw: real)

  /** The setpoints one cmd_vel message sets: each normalised component is
      multiplied by the largest velocity of its axis. A command in [-1, 1]
      gives a setpoint within that largest velocity. */
  function ScaleCommand(msg: Twist): (t: Targets)
    ensures -1.0 <= msg.linear.x <= 1.0 ==> -MAX_XY_V <= t.x <= MAX_XY_V
    ensures -1.0 <= msg.linear.y <= 1.0 ==> -MAX_XY_V <= t.y <= MAX_XY_V
    ensures -1.0 <= msg.linear.z <= 1.0 ==> -MAX_Z_V <= t.z <= MAX_Z_V
    ensures -1.0 <= msg.angular.z <= 1.0 ==> -MAX_ANG_V <= t.yaw <= MAX_ANG_V
  {
    Targets(msg.linear.x * MAX_XY_V, msg.linear.y * MAX_XY_V,
            msg.linear.z * MAX_Z_V, msg.angular.z * MAX_ANG_V)
  }

  /** The normalised command that setpoints come from; the components that
      cmd_vel_callback does not read are zero. */
  function UnscaleTargets(t: Targets): (msg: Twist)
  {
    Twist(Vector3(t.x / MAX_XY_V, t.y / MAX_XY_V, t.z / MAX_Z_V),
          Vector3(0.0, 0.0, t.yaw / MAX_ANG_V))
  }

  /** Scaling loses only angular x and y, which the callback never reads. */
  lemma CommandRoundTrip(msg: Twist)
    ensures UnscaleTargets(ScaleCommand(msg)) == Twist(msg.linear, Vector3(0.0, 0.0, msg.angular.z))
  {
  }

  /** Every setpoint quadruple is reached by exactly one normalised command. */
  lemma TargetsRoundTrip(t: Targets)
    ensures ScaleCommand(UnscaleTargets(t)) == t
  {
  }

  /** A full forward command sets the x setpoint to exactly 8.0. */
  lemma FullForwardCommand(msg: Twist)
    requires msg.linear == Vector3(1.0, 0.0, 0.0) && msg.angular.z == 0.0
    ensures ScaleCommand(msg) == Targets(8.0, 0.0, 0.0, 0.0)
  {
  }

  /** The setpoints after cmd_vel_callback has run on each message of `msgs`
      in turn, starting from `t`. */
  function TargetsAfter(t: Targets, msgs: seq<Twist>): (r: Targets)
    decreases |msgs|
  {
    if msgs == [] then t else TargetsAfter(ScaleCommand(msgs[0]), msgs[1..])
  }

  /** Last write wins: after a non-empty run of commands only the last one
      counts, whatever the setpoints were before. */
  lemma {:induction false} LastCommandWins(t: Targets, msgs: seq<Twist>)
    requires msgs != []
    ensures TargetsAfter(t, msgs) == ScaleCommand(msgs[|msgs| - 1])
    decreases |msgs|
  {
    if |msgs| > 1 {
      LastCommandWins(ScaleCommand(msgs[0]), msgs[1..]);
    }
  }

  // ---------------------------------------------------------------------
  // OnUpdate

  /** gazebo::common::UpdateInfo, of which a tick reads only the sim time
      (in seconds). */
  datatype UpdateInfo = UpdateInfo(simTime: real)

  /** What a tick reads from the base link: body-frame linear and angular
      velocity, mass, moment of inertia and world pose. */
  datatype LinkState = LinkState(
    linearVel: Vector3, angularVel: Vector3,
    mass: real, moi: Matrix3, pose: Pose3)

  /** What a tick hands to the base link: the pose for SetWorldPose, the
      force and its point of application for AddLinkForce, and the torque
      for AddRelativeTorque. */
  datatype LinkCommands = LinkCommands(
    pose: Pose3, force: Vector3, forceAt: Vector3, torque: Vector3)

  /** The laws of the x, y, z and yaw controllers. */
  datatype Laws = Laws(x: Law, y: Law, z: Law, yaw: Law)

  /** Linear and angular acceleration demand (`lin_ubar`, `ang_ubar`). */
  datatype Demand = Demand(lin: Vector3, ang: Vector3)

  /** The demands before clamping: each controller is fed the body-frame
      component it governs, the tick's dt and a third argument of 0. Only
      the z component of the angular demand is ever computed; x and y keep
      the zero of a default-constructed vector. */
  function RawDemand(laws: Laws, t: Targets, dt: real, link: LinkState): (d: Demand)
  {
    Demand(Vector3(laws.x(t.x, link.linearVel.x, dt, 0.0),
                   laws.y(t.y, link.linearVel.y, dt, 0.0),
                   laws.z(t.z, link.linearVel.z, dt, 0.0)),
           Vector3(0.0, 0.0, laws.yaw(t.yaw, link.angularVel.z, dt, 0.0)))
  }

  /** The four clamped components are within their bounds; a demand that is
      already within them is left as it is. */
  predicate WithinBounds(d: Demand)
  {
    -MAX_XY_A <= d.lin.x <= MAX_XY_A && -MAX_XY_A <= d.lin.y <= MAX_XY_A &&
    -MAX_Z_A <= d.lin.z <= MAX_Z_A && -MAX_ANG_A <= d.ang.z <= MAX_ANG_A
  }

  /** Clamping of the acceleration demand, one axis at a time. */
  function Saturate(d: Demand): (s: Demand)
    ensures WithinBounds(s)
    ensures WithinBounds(d) ==> s == d
    ensures s.ang.x == d.ang.x && s.ang.y == d.ang.y
  {
    Demand(Vector3(Clamp(d.lin.x, MAX_XY_A), Clamp(d.lin.y, MAX_XY_A), Clamp(d.lin.z, MAX_Z_A)),
           Vector3(d.ang.x, d.ang.y, Clamp(d.ang.z, MAX_ANG_A)))
  }

  lemma SaturateIdempotent(d: Demand)
    ensures Saturate(Saturate(d)) == Saturate(d)
  {
  }

  /** The pose with roll and pitch removed: quaternion X and Y set to 0, the
      rest untouched (no renormalisation). */
  function LevelPose(p: Pose3): (r: Pose3)
  {
    p.(rot := p.rot.(x := 0.0, y := 0.0))
  }

  // ---------------------------------------------------------------------
  // Levelling and heading

  /** The direction in the world's horizontal plane that the body's x axis
      points to under rotation `q`, scaled by the squared norm of `q` (so no
      normalisation is needed). The Euler yaw of `q` is the angle of this
      vector. */
  function HeadingX(q: Quaternion): (r: real) { q.w * q.w + q.x * q.x - q.y * q.y - q.z * q.z }
  function HeadingY(q: Quaternion): (r: real) { 2.0 * (q.w * q.z + q.x * q.y) }

  /** The heading of `q` is the heading of `p` scaled by the positive factor
      `k`: both point the same way in the horizontal plane. */
  predicate HeadingScaledBy(p: Quaternion, q: Quaternion, k: real)
  {
    k > 0.0 && HeadingX(q) == k * HeadingX(p) && HeadingY(q) == k * HeadingY(p)
  }

  /** The orientation quaternion of Euler angles (roll, pitch, yaw), given
      the cosines and sines of the half angles. */
  function EulerQuaternion(cr: real, sr: real, cp: real, sp: real, cy: real, sy: real): (q: Quaternion)
  {
    Quaternion(cr * cp * cy + sr * sp * sy,
               sr * cp * cy - cr * sp * sy,
               cr * sp * cy + sr * cp * sy,
               cr * cp * sy - sr * sp * cy)
  }

  /** Zeroing quaternion X and Y, as the code does, keeps the half-angle yaw
      direction (cy, sy) exactly when roll or pitch is zero: with both non-zero
      the levelled pose has a different yaw. */
  lemma LevelPoseKeepsYawIff(pos: Vector3, cr: real, sr: real, cp: real, sp: real, cy: real, sy: real)
    requires cy * cy + sy * sy == 1.0
    ensures var l := LevelPose(Pose3(pos, EulerQuaternion(cr, sr, cp, sp, cy, sy))).rot;
      l.z * cy == l.w * sy <==> sr * sp == 0.0
  {
    var l := LevelPose(Pose3(pos, EulerQuaternion(cr, sr, cp, sp, cy, sy))).rot;
    assert l.z * cy - l.w * sy == -(sr * sp) * (cy * cy + sy * sy);
  }

  /** A concrete pose whose heading the code's levelling turns: the heading of
      (1, 1, 1, 0) is (1, 2), that of its levelled form (1, 0, 0, 0) is (1, 0),
      and no positive factor takes one to the other. */
  lemma LevelPoseTurnsHeading(k: real)
    ensures LevelPose(Pose3(ZERO, Quaternion(1.0, 1.0, 1.0, 0.0))).rot == Quaternion(1.0, 0.0, 0.0, 0.0)
    ensures !HeadingScaledBy(Quaternion(1.0, 1.0, 1.0, 0.0), Quaternion(1.0, 0.0, 0.0, 0.0), k)
  {
    TiltedHeading();
    LevelHeading();
    NotScaled(Quaternion(1.0, 1.0, 1.0, 0.0), Quaternion(1.0, 0.0, 0.0, 0.0), k);
  }

  lemma TiltedHeading()
    ensures HeadingX(Quaternion(1.0, 1.0, 1.0, 0.0)) == 1.0 && HeadingY(Quaternion(1.0, 1.0, 1.0, 0.0)) == 2.0
  {
  }

  lemma LevelHeading()
    ensures HeadingX(Quaternion(1.0, 0.0, 0.0, 0.0)) == 1.0 && HeadingY(Quaternion(1.0, 0.0, 0.0, 0.0)) == 0.0
  {
  }

  /** Headings (1, 2) and (1, 0) are not positive multiples of each other. */
  lemma NotScaled(p: Quaternion, q: Quaternion, k: real)
    requires HeadingX(p) == 1.0 && HeadingY(p) == 2.0 && HeadingX(q) == 1.0 && HeadingY(q) == 0.0
    ensures !HeadingScaledBy(p, q, k)
  {
  }

  /** Levelling that removes roll and pitch and keeps the heading: a pure
      yaw quaternion whose heading points the way `p`'s does. `n` is the
      length of `p`'s heading vector, for which Dafny's reals have no square
      root. It is zero only when the heading is undefined (body x axis
      vertical); then no yaw is kept and the result is the code's own
      levelling. Like the code's result, the quaternion is not normalised. */
  function LevelPoseKeepingHeading(p: Pose3, n: real): (r: Pose3)
    requires 0.0 <= n && n * n == HeadingX(p.rot) * HeadingX(p.rot) + HeadingY(p.rot) * HeadingY(p.rot)
    ensures r.pos == p.pos && r.rot.x == 0.0 && r.rot.y == 0.0
    ensures 0.0 < n ==> HeadingScaledBy(p.rot, r.rot, HeadingFactor(HeadingX(p.rot), n))
    ensures n == 0.0 ==> r == LevelPose(p)
  {
    var a, b := HeadingX(p.rot), HeadingY(p.rot);
    if n == 0.0 then
      LevelPose(p)
    else if n + a > 0.0 then
      var q := Quaternion(n + a, 0.0, 0.0, b);
      FrontYawHeading(a, b, n);
      ScaledBy(p.rot, q, 2.0 * (n + a), a, b, HeadingX(q), HeadingY(q));
      p.(rot := q)
    else
      var q := Quaternion(b, 0.0, 0.0, n - a);
      BackYawHeading(a, b, n);
      ScaledBy(p.rot, q, 2.0 * (n - a), a, b, HeadingX(q), HeadingY(q));
      p.(rot := q)
  }

  /** The factor by which LevelPoseKeepingHeading scales a heading whose x
      component is `a` and whose length is `n`. */
  function HeadingFactor(a: real, n: real): (k: real)
  {
    if n + a > 0.0 then 2.0 * (n + a) else 2.0 * (n - a)
  }

  /** HeadingScaledBy from the values of the two headings. */
  lemma ScaledBy(p: Quaternion, q: Quaternion, k: real, a: real, b: real, c: real, d: real)
    requires HeadingX(p) == a && HeadingY(p) == b && HeadingX(q) == c && HeadingY(q) == d
    requires 0.0 < k && c == k * a && d == k * b
    ensures HeadingScaledBy(p, q, k)
  {
  }

  /** The heading of the pure yaw quaternion (n + a, 0, 0, b) is 2(n + a)
      times (a, b), when n is the length of (a, b). */
  lemma FrontYawHeading(a: real, b: real, n: real)
    requires n * n == a * a + b * b
    ensures var q := Quaternion(n + a, 0.0, 0.0, b);
      HeadingX(q) == 2.0 * (n + a) * a && HeadingY(q) == 2.0 * (n + a) * b
  {
    var q := Quaternion(n + a, 0.0, 0.0, b);
    assert HeadingX(q) == (n + a) * (n + a) - b * b;
    assert (n + a) * (n + a) - b * b == n * n + 2.0 * n * a + a * a - b * b;
  }

  /** The heading of the pure yaw quaternion (b, 0, 0, n - a) is 2(n - a)
      times (a, b), when n is the length of (a, b). */
  lemma BackYawHeading(a: real, b: real, n: real)
    requires n * n == a * a + b * b
    ensures var q := Quaternion(b, 0.0, 0.0, n - a);
      HeadingX(q) == 2.0 * (n - a) * a && HeadingY(q) == 2.0 * (n - a) * b
  {
    var q := Quaternion(b, 0.0, 0.0, n - a);
    assert HeadingX(q) == b * b - (n - a) * (n - a);
    assert b * b - (n - a) * (n - a) == b * b - n * n + 2.0 * n * a - a * a;
  }

  /** One tick given its dt: clamp the demands, scale the linear one by the
      mass and the angular one by the moment of inertia, level the pose. */
  function Tick(laws: Laws, t: Targets, dt: real, link: LinkState, centerOfMass: Vector3): (out: LinkCommands)
  {
    var u := Saturate(RawDemand(laws, t, dt, link));
    LinkCommands(LevelPose(link.pose), Scale(u.lin, link.mass), centerOfMass, RowTimes(u.ang, link.moi))
  }

  /** Force is the clamped demand of each linear controller times the mass,
      applied at the configured centre of mass. */
  lemma TickForce(laws: Laws, t: Targets, dt: real, link: LinkState, com: Vector3)
    ensures Tick(laws, t, dt, link, com).force == Vector3(
      Clamp(laws.x(t.x, link.linearVel.x, dt, 0.0), MAX_XY_A) * link.mass,
      Clamp(laws.y(t.y, link.linearVel.y, dt, 0.0), MAX_XY_A) * link.mass,
      Clamp(laws.z(t.z, link.linearVel.z, dt, 0.0), MAX_Z_A) * link.mass)
    ensures Tick(laws, t, dt, link, com).forceAt == com
  {
  }

  /** Torque is the clamped yaw demand times the bottom row of the inertia
      matrix. */
  lemma TickTorque(laws: Laws, t: Targets, dt: real, link: LinkState, com: Vector3)
    ensures var a := Clamp(laws.yaw(t.yaw, link.angularVel.z, dt, 0.0), MAX_ANG_A);
      Tick(laws, t, dt, link, com).torque == Vector3(a * link.moi.m20, a * link.moi.m21, a * link.moi.m22)
  {
    var a := Clamp(laws.yaw(t.yaw, link.angularVel.z, dt, 0.0), MAX_ANG_A);
    RowTimesAlongZ(a, link.moi);
  }

  /** With the inertia about the principal axes (a diagonal matrix) the torque
      is the component-wise product of the angular demand and the moments:
      zero about x and y, the clamped yaw demand times the z moment about z. */
  lemma TickTorqueDiagonal(laws: Laws, t: Targets, dt: real, link: LinkState, com: Vector3, i: Vector3)
    requires link.moi == Diagonal(i)
    ensures var a := Clamp(laws.yaw(t.yaw, link.angularVel.z, dt, 0.0), MAX_ANG_A);
      Tick(laws, t, dt, link, com).torque == Vector3(0.0, 0.0, a * i.z)
  {
    var u := Saturate(RawDemand(laws, t, dt, link));
    RowTimesDiagonal(u.ang, i);
  }

  /** When no demand exceeds its bound, clamping changes nothing and the
      force is the raw linear demand times the mass. */
  lemma TickUnsaturated(laws: Laws, t: Targets, dt: real, link: LinkState, com: Vector3)
    requires WithinBounds(RawDemand(laws, t, dt, link))
    ensures Tick(laws, t, dt, link, com).force == Scale(RawDemand(laws, t, dt, link).lin, link.mass)
    ensures Tick(laws, t, dt, link, com).torque == RowTimes(RawDemand(laws, t, dt, link).ang, link.moi)
  {
  }

  /** The new pose is the old one with quaternion X and Y zeroed; position and
      quaternion W and Z are unchanged, and a level pose stays as it is. */
  lemma TickLevelsPose(laws: Laws, t: Targets, dt: real, link: LinkState, com: Vector3)
    ensures var p := Tick(laws, t, dt, link, com).pose;
      p.pos == link.pose.pos &&
      p.rot == Quaternion(link.pose.rot.w, 0.0, 0.0, link.pose.rot.z)
    ensures link.pose.rot.x == 0.0 && link.pose.rot.y == 0.0 ==>
      Tick(laws, t, dt, link, com).pose == link.pose
  {
  }

  /** Levelling is independent of the control chain, and the control chain
      is independent of the pose. */
  lemma TickDecoupled(laws: Laws, laws': Laws, t: Targets, t': Targets, dt: real, dt': real,
                      link: LinkState, p: Pose3, com: Vector3)
    ensures Tick(laws, t, dt, link, com).pose == Tick(laws', t', dt', link, com).pose
    ensures Tick(laws, t, dt, link, com).force == Tick(laws, t, dt, link.(pose := p), com).force
    ensures Tick(laws, t, dt, link, com).torque == Tick(laws, t, dt, link.(pose := p), com).torque
  {
  }

  /** A full forward command against a body at rest, with an x law that
      demands 16 for that error at dt = 0.1 (proportional gain 2), is
      clamped to 8 and yields a force of 8 times the mass. */
  lemma SaturatedForwardScenario(laws: Laws, msg: Twist, link: LinkState, com: Vector3)
    requires msg.linear.x == 1.0 && link.linearVel.x == 0.0
    requires laws.x(MAX_XY_V, 0.0, 0.1, 0.0) == 16.0
    ensures Tick(laws, ScaleCommand(msg), 0.1, link, com).force.x == 8.0 * link.mass
  {
  }

  // ---------------------------------------------------------------------
  // Runs of ticks

  function Sum(s: seq<real>): (r: real)
    decreases |s|
  {
    if s == [] then 0.0 else s[0] + Sum(s[1..])
  }

  /** The dt of each of a run of ticks at sim times `times`, when the stored
      sim time before the first is `last`: each tick's dt is its sim time
      minus the one before. */
  function Dts(last: real, times: seq<real>): (dts: seq<real>)
    ensures |dts| == |times|
    decreases |times|
  {
    if times == [] then [] else [times[0] - last] + Dts(times[0], times[1..])
  }

  /** The dts of a run add up to the sim time that elapsed over it. */
  lemma {:induction false} DtsTelescope(last: real, times: seq<real>)
    requires times != []
    ensures Sum(Dts(last, times)) == times[|times| - 1] - last
    decreases |times|
  {
    if |times| > 1 {
      DtsTelescope(times[0], times[1..]);
    }
  }

  /** Tick `i` of a run sees its own sim time minus the one before it (the
      stored sim time for the first tick). */
  lemma {:induction false} DtsAt(last: real, times: seq<real>, i: int)
    requires 0 <= i < |times|
    ensures Dts(last, times)[i] == times[i] - ([last] + times)[i]
    decreases i
  {
    if i > 0 {
      DtsAt(times[0], times[1..], i - 1);
      assert ([times[0]] + times[1..])[i - 1] == ([last] + times)[i];
    }
  }

  /** The sim times of a run of updates. */
  function SimTimes(infos: seq<UpdateInfo>): (times: seq<real>)
    ensures |times| == |infos|
  {
    seq(|infos|, i requires 0 <= i < |infos| => infos[i].simTime)
  }

  predicate NonDecreasing(s: seq<real>)
  {
    forall i, j :: 0 <= i < j < |s| ==> s[i] <= s[j]
  }

  /** While sim time does not go backwards, no tick sees a negative dt. */
  lemma {:induction false} DtsNonNegative(last: real, times: seq<real>)
    requires NonDecreasing([last] + times)
    ensures forall k :: 0 <= k < |times| ==> Dts(last, times)[k] >= 0.0
    decreases |times|
  {
    if times != [] {
      var s := [last] + times;
      assert s[0] <= s[1];
      assert [times[0]] + times[1..] == times;
      assert NonDecreasing([times[0]] + times[1..]) by {
        forall i, j | 0 <= i < j < |times| ensures times[i] <= times[j] {
          assert s[i + 1] <= s[j + 1];
        }
      }
      DtsNonNegative(times[0], times[1..]);
      forall k | 0 <= k < |times| ensures Dts(last, times)[k] >= 0.0 {
        if k > 0 {
          assert Dts(last, times)[k] == Dts(times[0], times[1..])[k - 1];
        }
      }
    }
  }

  // ---------------------------------------------------------------------
  // The plugin object

  /** TelloPlugin: the stored sim time of the last update, the centre of mass
      the force is applied at, and the four channel controllers. */
  class TelloPlugin {
    var simTime: real
    const centerOfMass: Vector3
    const xController: Controller
    const yController: Controller
    const zController: Controller
    const yawController: Controller

    /** The four controllers are distinct objects. */
    ghost predicate Valid()
    {
      xController != yController && xController != zController &&
      xController != yawController && yController != zController &&
      yController != yawController && zController != yawController
    }

    /** The stored sim time starts at zero (a default-constructed
        gazebo::common::Time); `centerOfMass` is the value of the SDF
        element `center_of_mass`, zero when absent. */
    constructor (laws: Laws, centerOfMass: Vector3)
      ensures Valid() && simTime == 0.0 && this.centerOfMass == centerOfMass
      ensures fresh(xController) && fresh(yController) && fresh(zController) && fresh(yawController)
      ensures xController.law == laws.x && yController.law == laws.y
      ensures zController.law == laws.z && yawController.law == laws.yaw
    {
      simTime := 0.0;
      this.centerOfMass := centerOfMass;
      xController := new Controller(laws.x);
      yController := new Controller(laws.y);
      zController := new Controller(laws.z);
      yawController := new Controller(laws.yaw);
    }

    function ChannelLaws(): (l: Laws)
    {
      Laws(xController.law, yController.law, zController.law, yawController.law)
    }

    function Setpoints(): (t: Targets)
      reads xController, yController, zController, yawController
    {
      Targets(xController.target, yController.target, zController.target, yawController.target)
    }

    /** `cmd_vel_callback`: all four setpoints are overwritten from the message,
        whatever they were; the stored sim time is untouched. */
    method CmdVelCallback(msg: Twist)
      requires Valid()
      modifies xController, yController, zController, yawController
      ensures Setpoints() == ScaleCommand(msg)
      ensures simTime == old(simTime)
    {
      xController.SetTarget(msg.linear.x * MAX_XY_V);
      yController.SetTarget(msg.linear.y * MAX_XY_V);
      zController.SetTarget(msg.linear.z * MAX_Z_V);
      yawController.SetTarget(msg.angular.z * MAX_ANG_V);
    }

    /** `OnUpdate`: dt is the new sim time minus the stored one (no special
        case for the first tick), the new sim time is stored, and the result is
        one Tick with that dt; the setpoints are not touched. */
    method OnUpdate(info: UpdateInfo, link: LinkState) returns (out: LinkCommands)
      modifies this
      ensures simTime == info.simTime
      ensures out == Tick(ChannelLaws(), Setpoints(), info.simTime - old(simTime), link, centerOfMass)
      ensures Setpoints() == old(Setpoints())
    {
      var dt := info.simTime - simTime;
      simTime := info.simTime;

      var linearVelocity := link.linearVel;
      var angularVelocity := link.angularVel;

      var linUbar, angUbar := ZERO, ZERO;
      var u := xController.Calc(linearVelocity.x, dt, 0.0);
      linUbar := linUbar.(x := u);
      u := yController.Calc(linearVelocity.y, dt, 0.0);
      linUbar := linUbar.(y := u);
      u := zController.Calc(linearVelocity.z, dt, 0.0);
      linUbar := linUbar.(z := u);
      u := yawController.Calc(angularVelocity.z, dt, 0.0);
      angUbar := angUbar.(z := u);

      linUbar := linUbar.(x := Clamp(linUbar.x, MAX_XY_A));
      linUbar := linUbar.(y := Clamp(linUbar.y, MAX_XY_A));
      linUbar := linUbar.(z := Clamp(linUbar.z, MAX_Z_A));
      angUbar := angUbar.(z := Clamp(angUbar.z, MAX_ANG_A));

      var force := Scale(linUbar, link.mass);
      var torque := RowTimes(angUbar, link.moi);

      var pose := link.pose;
      pose := pose.(rot := pose.rot.(x := 0.0));
      pose := pose.(rot := pose.rot.(y := 0.0));

      out := LinkCommands(pose, force, centerOfMass, torque);
    }
  }

  /** Two commands before a tick: the tick uses the second command's
      setpoints only. */
  method LastCommandBeforeTick(p: TelloPlugin, c1: Twist, c2: Twist, info: UpdateInfo, link: LinkState)
    returns (out: LinkCommands)
    requires p.Valid()
    modifies p, p.xController, p.yController, p.zController, p.yawController
    ensures out == Tick(p.ChannelLaws(), ScaleCommand(c2), info.simTime - old(p.simTime), link, p.centerOfMass)
    ensures p.simTime == info.simTime && p.Setpoints() == ScaleCommand(c2)
  {
    p.CmdVelCallback(c1);
    p.CmdVelCallback(c2);
    out := p.OnUpdate(info, link);
  }

  /** A run of `OnUpdate` calls, one per update: tick `i` is Tick with the
      `i`-th dt of the run, the stored sim time ends as the last update's,
      and the setpoints stay as they were. */
  method RunUpdates(p: TelloPlugin, infos: seq<UpdateInfo>, links: seq<LinkState>)
    returns (outs: seq<LinkCommands>)
    requires |infos| == |links|
    modifies p
    ensures |outs| == |infos|
    ensures p.simTime == ([old(p.simTime)] + SimTimes(infos))[|infos|]
    ensures forall i :: 0 <= i < |infos| ==>
      outs[i] == Tick(p.ChannelLaws(), p.Setpoints(), Dts(old(p.simTime), SimTimes(infos))[i], links[i], p.centerOfMass)
    ensures p.Setpoints() == old(p.Setpoints())
  {
    outs := [];
    var i := 0;
    while i < |infos|
      invariant 0 <= i <= |infos| && |outs| == i
      invariant p.simTime == ([old(p.simTime)] + SimTimes(infos))[i]
      invariant p.Setpoints() == old(p.Setpoints())
      invariant forall j :: 0 <= j < i ==>
        outs[j] == Tick(p.ChannelLaws(), p.Setpoints(), Dts(old(p.simTime), SimTimes(infos))[j], links[j], p.centerOfMass)
    {
      DtsAt(old(p.simTime), SimTimes(infos), i);
      var out := p.OnUpdate(infos[i], links[i]);
      outs := outs + [out];
      i := i + 1;
    }
  }
}
