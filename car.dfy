/** Model of TeslaTest/Car.cs: a planar single-track ("bicycle") vehicle
    whose state is advanced once per tick by a semi-implicit (symplectic) Euler step.

    Every floating-point quantity of the source is a `real` here. The
    trigonometric functions and the vector length of the .NET library are
    not interpreted: they are the fields of a `MathLib` value handed to the
    step, and only the few facts the model relies on are assumed of them
    (see `Numerics`). The Z component of the source's `Vector3D` values is
    always zero and is dropped. */
module Vehicle {
  import opened Util

  /** m/s^2 */
  const GRAVITY: real := 9.81

  /** A vector in the ground plane (world or car frame). */
  datatype Vec = Vec(x: real, y: real) {
    function Plus(o: Vec): Vec { Vec(x + o.x, y + o.y) }
    function Scale(k: real): Vec { Vec(x * k, y * k) }
    function Div(k: real): Vec requires k != 0.0 { Vec(x / k, y / k) }
  }

  const Zero: Vec := Vec(0.0, 0.0)

  /** Real division by a non-zero divisor. */
  function Quot(x: real, y: real): real
    requires y != 0.0
  {
    x / y
  }

  // System.Math helpers, as the source uses them.
  function Abs(x: real): real { if x < 0.0 then -x else x }
  function Sign(x: real): real { if x > 0.0 then 1.0 else if x < 0.0 then -1.0 else 0.0 }
  function Min(x: real, y: real): real { if x <= y then x else y }
  function Max(x: real, y: real): real { if x >= y then x else y }

  /** The library functions the step calls: Math.Sin, Math.Cos, Math.Atan2 and Vector3D.Length. */
  datatype MathLib = MathLib(sin: real -> real, cos: real -> real, atan2: (real, real) -> real, length: Vec -> real)
  {
    function Sin(angle: real): real { sin(angle) }
    function Cos(angle: real): real { cos(angle) }
    function Atan2(y: real, x: real): real { atan2(y, x) }
    function Length(u: Vec): real { length(u) }

    /** The only facts the model takes for granted: a length is never negative,
        the zero vector has length 0, and Atan2(0, 0) is 0 as in .NET. */
    ghost predicate Sound()
    {
      && (forall u :: Length(u) >= 0.0)
      && Length(Zero) == 0.0
      && Atan2(0.0, 0.0) == 0.0
    }
  }

  type Numerics = m: MathLib | m.Sound()
    witness MathLib(h => 0.0, h => 1.0, (y, x) => 0.0, u => 0.0)

  /** The public configuration properties of Car (mass in kg, distances in metres,
      maxSteer in degrees). */
  datatype Config = Config(
    mass: real,
    inertiaScale: real,
    halfWidth: real,
    cgToFront: real,
    cgToRear: real,
    cgToFrontAxle: real,
    cgToRearAxle: real,
    cgHeight: real,
    wheelRadius: real,
    tireGrip: real,
    lockGrip: real,
    engineForce: real,
    brakeForce: real,
    eBrakeForce: real,
    weightTransfer: real,
    maxSteer: real,
    cornerStiffnessFront: real,
    cornerStiffnessRear: real,
    airResist: real,
    rollResist: real)

  /** The values RecalcStats caches from the configuration. */
  datatype Stats = Stats(inertia: real, wheelBase: real, ratioFront: real, ratioRear: real)

  /** The driver inputs the controller writes into the car every tick. */
  datatype Pedals = Pedals(throttle: real, brake: real, ebrake: real)

  /** The kinematic state Update rewrites: world position, velocity and acceleration,
      local velocity and acceleration, heading, yaw rate and speed. */
  datatype Motion = Motion(p_w: Vec, v_w: Vec, a_w: Vec, v: Vec, a: Vec, heading: real, yawRate: real, speed: real)

  datatype Axles = Axles(front: real, rear: real)

  /** RecalcStats: moment of inertia, wheelbase and the static share of the weight on
      each axle. The two shares always add up to the whole weight. */
  function ComputeStats(c: Config): (s: Stats)
    requires c.cgToFrontAxle + c.cgToRearAxle != 0.0
    ensures s.ratioFront + s.ratioRear == 1.0
    ensures s.inertia == c.mass * c.inertiaScale
    ensures s.wheelBase == c.cgToFrontAxle + c.cgToRearAxle
    ensures c.cgToFrontAxle > 0.0 && c.cgToRearAxle > 0.0 ==>
              0.0 < s.ratioFront < 1.0 && 0.0 < s.ratioRear < 1.0
    ensures c.cgToFrontAxle == c.cgToRearAxle ==> s.ratioFront == s.ratioRear == 0.5
  {
    var wheelBase := c.cgToFrontAxle + c.cgToRearAxle;
    Stats(c.mass * c.inertiaScale, wheelBase, c.cgToRearAxle / wheelBase, c.cgToFrontAxle / wheelBase)
  }

  /** Rotation of a world vector into the car frame (by -heading), given sin and cos of the heading. */
  function ToLocal(sn: real, cs: real, w: Vec): Vec
  {
    Vec(cs * w.x + sn * w.y, cs * w.y - sn * w.x)
  }

  /** Rotation of a car-frame vector into the world frame (by +heading). */
  function ToWorld(sn: real, cs: real, l: Vec): Vec
  {
    Vec(cs * l.x - sn * l.y, sn * l.x + cs * l.y)
  }

  /** Whenever sin^2 + cos^2 = 1, rotating into the car frame and back gives the vector back. */
  lemma RotationRoundTrip(sn: real, cs: real, w: Vec)
    requires sn * sn + cs * cs == 1.0
    ensures ToWorld(sn, cs, ToLocal(sn, cs, w)) == w
    ensures ToLocal(sn, cs, ToWorld(sn, cs, w)) == w
  {
  }

  /** Normal load on each axle: the static share of the weight, with load moved from the
      front to the rear axle in proportion to the previous tick's longitudinal acceleration.
      The transfer moves load between the axles and creates none. */
  function AxleWeights(c: Config, s: Stats, accelX: real): Axles
    requires s.wheelBase != 0.0
  {
    var transfer := c.weightTransfer * accelX * c.cgHeight / s.wheelBase;
    Axles(c.mass * (s.ratioFront * GRAVITY - transfer), c.mass * (s.ratioRear * GRAVITY + transfer))
  }

  /** The weight transfer moves load from one axle to the other and creates none. */
  lemma AxleTransferConservesLoad(c: Config, s: Stats, accelX: real)
    requires s.wheelBase != 0.0
    ensures var w := AxleWeights(c, s, accelX); w.front + w.rear == c.mass * (s.ratioFront + s.ratioRear) * GRAVITY
  {
  }

  /** With the ratios RecalcStats computes, the two axle loads always add up to the car's weight. */
  lemma AxleLoadsSumToWeight(c: Config, accelX: real)
    requires c.cgToFrontAxle + c.cgToRearAxle != 0.0
    ensures var w := AxleWeights(c, ComputeStats(c), accelX); w.front + w.rear == c.mass * GRAVITY
  {
  }

  /** Under forward acceleration, with a positive mass, transfer coefficient, centre-of-gravity
      height and wheelbase, load leaves the front axle and goes to the rear one; braking
      (negative acceleration) does the opposite. */
  lemma AxleLoadShift(c: Config, s: Stats, accelX: real)
    requires s.wheelBase > 0.0 && c.mass > 0.0 && c.weightTransfer > 0.0 && c.cgHeight > 0.0
    ensures var w := AxleWeights(c, s, accelX);
      && (accelX > 0.0 ==> w.front < c.mass * s.ratioFront * GRAVITY && w.rear > c.mass * s.ratioRear * GRAVITY)
      && (accelX < 0.0 ==> w.front > c.mass * s.ratioFront * GRAVITY && w.rear < c.mass * s.ratioRear * GRAVITY)
      && (accelX == 0.0 ==> w.front == c.mass * s.ratioFront * GRAVITY && w.rear == c.mass * s.ratioRear * GRAVITY)
  {
  }

  // Monotonicity of multiplication, used by the proofs below.
  lemma MulNonNeg(a: real, b: real)
    requires a >= 0.0 && b >= 0.0
    ensures a * b >= 0.0
  {
  }

  lemma MulMono(a: real, b: real, k: real)
    requires a <= b && k >= 0.0
    ensures a * k <= b * k
  {
  }

  /** Grip of the rear tyres: reduced towards `lockGrip` of the nominal grip as the handbrake is applied. */
  function RearGrip(tireGrip: real, ebrake: real, lockGrip: real): real
  {
    tireGrip * (1.0 - ebrake * (1.0 - lockGrip))
  }

  /** Without the handbrake the rear keeps the nominal grip; fully on, it keeps the locked fraction. */
  lemma RearGripEndpoints(tireGrip: real, lockGrip: real)
    ensures RearGrip(tireGrip, 0.0, lockGrip) == tireGrip
    ensures RearGrip(tireGrip, 1.0, lockGrip) == tireGrip * lockGrip
  {
  }

  /** Any handbrake between 0 and 1 leaves the rear grip between the locked and the nominal grip. */
  lemma RearGripBetween(tireGrip: real, ebrake: real, lockGrip: real)
    requires tireGrip >= 0.0 && 0.0 <= ebrake <= 1.0 && 0.0 <= lockGrip <= 1.0
    ensures tireGrip * lockGrip <= RearGrip(tireGrip, ebrake, lockGrip) <= tireGrip
  {
    var loss := ebrake * (1.0 - lockGrip);
    MulNonNeg(ebrake, 1.0 - lockGrip);
    MulMono(ebrake, 1.0, 1.0 - lockGrip);
    MulNonNeg(tireGrip, loss);
    MulMono(loss, 1.0 - lockGrip, tireGrip);
    assert RearGrip(tireGrip, ebrake, lockGrip) == tireGrip - loss * tireGrip;
  }

  /** Applying the handbrake at all, with a lock grip below 1, takes the rear grip strictly
      below the nominal grip. */
  lemma RearGripReduced(tireGrip: real, ebrake: real, lockGrip: real)
    requires tireGrip > 0.0 && 0.0 < ebrake <= 1.0 && lockGrip < 1.0
    ensures RearGrip(tireGrip, ebrake, lockGrip) < tireGrip
  {
  }

  /** Lateral tyre force on one axle: the linear cornering-stiffness force, saturated at
      the grip, times the axle load. Its magnitude never exceeds grip times load. */
  function LateralFriction(stiffness: real, slip: real, grip: real, load: real): real
  {
    Clamp(-stiffness * slip, -grip, grip) * load
  }

  /** Friction saturation: with a non-negative grip the lateral force is at most grip times load. */
  lemma FrictionSaturation(stiffness: real, slip: real, grip: real, load: real)
    requires grip >= 0.0
    ensures Abs(LateralFriction(stiffness, slip, grip, load)) <= grip * Abs(load)
  {
  }

  lemma ScaledBound(k: real, bound: real, x: real)
    ensures -bound <= k <= bound ==> Abs(k * x) <= bound * Abs(x)
  {
  }

  /** Below saturation the force is the linear cornering-stiffness force. */
  lemma LateralFrictionLinear(stiffness: real, slip: real, grip: real, load: real)
    requires Abs(stiffness * slip) <= grip
    ensures LateralFriction(stiffness, slip, grip, load) == -stiffness * slip * load
  {
  }

  /** Beyond saturation the force is the full grip times the load, opposing the slip. */
  lemma LateralFrictionSaturated(stiffness: real, slip: real, grip: real, load: real)
    requires grip >= 0.0 && Abs(stiffness * slip) > grip
    ensures LateralFriction(stiffness, slip, grip, load) == (if stiffness * slip > 0.0 then -grip else grip) * load
  {
  }

  /** The engine force the throttle pedal asks for. */
  function DriveForce(c: Config, u: Pedals): real
  {
    u.throttle * c.engineForce
  }

  /** Effective brake force: pedal plus handbrake, but never more than the maximum brake force. */
  function BrakeForce(brake: real, ebrake: real, brakeForce: real, eBrakeForce: real): (b: real)
    ensures b <= brakeForce
    ensures b <= brake * brakeForce + ebrake * eBrakeForce
    ensures b == brakeForce || b == brake * brakeForce + ebrake * eBrakeForce
  {
    Min(brake * brakeForce + ebrake * eBrakeForce, brakeForce)
  }

  /** Longitudinal traction of the rear-wheel-drive car: the engine force pushes forward,
      the brake opposes the current direction of travel and does nothing at standstill. */
  function Traction(throttleForce: real, brakeForce: real, vx: real): (t: real)
    ensures vx == 0.0 ==> t == throttleForce
    ensures vx > 0.0 ==> t == throttleForce - brakeForce
    ensures vx < 0.0 ==> t == throttleForce + brakeForce
  {
    throttleForce - brakeForce * Sign(vx)
  }

  /** Rolling resistance (linear) plus air resistance (quadratic, sign kept) on one axis of
      the car frame. With non-negative coefficients it never pushes along the motion. */
  function Drag(rollResist: real, airResist: real, vel: real): real
  {
    -rollResist * vel - airResist * vel * Abs(vel)
  }

  /** There is no drag at standstill, and with non-negative coefficients drag never pushes
      along the motion. */
  lemma DragOpposesMotion(rollResist: real, airResist: real, vel: real)
    ensures vel == 0.0 ==> Drag(rollResist, airResist, vel) == 0.0
    ensures rollResist >= 0.0 && airResist >= 0.0 ==> Drag(rollResist, airResist, vel) * vel <= 0.0
  {
  }

  /** The stop clamp's test: the speed after integration is below 0.5 m/s and no engine force is applied. */
  predicate Stops(speed: real, throttleForce: real)
  {
    Abs(speed) < 0.5 && throttleForce == 0.0
  }

  /** Slip angle of the front and rear tyres. The steering angle only enters, with the sign of
      the forward velocity, when the car moves forwards or backwards. */
  function SlipAngles(c: Config, v: Vec, yawRate: real, steerAngle: real, m: Numerics): Axles
  {
    // lateral velocity of each axle caused by the yaw rate
    var yawSpeedFront := c.cgToFrontAxle * yawRate;
    var yawSpeedRear := -c.cgToRearAxle * yawRate;
    Axles(m.Atan2(v.y + yawSpeedFront, Abs(v.x)) - Sign(v.x) * steerAngle,
          m.Atan2(v.y + yawSpeedRear, Abs(v.x)))
  }

  /** Total force in car coordinates: traction and drag along the car, drag and the two tyre
      forces across it, the front one projected through the steering angle. */
  function TotalForce(c: Config, v: Vec, throttleForce: real, brakeForce: real, friction: Axles, cosSteer: real): Vec
  {
    var tractionForceX := Traction(throttleForce, brakeForce, v.x);
    var tractionForceY := 0.0;
    var dragForceX := Drag(c.rollResist, c.airResist, v.x);
    var dragForceY := Drag(c.rollResist, c.airResist, v.y);
    Vec(dragForceX + tractionForceX, dragForceY + tractionForceY + cosSteer * friction.front + friction.rear)
  }

  /** Yaw torque of the lateral tyre forces about the centre of gravity. */
  function YawTorque(c: Config, friction: Axles): real
  {
    var tractionForceY := 0.0;
    (friction.front + tractionForceY) * c.cgToFrontAxle - friction.rear * c.cgToRearAxle
  }

  /** The forces of one tick in car coordinates (lines 89 to 121 of Car.Update): the
      lateral force of each axle and the total force. */
  datatype Forces = Forces(friction: Axles, total: Vec)

  /** Forces on the car moving with local velocity `v` and yaw rate `yawRate`, with axle
      loads shifted by the previous tick's longitudinal acceleration `accelX`. */
  function CarForces(c: Config, s: Stats, u: Pedals, steerAngle: real, v: Vec, accelX: real, yawRate: real, m: Numerics): Forces
    requires s.wheelBase != 0.0
  {
    var weights := AxleWeights(c, s, accelX);
    var slip := SlipAngles(c, v, yawRate, steerAngle, m);
    var tireGripFront := c.tireGrip;
    var tireGripRear := RearGrip(c.tireGrip, u.ebrake, c.lockGrip);
    var friction := Axles(LateralFriction(c.cornerStiffnessFront, slip.front, tireGripFront, weights.front),
                          LateralFriction(c.cornerStiffnessRear, slip.rear, tireGripRear, weights.rear));
    var brake := BrakeForce(u.brake, u.ebrake, c.brakeForce, c.eBrakeForce);
    Forces(friction, TotalForce(c, v, DriveForce(c, u), brake, friction, m.Cos(steerAngle)))
  }

  /** The steering angle enters the front slip angle with the sign of the forward velocity:
      subtracted when moving forwards, added when reversing, ignored at standstill. The rear
      slip angle never depends on it. */
  lemma SlipAnglesByDirection(c: Config, v: Vec, yawRate: real, steerAngle: real, m: Numerics)
    ensures var slip, straight := SlipAngles(c, v, yawRate, steerAngle, m), SlipAngles(c, v, yawRate, 0.0, m);
      && (v.x == 0.0 ==> slip.front == straight.front)
      && (v.x > 0.0 ==> slip.front == straight.front - steerAngle)
      && (v.x < 0.0 ==> slip.front == straight.front + steerAngle)
      && slip.rear == straight.rear
  {
  }

  /** Friction saturation on both axles: with grips in range, each axle's lateral force is at
      most its grip times its load, the rear grip being reduced by the handbrake. */
  lemma AxleFrictionBounded(c: Config, s: Stats, u: Pedals, steerAngle: real, v: Vec, accelX: real, yawRate: real, m: Numerics)
    requires s.wheelBase != 0.0
    requires GripInRange(c, u)
    ensures var f := CarForces(c, s, u, steerAngle, v, accelX, yawRate, m);
            var w := AxleWeights(c, s, accelX);
      && Abs(f.friction.front) <= c.tireGrip * Abs(w.front)
      && Abs(f.friction.rear) <= RearGrip(c.tireGrip, u.ebrake, c.lockGrip) * Abs(w.rear)
  {
    var w := AxleWeights(c, s, accelX);
    var slip := SlipAngles(c, v, yawRate, steerAngle, m);
    RearGripBetween(c.tireGrip, u.ebrake, c.lockGrip);
    FrictionSaturation(c.cornerStiffnessFront, slip.front, c.tireGrip, w.front);
    FrictionSaturation(c.cornerStiffnessRear, slip.rear, RearGrip(c.tireGrip, u.ebrake, c.lockGrip), w.rear);
  }

  /** What the first part of Car.Update computes from the state at the start of the tick:
      the velocity and the acceleration in the car frame, the acceleration in the world
      frame and the yaw torque. */
  datatype Tick = Tick(v: Vec, a: Vec, a_w: Vec, torque: real)

  function Accelerate(c: Config, s: Stats, u: Pedals, steerAngle: real, st: Motion, m: Numerics): Tick
    requires s.wheelBase != 0.0 && c.mass != 0.0
  {
    var sn := m.Sin(st.heading);
    var cs := m.Cos(st.heading);
    var v := ToLocal(sn, cs, st.v_w);
    var forces := CarForces(c, s, u, steerAngle, v, st.a.x, st.yawRate, m);
    var a := forces.total.Div(c.mass);
    Tick(v, a, ToWorld(sn, cs, a), YawTorque(c, forces.friction))
  }

  /** The end of Car.Update: velocity integration, the stop clamp, then yaw rate, heading and
      position integration. */
  function Settle(st: Motion, k: Tick, throttleForce: real, inertia: real, dt: real, m: Numerics): Motion
    requires inertia != 0.0
  {
    var v_w := st.v_w.Plus(k.a_w.Scale(dt));
    var speed := m.Length(v_w);
    var stop := Stops(speed, throttleForce);
    // the stop clamp zeroes speed, velocity, torque and yaw rate
    var speed' := if stop then 0.0 else speed;
    var v_w' := if stop then Zero else v_w;
    var torque := if stop then 0.0 else k.torque;
    var yawRate := if stop then 0.0 else st.yawRate;
    var yawRate' := yawRate + Quot(torque, inertia) * dt;
    Motion(st.p_w.Plus(v_w'.Scale(dt)), v_w', k.a_w, k.v, k.a, st.heading + yawRate' * dt, yawRate', speed')
  }

  /** Car.Update as a function: one semi-implicit (symplectic) Euler step of the single-track model, from the
      state `st`, with the cached stats `s`, the driver inputs `u` and the current steer angle. */
  function Step(c: Config, s: Stats, u: Pedals, steerAngle: real, st: Motion, dt: real, m: Numerics): Motion
    requires s.wheelBase != 0.0 && c.mass != 0.0 && s.inertia != 0.0
  {
    Settle(st, Accelerate(c, s, u, steerAngle, st, m), DriveForce(c, u), s.inertia, dt, m)
  }

  /** The stop clamp: when the integrated speed is below 0.5 m/s and no engine force is
      applied, the car is stopped where it stands. Velocity, speed and yaw rate become 0,
      and heading and position keep their values from before the tick. */
  lemma StopClamp(st: Motion, k: Tick, throttleForce: real, inertia: real, dt: real, m: Numerics)
    requires inertia != 0.0
    requires Stops(m.Length(st.v_w.Plus(k.a_w.Scale(dt))), throttleForce)
    ensures var r := Settle(st, k, throttleForce, inertia, dt, m);
      r.v_w == Zero && r.speed == 0.0 && r.yawRate == 0.0 && r.heading == st.heading && r.p_w == st.p_w
  {
  }

  /** Without the stop clamp the velocity is integrated with the world acceleration and the
      speed is its length; in particular the clamp never fires while the engine pushes. */
  lemma NoStopIntegrates(st: Motion, k: Tick, throttleForce: real, inertia: real, dt: real, m: Numerics)
    requires inertia != 0.0
    requires !Stops(m.Length(st.v_w.Plus(k.a_w.Scale(dt))), throttleForce)
    ensures var r := Settle(st, k, throttleForce, inertia, dt, m);
      && r.v_w == st.v_w.Plus(k.a_w.Scale(dt))
      && r.speed == m.Length(r.v_w)
      && r.yawRate == st.yawRate + Quot(k.torque, inertia) * dt
  {
  }

  /** Whatever happens in the tick, the stored speed is the length of the new world velocity,
      so it is never negative. */
  lemma SpeedIsLength(st: Motion, k: Tick, throttleForce: real, inertia: real, dt: real, m: Numerics)
    requires inertia != 0.0
    ensures var r := Settle(st, k, throttleForce, inertia, dt, m);
      r.speed == m.Length(r.v_w) && r.speed >= 0.0
  {
  }

  /** The integration is semi-implicit: heading and position advance with the yaw rate and
      velocity of the end of the tick, and the accelerations are those of this tick. */
  lemma SemiImplicitEuler(st: Motion, k: Tick, throttleForce: real, inertia: real, dt: real, m: Numerics)
    requires inertia != 0.0
    ensures var r := Settle(st, k, throttleForce, inertia, dt, m);
      && r.heading == st.heading + r.yawRate * dt
      && r.p_w == st.p_w.Plus(r.v_w.Scale(dt))
      && r.a_w == k.a_w && r.a == k.a && r.v == k.v
  {
  }

  /** From a standstill the longitudinal acceleration is the engine force over the mass:
      there is no drag at zero velocity and the brake has no direction to oppose. */
  lemma LaunchAcceleration(c: Config, s: Stats, u: Pedals, steerAngle: real, st: Motion, dt: real, m: Numerics)
    requires s.wheelBase != 0.0 && c.mass != 0.0 && s.inertia != 0.0
    requires st.v_w == Zero
    ensures Step(c, s, u, steerAngle, st, dt, m).a.x == DriveForce(c, u) / c.mass
  {
  }

  /** Grip values that keep both axles' force bounds meaningful: a non-negative nominal grip,
      a lock grip and a handbrake between 0 and 1. */
  predicate GripInRange(c: Config, u: Pedals)
  {
    c.tireGrip >= 0.0 && 0.0 <= c.lockGrip <= 1.0 && 0.0 <= u.ebrake <= 1.0
  }

  /** On a car at rest with no engine force no force acts: the slip angles are 0, so is the
      tyre force, and there is no drag and no brake direction. */
  lemma RestForces(c: Config, s: Stats, u: Pedals, steerAngle: real, accelX: real, m: Numerics)
    requires s.wheelBase != 0.0
    requires DriveForce(c, u) == 0.0 && GripInRange(c, u)
    ensures CarForces(c, s, u, steerAngle, Zero, accelX, 0.0, m) == Forces(Axles(0.0, 0.0), Zero)
  {
    var slip := SlipAngles(c, Zero, 0.0, steerAngle, m);
    assert slip.front == 0.0 && slip.rear == 0.0;
    RearGripBetween(c.tireGrip, u.ebrake, c.lockGrip);
  }

  /** At rest with no engine force the first part of the tick finds no velocity, no
      acceleration and no torque. */
  lemma RestAccelerate(c: Config, s: Stats, u: Pedals, steerAngle: real, st: Motion, m: Numerics)
    requires s.wheelBase != 0.0 && c.mass != 0.0
    requires st.v_w == Zero && st.yawRate == 0.0 && DriveForce(c, u) == 0.0
    requires GripInRange(c, u)
    ensures Accelerate(c, s, u, steerAngle, st, m) == Tick(Zero, Zero, Zero, 0.0)
  {
    assert ToLocal(m.Sin(st.heading), m.Cos(st.heading), st.v_w) == Zero;
    RestForces(c, s, u, steerAngle, st.a.x, m);
  }

  /** With no world acceleration and no engine force, a car without velocity is held by the
      stop clamp where it stands, whatever torque the tyres produce. */
  lemma RestSettle(st: Motion, k: Tick, throttleForce: real, inertia: real, dt: real, m: Numerics)
    requires inertia != 0.0 && st.v_w == Zero && k.a_w == Zero && throttleForce == 0.0
    ensures var r := Settle(st, k, throttleForce, inertia, dt, m);
      r.v_w == Zero && r.speed == 0.0 && r.yawRate == 0.0 && r.heading == st.heading && r.p_w == st.p_w
  {
    assert st.v_w.Plus(k.a_w.Scale(dt)) == Zero;
    StopClamp(st, k, throttleForce, inertia, dt, m);
  }

  /** A car at rest (no velocity, no yaw rate) with no engine force stays at rest for one tick:
      position, heading and velocity are unchanged, whatever the brake pedal and the steering do,
      provided the grips are in range (`GripInRange`). */
  lemma RestIsFixedPoint(c: Config, s: Stats, u: Pedals, steerAngle: real, st: Motion, dt: real, m: Numerics)
    requires s.wheelBase != 0.0 && c.mass != 0.0 && s.inertia != 0.0
    requires st.v_w == Zero && st.yawRate == 0.0 && DriveForce(c, u) == 0.0
    requires GripInRange(c, u)
    ensures var r := Step(c, s, u, steerAngle, st, dt, m);
      r.v_w == Zero && r.yawRate == 0.0 && r.heading == st.heading && r.p_w == st.p_w && r.speed == 0.0
  {
    var k := Accelerate(c, s, u, steerAngle, st, m);
    var r := Step(c, s, u, steerAngle, st, dt, m);
    assert r == Settle(st, k, DriveForce(c, u), s.inertia, dt, m);
    RestAccelerate(c, s, u, steerAngle, st, m);
    RestSettle(st, k, DriveForce(c, u), s.inertia, dt, m);
  }

  /** Repeated ticks: the step applied once for each steer angle in `angles`, in order. */
  function Run(c: Config, s: Stats, u: Pedals, angles: seq<real>, st: Motion, dt: real, m: Numerics): Motion
    requires s.wheelBase != 0.0 && c.mass != 0.0 && s.inertia != 0.0
    decreases |angles|
  {
    if angles == [] then st
    else Run(c, s, u, angles[1..], Step(c, s, u, angles[0], st, dt, m), dt, m)
  }

  /** Steady state at rest: with no engine force, a car at rest stays where it is, with the
      same heading and no velocity, for any number of ticks and any steering. */
  lemma {:induction false} RestIsSteady(c: Config, s: Stats, u: Pedals, angles: seq<real>, st: Motion, dt: real, m: Numerics)
    requires s.wheelBase != 0.0 && c.mass != 0.0 && s.inertia != 0.0
    requires st.v_w == Zero && st.yawRate == 0.0 && DriveForce(c, u) == 0.0
    requires GripInRange(c, u)
    ensures var r := Run(c, s, u, angles, st, dt, m);
      r.v_w == Zero && r.yawRate == 0.0 && r.heading == st.heading && r.p_w == st.p_w
    decreases |angles|
  {
    if angles != [] {
      RestIsFixedPoint(c, s, u, angles[0], st, dt, m);
      RestIsSteady(c, s, u, angles[1..], Step(c, s, u, angles[0], st, dt, m), dt, m);
    }
  }

  /** The first half of Car.Steer: with a command, move the raw steer value towards it at
      2 units/s, limited to [-1, 1]; without one, relax it towards 0 at 1 unit/s. */
  function SmoothSteer(steer: real, input: real, dt: real): real
  {
    if input != 0.0 then Clamp(steer + input * dt * 2.0, -1.0, 1.0)
    else if steer > 0.0 then Max(steer - dt * 1.0, 0.0)
    else if steer < 0.0 then Min(steer + dt * 1.0, 0.0)
    else steer
  }

  /** With a command the smoothed value is the old value moved by twice the command per
      second, limited to [-1, 1]. */
  lemma SmoothSteerWithCommand(steer: real, input: real, dt: real)
    requires input != 0.0
    ensures var r := SmoothSteer(steer, input, dt);
      && r == Clamp(steer + input * dt * 2.0, -1.0, 1.0)
      && -1.0 <= r <= 1.0
  {
  }

  /** Without a command the value moves towards 0 by at most dt and never changes sign;
      a value within dt of the centre is re-centred exactly. */
  lemma SmoothSteerRecentres(steer: real, dt: real)
    requires dt >= 0.0
    ensures var r := SmoothSteer(steer, 0.0, dt);
      && Abs(r) <= Abs(steer) && Abs(steer) - Abs(r) <= dt
      && (steer >= 0.0 ==> r >= 0.0) && (steer <= 0.0 ==> r <= 0.0)
      && (Abs(steer) <= dt ==> r == 0.0)
  {
  }

  /** A command never moves a valid steer value away from its own direction. */
  lemma SmoothSteerFollowsCommand(steer: real, input: real, dt: real)
    requires -1.0 <= steer <= 1.0 && dt >= 0.0
    ensures input > 0.0 ==> SmoothSteer(steer, input, dt) >= steer
    ensures input < 0.0 ==> SmoothSteer(steer, input, dt) <= steer
  {
  }

  /** A valid steer value stays valid through the smoothing, with or without a command. */
  lemma SmoothSteerBounded(steer: real, input: real, dt: real)
    requires -1.0 <= steer <= 1.0 && dt >= 0.0
    ensures -1.0 <= SmoothSteer(steer, input, dt) <= 1.0
  {
  }

  /** The second half of Car.Steer: the share of steering authority left at a speed
      (in m/s). */
  function Authority(speed: real): real
  {
    1.0 - Min(speed, 250.0) / 280.0
  }

  /** The authority is full at standstill, strictly reduced at any positive speed, and
      never below 30/280, the value it keeps from 250 m/s on. */
  lemma AuthorityRange(speed: real)
    ensures speed >= 0.0 ==> 30.0 / 280.0 <= Authority(speed) <= 1.0
    ensures speed > 0.0 ==> Authority(speed) < 1.0
    ensures speed >= 250.0 ==> Authority(speed) == 30.0 / 280.0
    ensures speed == 0.0 ==> Authority(speed) == 1.0
  {
  }

  /** The value Car.Steer stores back into `steer`: the smoothed value times the authority. */
  function SteerStep(steer: real, input: real, dt: real, speed: real): real
  {
    SmoothSteer(steer, input, dt) * Authority(speed)
  }

  lemma ScaledUnit(k: real, f: real)
    requires -1.0 <= k <= 1.0 && 0.0 <= f <= 1.0
    ensures -1.0 <= k * f <= 1.0
    ensures f < 1.0 ==> -1.0 < k * f < 1.0
  {
    if k >= 0.0 {
      MulMono(f, 1.0, k);
      MulNonNeg(k, f);
      if f < 1.0 { assert k * f <= f; }
    } else {
      MulMono(f, 1.0, -k);
      MulNonNeg(-k, f);
      if f < 1.0 { assert -(k * f) <= f; }
    }
  }

  /** Steering keeps the stored steer value in [-1, 1], given a valid value, a
      non-negative time step and a non-negative speed. */
  lemma SteerStaysBounded(steer: real, input: real, dt: real, speed: real)
    requires -1.0 <= steer <= 1.0 && dt >= 0.0 && speed >= 0.0
    ensures -1.0 <= SteerStep(steer, input, dt, speed) <= 1.0
  {
    SmoothSteerBounded(steer, input, dt);
    AuthorityRange(speed);
    ScaledUnit(SmoothSteer(steer, input, dt), Authority(speed));
  }

  /** Because the limited value is written back, a moving car never holds a full lock:
      the stored steer value stays strictly inside (-1, 1), however long a command is held. */
  lemma SteerNeverFullWhileMoving(steer: real, input: real, dt: real, speed: real)
    requires -1.0 <= steer <= 1.0 && dt >= 0.0 && speed > 0.0
    ensures -1.0 < SteerStep(steer, input, dt, speed) < 1.0
  {
    var k, f := SmoothSteer(steer, input, dt), Authority(speed);
    SmoothSteerBounded(steer, input, dt);
    AuthorityRange(speed);
    ScaledUnit(k, f);
    assert SteerStep(steer, input, dt, speed) == k * f;
  }

  /** The front wheel angle for a smoothed steer value: the steer value scales the maximum angle. */
  function WheelAngle(steer: real, maxSteer: real): real
  {
    steer * maxSteer
  }

  /** A steer value in [-1, 1] gives a wheel angle no larger in magnitude than maxSteer. */
  lemma SteerAngleBounded(steer: real, maxSteer: real)
    requires -1.0 <= steer <= 1.0
    ensures Abs(WheelAngle(steer, maxSteer)) <= Abs(maxSteer)
  {
    ScaledBound(steer, 1.0, maxSteer);
  }

  /** The vehicle: configuration, cached stats, driver inputs and kinematic state, all
      updated in place. */
  class Car {
    var config: Config

    // computed from the configuration by RecalcStats
    var inertia: real
    var wheelBase: real
    var axleWeightRatioFront: real
    var axleWeightRatioRear: real

    var yawRate: real
    var speed: real

    // driver inputs
    var throttle: real
    var brake: real
    var ebrake: real

    var steerAngle: real   // front wheel angle
    var steer: real        // smoothed steer value
    var heading: real

    // world frame
    var p_w: Vec
    var v_w: Vec
    var a_w: Vec
    // car frame
    var v: Vec
    var a: Vec

    function CachedStats(): Stats
      reads this`inertia, this`wheelBase, this`axleWeightRatioFront, this`axleWeightRatioRear
    {
      Stats(inertia, wheelBase, axleWeightRatioFront, axleWeightRatioRear)
    }

    function PedalState(): Pedals
      reads this`throttle, this`brake, this`ebrake
    {
      Pedals(throttle, brake, ebrake)
    }

    function State(): Motion
      reads this`p_w, this`v_w, this`a_w, this`v, this`a, this`heading, this`yawRate, this`speed
    {
      Motion(p_w, v_w, a_w, v, a, heading, yawRate, speed)
    }

    /** RecalcStats has run on the current configuration, and every divisor of Update is non-zero. */
    ghost predicate Ready()
      reads this`config, this`inertia, this`wheelBase, this`axleWeightRatioFront, this`axleWeightRatioRear
    {
      && config.cgToFrontAxle + config.cgToRearAxle != 0.0
      && CachedStats() == ComputeStats(config)
      && config.mass != 0.0
      && inertia != 0.0
    }

    /** A new car with the given configuration: stats not yet computed, at rest at the origin. */
    constructor (config: Config)
      ensures this.config == config
      ensures CachedStats() == Stats(0.0, 0.0, 0.0, 0.0)
      ensures PedalState() == Pedals(0.0, 0.0, 0.0)
      ensures State() == Motion(Zero, Zero, Zero, Zero, Zero, 0.0, 0.0, 0.0)
      ensures steer == 0.0 && steerAngle == 0.0
    {
      this.config := config;
      inertia, wheelBase, axleWeightRatioFront, axleWeightRatioRear := 0.0, 0.0, 0.0, 0.0;
      yawRate, speed := 0.0, 0.0;
      throttle, brake, ebrake := 0.0, 0.0, 0.0;
      steerAngle, steer, heading := 0.0, 0.0, 0.0;
      p_w, v_w, a_w, v, a := Zero, Zero, Zero, Zero, Zero;
    }

    /** Caches inertia, wheelbase and the axle weight ratios; the ratios add up to 1. */
    method RecalcStats()
      requires config.cgToFrontAxle + config.cgToRearAxle != 0.0
      modifies this`inertia, this`wheelBase, this`axleWeightRatioFront, this`axleWeightRatioRear
      ensures CachedStats() == ComputeStats(config)
      ensures axleWeightRatioFront + axleWeightRatioRear == 1.0
      ensures inertia == config.mass * config.inertiaScale
      ensures wheelBase == config.cgToFrontAxle + config.cgToRearAxle
      ensures config.mass != 0.0 && config.inertiaScale != 0.0 ==> Ready()
    {
      inertia := config.mass * config.inertiaScale;
      wheelBase := config.cgToFrontAxle + config.cgToRearAxle;
      axleWeightRatioFront := config.cgToRearAxle / wheelBase;
      axleWeightRatioRear := config.cgToFrontAxle / wheelBase;
    }

    /** One tick of the vehicle dynamics. Only the kinematic fields change, and they change
        to what `Step` gives for the car's configuration, cached stats, inputs, steer angle
        and kinematic state; configuration, stats, inputs and steering are left alone. */
    method Update(dt: real, m: Numerics)
      requires wheelBase != 0.0 && config.mass != 0.0 && inertia != 0.0
      modifies this`v, this`a, this`a_w, this`v_w, this`speed, this`yawRate, this`heading, this`p_w
      ensures State() == old(Step(config, CachedStats(), PedalState(), steerAngle, State(), dt, m))
      ensures config == old(config) && CachedStats() == old(CachedStats()) && PedalState() == old(PedalState())
      ensures steer == old(steer) && steerAngle == old(steerAngle)
    {
      // local velocity, axle loads, slip angles, tyre, drive and drag forces, accelerations
      var k := Accelerate(config, CachedStats(), PedalState(), steerAngle, State(), m);
      Integrate(k, DriveForce(config, PedalState()), dt, m);
    }

    /** The second part of Update: store the local velocity and the accelerations, integrate
        the velocity, apply the stop clamp, then integrate yaw rate, heading and position. */
    method Integrate(k: Tick, throttleForce: real, dt: real, m: Numerics)
      requires inertia != 0.0
      modifies this`v, this`a, this`a_w, this`v_w, this`speed, this`yawRate, this`heading, this`p_w
      ensures State() == Settle(old(State()), k, throttleForce, inertia, dt, m)
    {
      var st := State();
      var v_w' := st.v_w.Plus(k.a_w.Scale(dt));
      var speed' := m.Length(v_w');

      var angularTorque := k.torque;
      var yawRate' := st.yawRate;

      // the simulation is unstable at very low speed, so the car is stopped
      if Stops(speed', throttleForce) {
        speed' := 0.0;
        v_w' := Zero;
        angularTorque, yawRate' := 0.0, 0.0;
      }

      var angularAccel := Quot(angularTorque, inertia);
      yawRate' := yawRate' + angularAccel * dt;
      var heading' := st.heading + yawRate' * dt;
      var p_w' := st.p_w.Plus(v_w'.Scale(dt));

      ghost var r := Settle(st, k, throttleForce, inertia, dt, m);
      assert v_w' == r.v_w && speed' == r.speed;
      assert yawRate' == r.yawRate && heading' == r.heading;
      assert p_w' == r.p_w;
      v, a, a_w, v_w, speed, yawRate, heading, p_w := k.v, k.a, k.a_w, v_w', speed', yawRate', heading', p_w';
    }

    /** Smooths the steering command into `steer` and sets the wheel angle from it. The
        speed-limited value is stored back into `steer`. */
    method Steer(steerInput: real, dt: real)
      modifies this`steer, this`steerAngle
      ensures steer == SteerStep(old(steer), steerInput, dt, speed)
      ensures steerAngle == WheelAngle(steer, config.maxSteer)
    {
      var s := steer;
      if steerInput != 0.0 {
        // move towards the steering input
        s := Clamp(s + steerInput * dt * 2.0, -1.0, 1.0);
      } else {
        // no input: re-centre the steering
        if s > 0.0 {
          s := Max(s - dt * 1.0, 0.0);
        } else if s < 0.0 {
          s := Min(s + dt * 1.0, 0.0);
        }
      }
      assert s == SmoothSteer(old(steer), steerInput, dt);

      // reduce steering authority with speed
      var avel := Min(speed, 250.0);
      s := s * (1.0 - avel / 280.0);

      steer := s;
      steerAngle := s * config.maxSteer;
    }
  }
}
