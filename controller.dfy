/** Model of the input handling of TeslaTest/Controller.cs: the latch of held keys,
    its mapping onto the car's pedals and steering command once per tick, and the
    tick itself.

    The network connection is reduced to the boolean `connected`; opening and
    closing it, and sending the car's pose to the renderer, are not part of this
    model. */
module Controls {
  import opened Vehicle

  /** The keys the window forwards to the controller, in the order of the source's enum. */
  datatype Input = Forward | Backward | TurnLeft | TurnRight | EBrake
  {
    /** The position of the key in `inputState`: its ordinal in the enum. */
    function Index(): (i: nat)
      ensures i < InputCount
    {
      match this
      case Forward => 0
      case Backward => 1
      case TurnLeft => 2
      case TurnRight => 3
      case EBrake => 4
    }
  }

  /** Number of keys, hence the length of `inputState`. */
  const InputCount: nat := 5

  /** Distinct keys have distinct positions in the latch. */
  lemma IndexInjective(x: Input, y: Input)
    ensures x.Index() == y.Index() ==> x == y
  {
  }

  /** What one tick writes into the car from the held keys: handbrake, throttle and brake
      pedals, and the steering command passed to Car.Steer. */
  datatype Command = Command(ebrake: real, throttle: real, brake: real, steer: real)

  /** The steering command of UpdateInput(float): TurnLeft is tested before TurnRight. */
  function SteerCommand(held: seq<bool>): real
    requires |held| == InputCount
  {
    if held[TurnLeft.Index()] then 1.0 else if held[TurnRight.Index()] then -1.0 else 0.0
  }

  /** The mapping of UpdateInput(float) from the latch to the car's inputs. */
  function MapInputs(held: seq<bool>): Command
    requires |held| == InputCount
  {
    Command(
      if held[EBrake.Index()] then 1.0 else 0.0,
      if held[Forward.Index()] then 1.0 else 0.0,
      if held[Forward.Index()] then 0.0 else 1.0,
      SteerCommand(held))
  }

  /** The handbrake is fully on exactly when EBrake is held, and off otherwise. Forward
      gives full throttle and releases the brake; without it the brake is fully on and the
      throttle off. */
  lemma MapInputsPedals(held: seq<bool>)
    requires |held| == InputCount
    ensures var c := MapInputs(held);
      && (c.ebrake == 1.0 <==> held[EBrake.Index()])
      && (c.ebrake == 0.0 <==> !held[EBrake.Index()])
      && (c.throttle == 1.0 && c.brake == 0.0 <==> held[Forward.Index()])
      && (c.throttle == 0.0 && c.brake == 1.0 <==> !held[Forward.Index()])
  {
  }

  /** The steering command is +1 when TurnLeft is held, whatever TurnRight does; -1 when
      only TurnRight is held; 0 when neither is. */
  lemma MapInputsSteer(held: seq<bool>)
    requires |held| == InputCount
    ensures var c := MapInputs(held);
      && (c.steer == 1.0 <==> held[TurnLeft.Index()])
      && (c.steer == -1.0 <==> !held[TurnLeft.Index()] && held[TurnRight.Index()])
      && (c.steer == 0.0 <==> !held[TurnLeft.Index()] && !held[TurnRight.Index()])
  {
  }

  /** The Backward key is latched but has no effect of its own: flipping it changes
      nothing in the mapping. */
  lemma BackwardIgnored(held: seq<bool>, b: bool)
    requires |held| == InputCount
    ensures MapInputs(held[Backward.Index() := b]) == MapInputs(held)
  {
  }

  /** The grip and handbrake values of the mapping suit the car's force bounds whenever
      the configured grips are in range: the handbrake is 0 or 1. */
  lemma MapInputsGripInRange(held: seq<bool>, c: Config)
    requires |held| == InputCount
    requires c.tireGrip >= 0.0 && 0.0 <= c.lockGrip <= 1.0
    ensures var cmd := MapInputs(held);
      GripInRange(c, Pedals(cmd.throttle, cmd.brake, cmd.ebrake))
  {
  }

  /** Without Forward held, a car standing still stays where it is through a tick, whatever
      else is held: the mapping releases the throttle, so the stop clamp holds it. */
  lemma IdleTickKeepsRest(held: seq<bool>, c: Config, s: Stats, steerAngle: real, st: Motion, dt: real, m: Numerics)
    requires |held| == InputCount && !held[Forward.Index()]
    requires s.wheelBase != 0.0 && c.mass != 0.0 && s.inertia != 0.0
    requires c.tireGrip >= 0.0 && 0.0 <= c.lockGrip <= 1.0
    requires st.v_w == Zero && st.yawRate == 0.0
    ensures var cmd := MapInputs(held);
      var r := Step(c, s, Pedals(cmd.throttle, cmd.brake, cmd.ebrake), steerAngle, st, dt, m);
      r.v_w == Zero && r.yawRate == 0.0 && r.heading == st.heading && r.p_w == st.p_w && r.speed == 0.0
  {
    var cmd := MapInputs(held);
    MapInputsGripInRange(held, c);
    RestIsFixedPoint(c, s, Pedals(cmd.throttle, cmd.brake, cmd.ebrake), steerAngle, st, dt, m);
  }

  /** The car the controller sets up when it connects. */
  const DefaultConfig: Config := Config(
    1200.0,          // mass
    2.0,             // inertiaScale
    0.8,             // halfWidth
    2.0,             // cgToFront
    2.0,             // cgToRear
    1.25,            // cgToFrontAxle
    1.25,            // cgToRearAxle
    0.55,            // cgHeight
    0.55,            // wheelRadius
    2.0,             // tireGrip
    0.7,             // lockGrip
    4000.0,          // engineForce
    12000.0,         // brakeForce
    12000.0 / 2.5,   // eBrakeForce
    0.2,             // weightTransfer
    40.0,            // maxSteer
    5.0,             // cornerStiffnessFront
    5.2,             // cornerStiffnessRear
    2.5,             // airResist
    8.0)             // rollResist

  /** With the default configuration the weight is split evenly between the axles, the
      inertia is 2400 and the wheelbase 2.5 m; every divisor of the step is non-zero and
      the grips are in range. */
  lemma DefaultConfigStats()
    ensures ComputeStats(DefaultConfig) == Stats(2400.0, 2.5, 0.5, 0.5)
    ensures DefaultConfig.mass != 0.0
    ensures DefaultConfig.tireGrip >= 0.0 && 0.0 <= DefaultConfig.lockGrip <= 1.0
  {
  }

  /** With the default car standing still and Forward held, the first tick accelerates it
      along its axis at 4000 N / 1200 kg = 10/3 m/s^2, whatever else is held. */
  lemma DefaultLaunch(held: seq<bool>, steerAngle: real, st: Motion, dt: real, m: Numerics)
    requires |held| == InputCount && held[Forward.Index()]
    requires st.v_w == Zero
    ensures var cmd := MapInputs(held);
      Step(DefaultConfig, ComputeStats(DefaultConfig), Pedals(cmd.throttle, cmd.brake, cmd.ebrake), steerAngle, st, dt, m).a.x
        == 10.0 / 3.0
  {
  }

  class Controller {
    /** The held state of each key, indexed by `Input.Index`. */
    const inputState: array<bool>
    /** Whether a renderer connection is open. */
    var connected: bool
    /** The simulated car; set up when the connection opens. */
    var car: Car?

    /** The latch has one entry per key, and a connected controller has a car whose
        stats are computed and whose divisors are non-zero. */
    ghost predicate Valid()
      reads this, car
    {
      && inputState.Length == InputCount
      && (connected ==> car != null && car.Ready())
    }

    /** A new controller: disconnected, no car, no key held. */
    constructor ()
      ensures Valid() && fresh(inputState)
      ensures !connected && car == null
      ensures inputState[..] == seq(InputCount, i => false)
    {
      inputState := new bool[InputCount](i => false);
      connected := false;
      car := null;
    }

    /** Records that a key was pressed or released. Ignored while disconnected;
        otherwise only that key's entry changes. */
    method UpdateInput(input: Input, state: bool)
      requires Valid()
      modifies inputState
      ensures !connected ==> inputState[..] == old(inputState[..])
      ensures connected ==> inputState[..] == old(inputState[..])[input.Index() := state]
    {
      if !connected {
        return;
      }

      if inputState[input.Index()] != state {
        inputState[input.Index()] := state;
      }
    }

    /** The per-tick overload of UpdateInput: writes the mapped pedals into the car and
        steers it with the mapped command. */
    method ApplyInput(dt: real)
      requires Valid() && connected
      modifies car`ebrake, car`throttle, car`brake, car`steer, car`steerAngle
      ensures var cmd := MapInputs(inputState[..]);
        && car.PedalState() == Pedals(cmd.throttle, cmd.brake, cmd.ebrake)
        && car.steer == SteerStep(old(car.steer), cmd.steer, dt, car.speed)
        && car.steerAngle == WheelAngle(car.steer, car.config.maxSteer)
    {
      car.ebrake := if inputState[EBrake.Index()] then 1.0 else 0.0;

      car.throttle := if inputState[Forward.Index()] then 1.0 else 0.0;
      car.brake := if inputState[Forward.Index()] then 0.0 else 1.0;

      if inputState[TurnLeft.Index()] {
        car.Steer(1.0, dt);
      } else if inputState[TurnRight.Index()] {
        car.Steer(-1.0, dt);
      } else {
        car.Steer(0.0, dt);
      }
    }

    /** One tick: nothing happens while disconnected; otherwise the held keys are applied
        to the car, steering included, and then the car is stepped with the new pedals and
        the new steering angle from its kinematic state at the start of the tick. */
    method Update(dt: real, m: Numerics)
      requires Valid()
      modifies car
      ensures Valid()
      ensures !connected ==> car == null || unchanged(car)
      ensures connected ==> car.config == old(car.config) && car.CachedStats() == old(car.CachedStats())
      ensures connected ==>
        var cmd := MapInputs(inputState[..]);
        && car.PedalState() == Pedals(cmd.throttle, cmd.brake, cmd.ebrake)
        && car.steer == SteerStep(old(car.steer), cmd.steer, dt, old(car.speed))
        && car.steerAngle == WheelAngle(car.steer, car.config.maxSteer)
        && car.State() == Step(car.config, car.CachedStats(), car.PedalState(), car.steerAngle, old(car.State()), dt, m)
    {
      if !connected {
        return;
      }

      ghost var st := car.State();
      ApplyInput(dt);
      assert car.State() == st && car.Ready();
      car.Update(dt, m);
    }
  }
}
