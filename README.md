# TeslaTest vehicle core in Dafny

This project models the simulation core of TeslaTest, a small C# program. TeslaTest drives a
car model in a remote 3D viewer from the keyboard. The core is modelled in three parts:

- **`Car`** (TeslaTest/Car.cs) is a planar single-track ("bicycle") vehicle. Its state is
  changed in place once per tick:
  - `RecalcStats` caches the moment of inertia, the wheelbase and the static axle weight
    ratios.
  - `Steer` smooths the steering command and applies a speed-dependent authority limiter.
  - `Update` advances the car by one semi-implicit (symplectic) Euler step. The step covers axle loads with
    weight transfer, slip angles, grip with the handbrake, saturated lateral friction, the
    capped brake, traction, drag, the low-speed stop clamp, and the yaw, heading and position
    updates.
- **`Clamp`** (TeslaTest/Util.cs) is the total-order clamp that the car relies on.
- **The input latch of `Controller`** (TeslaTest/Controller.cs) is an array of held keys. It
  is ignored while the controller is disconnected. Each tick it is mapped onto the car's
  pedals and a steering command, and then the car is stepped.

Files:

- `util.dfy` is module `Util`: `Clamp` and its lemmas.
- `car.dfy` is module `Vehicle`:
  - the force and integration formulas of `Car.Update` as pure functions (`CarForces`,
    `Accelerate`, `Settle`, `Step`) with lemmas about them;
  - the steering functions (`SmoothSteer`, `Authority`, `SteerStep`);
  - class `Car`, whose methods change its fields in place and are proved against those
    functions.
- `controller.dfy` is module `Controls`:
  - the key enumeration;
  - the mapping from held keys to car inputs (`MapInputs`) and its lemmas;
  - class `Controller`, with the latch as a `bool` array.

Modelling choices:

- **Numbers.** Every `float`/`double` of the source is a `real`.
- **Library functions.** `Math.Sin`, `Math.Cos`, `Math.Atan2` and `Vector3D.Length` are the
  fields of a `MathLib` value passed to the step. The only facts assumed of them are that a
  length is never negative, the zero vector has length 0, and `Atan2(0, 0) == 0`.
- **Vectors.** The Z component of the source's `Vector3D` is always zero and is dropped.
- **Divisions.** The divisions by wheelbase, mass and inertia are preconditions (non-zero
  divisor). A connected controller's car always meets them (`Controller.Valid`).
- **Connection.** The controller's connection is the boolean `connected`, which stands for
  `sender != null`.

Two behaviours of the code are worth pointing out:

- **Steering write-back.** Car.cs:179 writes the speed-limited value back into `steer`, so
  the factor compounds from tick to tick. The model does the same.
  `SteerNeverFullWhileMoving` proves the consequence: at any positive speed the stored value
  stays strictly inside (-1, 1), however long a command is held.
- **Configuration.** The code does not check that configuration values are positive. The
  model assumes it only where a lemma states so.

## Model

| member | source | states |
|---|---|---|
| Util.Clamp | TeslaTest/Util.cs:23-28 | The result is `min`, `max` or `val`. When `min <= max` it lies in `[min, max]`. |
| Util.ClampBelowMin | TeslaTest/Util.cs:25 | A value below `min` gives `min`, even when `min > max`, because the lower bound is tested first. |
| Util.ClampAboveMax | TeslaTest/Util.cs:26 | A value not below `min` and above `max` gives `max`. |
| Util.ClampKeepsInside | TeslaTest/Util.cs:27 | For `min <= max`, the result equals `val` exactly when `val` is in `[min, max]` (both directions). |
| Util.ClampIdempotent | TeslaTest/Util.cs:23-28 | For `min <= max`, clamping twice equals clamping once. |
| Vehicle.ComputeStats | TeslaTest/Car.cs:73-79 | The two axle ratios sum to 1. `inertia == mass*inertiaScale` and `wheelBase == cgToFrontAxle + cgToRearAxle`. With positive axle distances each ratio lies strictly in (0, 1), and equal distances give 0.5 each. |
| Vehicle.Car.RecalcStats | TeslaTest/Car.cs:73-79 | The cached fields become `ComputeStats(config)`: the ratios sum to 1, plus the inertia and wheelbase formulas. With non-zero mass and inertia scale the car is `Ready` to step. |
| Vehicle.Car.constructor | TeslaTest/Car.cs:68-71 | A new car has zero stats, inputs, steering and kinematic state. |
| Vehicle.RotationRoundTrip | TeslaTest/Car.cs:86 | Whenever sin² + cos² = 1, the world-to-car rotation of line 86 and the car-to-world rotation of line 127 are inverse to each other. |
| Vehicle.AxleTransferConservesLoad | TeslaTest/Car.cs:89-90 | Weight transfer moves load between the axles and creates none: front + rear = mass·(ratioFront + ratioRear)·GRAVITY for any previous-tick `a.X`. |
| Vehicle.AxleLoadsSumToWeight | TeslaTest/Car.cs:89-90 | With the ratios of `RecalcStats`, the axle loads sum to `mass*GRAVITY` for any previous-tick `a.X`. |
| Vehicle.AxleLoadShift | TeslaTest/Car.cs:89-90 | With positive mass, transfer, CG height and wheelbase: forward acceleration moves load from the front axle to the rear, braking does the opposite, and zero acceleration leaves the static loads. |
| Vehicle.RearGripEndpoints | TeslaTest/Car.cs:102 | With the handbrake off the rear grip is `tireGrip`; fully on, it is `tireGrip*lockGrip`. |
| Vehicle.RearGripBetween | TeslaTest/Car.cs:102 | For a handbrake and lock grip in [0, 1], the rear grip lies between `tireGrip*lockGrip` and `tireGrip`. |
| Vehicle.RearGripReduced | TeslaTest/Car.cs:102 | With `tireGrip > 0`, `0 < ebrake <= 1` and `lockGrip < 1`, the rear grip is strictly below `tireGrip`. |
| Vehicle.FrictionSaturation | TeslaTest/Car.cs:104-105 | With a non-negative grip, the lateral force of an axle is at most grip·|load|. |
| Vehicle.LateralFrictionLinear | TeslaTest/Car.cs:104-105 | Below saturation the force is the linear cornering-stiffness force, `-stiffness·slip·load`. |
| Vehicle.LateralFrictionSaturated | TeslaTest/Car.cs:104-105 | Beyond saturation the force is ±grip·load, opposing the slip. |
| Vehicle.AxleFrictionBounded | TeslaTest/Car.cs:101-105 | Given grips in range (`GripInRange`: `tireGrip >= 0`, and `lockGrip` and the handbrake in [0, 1]), in the step's force computation the front force is at most `tireGrip`·|front load| and the rear force at most the handbrake-reduced rear grip·|rear load|. |
| Vehicle.BrakeForce | TeslaTest/Car.cs:108 | The effective brake is never above `brakeForce` nor above pedal plus handbrake, and it equals one of the two. |
| Vehicle.Traction | TeslaTest/Car.cs:113 | At `v.X == 0` traction is exactly the engine force (the sign term is 0). Moving forwards the brake subtracts; reversing it adds. |
| Vehicle.DragOpposesMotion | TeslaTest/Car.cs:116-117 | There is no drag at zero velocity. With non-negative coefficients, drag never points along the motion. |
| Vehicle.SlipAnglesByDirection | TeslaTest/Car.cs:98-99 | The steer angle enters the front slip angle with the sign of `v.X`: subtracted forwards, added in reverse, ignored at `v.X == 0`. The rear slip angle never depends on it. |
| Vehicle.LaunchAcceleration | TeslaTest/Car.cs:107-124 | From a standstill the new longitudinal acceleration is exactly `throttle*engineForce/mass`: no drag, and no brake direction. |
| Vehicle.StopClamp | TeslaTest/Car.cs:137-152 | When the integrated speed is below 0.5 and there is no engine force: `v_w == 0`, speed 0, yaw rate 0, and heading and position unchanged. |
| Vehicle.NoStopIntegrates | TeslaTest/Car.cs:129-147 | Otherwise `v_w` is integrated, speed is its length, and the yaw rate grows by `torque/inertia·dt`. |
| Vehicle.SpeedIsLength | TeslaTest/Car.cs:132-143 | After every tick the stored speed is the length of the new `v_w`, so it is never negative. |
| Vehicle.SemiImplicitEuler | TeslaTest/Car.cs:145-152 | Heading and position advance with the yaw rate and velocity of the end of the tick. `a`, `a_w` and `v` are those of this tick. |
| Vehicle.RestForces | TeslaTest/Car.cs:89-121 | At rest with no engine force and grips in range, no tyre force and no total force act. |
| Vehicle.RestAccelerate | TeslaTest/Car.cs:83-135 | At rest with no engine force and grips in range (`GripInRange`), the first part of the tick finds no velocity, acceleration or torque. |
| Vehicle.RestSettle | TeslaTest/Car.cs:129-152 | With no world acceleration and no engine force, a car without velocity is held where it stands by the stop clamp, whatever the torque. |
| Vehicle.RestIsFixedPoint | TeslaTest/Car.cs:81-154 | A car at rest (no velocity, no yaw rate) with zero engine force keeps its position and heading, and has zero velocity, yaw rate and speed after a step. This holds for any brake pedal and steer angle, provided the grips are in range (`GripInRange`: `tireGrip >= 0`, and `lockGrip` and the handbrake in [0, 1]). |
| Vehicle.RestIsSteady | TeslaTest/Car.cs:81-154 | Under the same conditions (zero engine force, `GripInRange`), the car keeps its position and heading, with zero velocity and yaw rate, for any number of ticks and any sequence of steer angles (by induction). |
| Vehicle.Car.Update | TeslaTest/Car.cs:81-154 | The kinematic state becomes `Step` of the old configuration, stats, inputs, steer angle and state. Configuration, stats, inputs and steering are unchanged. |
| Vehicle.Car.Integrate | TeslaTest/Car.cs:129-152 | The integration tail of `Update`, run in place: the new state is `Settle` of the old one. |
| Vehicle.SmoothSteerWithCommand | TeslaTest/Car.cs:159-163 | With a non-zero input the smoothed value is `Clamp(steer + input*dt*2, -1, 1)`, hence in [-1, 1]. |
| Vehicle.SmoothSteerRecentres | TeslaTest/Car.cs:164-175 | With no input and `dt >= 0`, the value moves toward 0 by at most `dt` and never flips sign. A value within `dt` of 0 becomes 0. |
| Vehicle.SmoothSteerFollowsCommand | TeslaTest/Car.cs:159-163 | For a steer value in [-1, 1] and `dt >= 0`, a positive command never decreases the value, and a negative one never increases it. |
| Vehicle.SmoothSteerBounded | TeslaTest/Car.cs:158-175 | A steer value in [-1, 1] stays in [-1, 1] through the smoothing, with or without a command. |
| Vehicle.AuthorityRange | TeslaTest/Car.cs:178-179 | For speed >= 0 the authority factor `1 - min(speed,250)/280` lies in [30/280, 1]. It is 1 at standstill, below 1 at any positive speed, and 30/280 from 250 m/s on. |
| Vehicle.SteerStaysBounded | TeslaTest/Car.cs:156-179 | Given `dt >= 0` and speed >= 0, the stored steer value stays in [-1, 1]. |
| Vehicle.SteerNeverFullWhileMoving | TeslaTest/Car.cs:178-179 | Because the limited value is written back, starting from a steer value in [-1, 1] with `dt >= 0` and any positive speed, the stored steer value stays strictly inside (-1, 1). |
| Vehicle.SteerAngleBounded | TeslaTest/Car.cs:181 | A steer value in [-1, 1] gives a wheel angle of magnitude at most |maxSteer|. |
| Vehicle.Car.Steer | TeslaTest/Car.cs:156-182 | `steer` becomes the smoothed, speed-limited value `SteerStep` of the old one (stored back), and `steerAngle` becomes `steer*maxSteer`. Nothing else changes. |
| Vehicle.ToLocal | TeslaTest/Car.cs:86 | No contract of its own; the facts about it are in `RotationRoundTrip`. |
| Vehicle.ToWorld | TeslaTest/Car.cs:127 | No contract of its own; the facts about it are in `RotationRoundTrip`. |
| Vehicle.AxleWeights | TeslaTest/Car.cs:89-90 | No contract of its own; the facts about it are in `AxleTransferConservesLoad`, `AxleLoadsSumToWeight` and `AxleLoadShift`. |
| Vehicle.SlipAngles | TeslaTest/Car.cs:94-99 | No contract of its own; the facts about it are in `SlipAnglesByDirection`. |
| Vehicle.Sign | TeslaTest/Car.cs:98 | No contract of its own; the facts about it are in `Traction` and `SlipAnglesByDirection` (it is `Math.Sign`, with `Sign(0) == 0`). |
| Vehicle.RearGrip | TeslaTest/Car.cs:102 | No contract of its own; the facts about it are in `RearGripEndpoints`, `RearGripBetween` and `RearGripReduced`. |
| Vehicle.LateralFriction | TeslaTest/Car.cs:104-105 | No contract of its own; the facts about it are in `FrictionSaturation`, `LateralFrictionLinear` and `LateralFrictionSaturated`. |
| Vehicle.DriveForce | TeslaTest/Car.cs:109 | No contract of its own; the facts about it are in `LaunchAcceleration`, `RestIsFixedPoint` (zero drive force) and `IdleTickKeepsRest`. |
| Vehicle.Drag | TeslaTest/Car.cs:116-117 | No contract of its own; the facts about it are in `DragOpposesMotion`. |
| Vehicle.TotalForce | TeslaTest/Car.cs:120-121 | No contract of its own; the facts about it are in `RestForces` and `LaunchAcceleration`. |
| Vehicle.YawTorque | TeslaTest/Car.cs:135 | No contract of its own; the facts about it are in `RestAccelerate`. |
| Vehicle.Stops | TeslaTest/Car.cs:138 | No contract of its own; the facts about it are in `StopClamp` and `NoStopIntegrates`. |
| Vehicle.CarForces | TeslaTest/Car.cs:89-121 | No contract of its own; the facts about it are in `AxleFrictionBounded` and `RestForces`. |
| Vehicle.Accelerate | TeslaTest/Car.cs:83-127 | No contract of its own; the facts about it are in `RestAccelerate` and `LaunchAcceleration`. |
| Vehicle.Settle | TeslaTest/Car.cs:129-152 | No contract of its own; the facts about it are in `StopClamp`, `NoStopIntegrates`, `SpeedIsLength`, `SemiImplicitEuler` and `RestSettle`. |
| Vehicle.Step | TeslaTest/Car.cs:81-154 | No contract of its own; the facts about it are in `LaunchAcceleration`, `RestIsFixedPoint` and `RestIsSteady`; `Vehicle.Car.Update` is proved to compute it. |
| Vehicle.SmoothSteer | TeslaTest/Car.cs:158-175 | No contract of its own; the facts about it are in `SmoothSteerWithCommand`, `SmoothSteerRecentres`, `SmoothSteerFollowsCommand` and `SmoothSteerBounded`. |
| Vehicle.Authority | TeslaTest/Car.cs:178-179 | No contract of its own; the facts about it are in `AuthorityRange`. |
| Vehicle.SteerStep | TeslaTest/Car.cs:156-179 | No contract of its own; the facts about it are in `SteerStaysBounded` and `SteerNeverFullWhileMoving`; `Vehicle.Car.Steer` is proved to compute it. |
| Vehicle.WheelAngle | TeslaTest/Car.cs:181 | No contract of its own; the facts about it are in `SteerAngleBounded`. |
| Controls.Input.Index | TeslaTest/Controller.cs:11 | Every key has a position below the number of keys, its ordinal in the enum. |
| Controls.IndexInjective | TeslaTest/Controller.cs:11 | Distinct keys have distinct latch positions. |
| Controls.MapInputsPedals | TeslaTest/Controller.cs:116-119 | `ebrake` is 1 exactly when EBrake is held and 0 otherwise. Forward gives throttle 1 and brake 0; without Forward it is throttle 0 and brake 1 (both directions). |
| Controls.MapInputsSteer | TeslaTest/Controller.cs:121-126 | The steer command is +1 exactly when TurnLeft is held (even together with TurnRight), -1 exactly when only TurnRight is held, and 0 exactly when neither is. |
| Controls.BackwardIgnored | TeslaTest/Controller.cs:114-128 | Flipping the Backward entry never changes the mapped inputs. |
| Controls.MapInputsGripInRange | TeslaTest/Controller.cs:116 | The mapped handbrake is always in [0, 1], so the car's friction bounds apply. |
| Controls.IdleTickKeepsRest | TeslaTest/Controller.cs:114-128 | Without Forward held, and with configured grips in range (`tireGrip >= 0`, `lockGrip` in [0, 1]), a car at rest stays where it is through a tick, whatever else is held. |
| Controls.DefaultConfigStats | TeslaTest/Controller.cs:45-64 | With the configuration `Connect` sets up, the stats are inertia 2400, wheelbase 2.5 and ratios 0.5/0.5, with non-zero mass and grips in range. |
| Controls.DefaultLaunch | TeslaTest/Controller.cs:45-64 | With that car at rest and Forward held, the first tick's longitudinal acceleration is 4000/1200 = 10/3 m/s². |
| Controls.SteerCommand | TeslaTest/Controller.cs:121-126 | No contract of its own; the facts about it are in `MapInputsSteer`. |
| Controls.MapInputs | TeslaTest/Controller.cs:114-126 | No contract of its own; the facts about it are in `MapInputsPedals`, `MapInputsSteer`, `BackwardIgnored` and `MapInputsGripInRange`; `Controls.Controller.ApplyInput` is proved to apply it. |
| Controls.DefaultConfig | TeslaTest/Controller.cs:45-64 | No contract of its own; the facts about it are in `DefaultConfigStats` and `DefaultLaunch`. |
| Controls.Controller.constructor | TeslaTest/Controller.cs:15-19 | A new controller is disconnected, has no car, and every key is released. |
| Controls.Controller.UpdateInput | TeslaTest/Controller.cs:103-112 | While disconnected the latch is unchanged. Otherwise exactly the given key's entry becomes `state` and every other entry is unchanged. |
| Controls.Controller.ApplyInput | TeslaTest/Controller.cs:114-128 | The car's pedals become the mapped ones. `steer` becomes `SteerStep` with the mapped command, and `steerAngle` becomes `steer*maxSteer`. |
| Controls.Controller.Update | TeslaTest/Controller.cs:168-177 | While disconnected the car is untouched. Otherwise the pedals and steering are mapped first, and the kinematic state becomes `Step` from the state at the start of the tick, using the new pedals and steer angle. The car's configuration and cached stats survive the tick, and the controller stays `Valid`. |

## Left out

- IEEE `float`/`double` rounding: every quantity is a real. For example, the constants
  `0.8f` and `0.55f` are exact reals here, and the `(float)` casts at Car.cs:132 and 147 are
  identities.
- The meaning of `Math.Sin`, `Math.Cos`, `Math.Atan2` and `Vector3D.Length`: they are
  parameters, and only the facts listed above are assumed. Trajectory behaviour that depends
  on them (speed monotonicity, terminal velocity, numeric outcomes after several ticks) is
  not stated.
- Division by zero in `Update` and `RecalcStats`: with a zero wheelbase, mass or inertia the
  source computes infinities or NaN. The model requires non-zero divisors instead.
- Util.Clamp: the source is generic over any `IComparable<T>`; the model clamps reals only,
  the one type the car uses.
- `Util.GetPathUri` (Util.cs:9-21): it uses the filesystem and reflection.
- `Car.transform` (Car.cs:57-66): it builds a `Matrix3D` through `Quaternion`, a library
  that is not part of this model.
- Vehicle.Car.constructor: the source constructor sets only `v_w`, and the configuration is
  assigned property by property afterwards. The model passes the configuration to the
  constructor instead, and keeps it in one `Config` value.
- Vehicle.Car.Update: the computation is split into the pure force model (`Accelerate`)
  and an in-place integration tail (`Integrate`). The new `v`, `a` and `a_w` are stored
  together with the integrated fields rather than before them. The later reads in the tick
  (Car.cs:127 reads `a`, Car.cs:130 reads `a_w`) see the same values, which the model takes
  from locals.
- Vehicle.Car.Steer: the smoothing works on a local copy of `steer` that is stored once at
  the end. The source writes the field at each stage, with the same final value.
- Controls.Controller.ApplyInput: this is the source's private overload `UpdateInput(float)`,
  renamed because Dafny has no overloading.
- Controls.Controller.Valid: it assumes that a connected controller holds a car on which
  `RecalcStats` has run with non-zero mass and inertia, which is what a successful `Connect`
  produces.
- `Controller.Connect`, `Controller.Disconnect` and `Controller.UpdateRED`
  (Controller.cs:33-101, 130-166): network commands, exception handling and the formatting of
  the wheel rotation. The car configuration set up in `Connect` appears only as the constant
  `DefaultConfig`. `Update` does not model the call to `UpdateRED`.
- The `OnLog`/`OnDisconnect` events, logging and the socket port (Controller.cs:12-17).
- TeslaTest/SocketClient.cs (TCP sockets, DNS, HTTP request building) and
  TeslaTest/MainWindow.xaml.cs (the WPF window, the timer loop, key colouring, the log file):
  they are I/O and user interface, and are not part of this model.
