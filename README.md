# Balloon pawn: a Dafny model

This project models the control core of a player-steered hot-air balloon
pawn. It covers:

- the gas-volume state machine: heat, cold, throttle drain, clamping, the
  AirDrained notification and the volume-derived actor scale;
- the throttle, the one-shot launch impulse and the cooldown between
  impulses;
- the arithmetic of the steering step;
- the helper that clamps each axis of a rotator into a sanitised range.

Files:

- `FMath.dfy` holds the engine helpers the core calls. These are `Clamp`,
  `Sign` and `IsNearlyEqual`, each with the semantics the engine documents.
- `MoreMath.dfy` holds `UMoreMath::ClampEachAxis`. The engine's
  `FMath::ClampAngle` is a function parameter there.
- `BalloonPawn.dfy` holds the pure rules of the pawn and the class
  `Balloon`. The rules are the volume update, drain, scale, steering target,
  quadratic ease and cooldown step. The class has the pawn's mutable fields
  and one method per source operation.

Every call the pawn makes into the engine is appended, in order, to the
object's `effects` log. The calls are buoyancy force, angular-velocity reset
plus roll rotation, thrust force, launch impulse, AirDrained broadcast, actor
scale and world-rotation reset. The log is how the contracts state what is
applied, how often, and in which order.

The object invariant `Balloon.Valid()` says the following:

- the configuration has `0 <= MinVolume < MaxVolume`;
- the volume lies in `[MinVolume, MaxVolume]`;
- a completed cooldown has a zero timer;
- the actor scale last requested equals `InitialScale * (volume / nominal)`.

Every method keeps this invariant.

Quantities are `real`. Several inputs are parameters of the methods rather
than computed. These are:

- the tick length;
- the acos angle between straight down and the input direction, in
  `[0, 180]`;
- the mesh's current roll;
- the engine's `FRotator::NormalizeAxis`;
- the tolerance of `IsNearlyEqual`, which is the field `nearlyEqualTolerance`
  of `Config`. The code calls the two-argument `FMath::IsNearlyEqual`
  (BalloonPawn.cpp lines 140, 181 and 288), so this field stands for the
  engine's default tolerance.

Three points follow the code as written:

- AirDrained is level-triggered, not edge-triggered. It is broadcast on every `ApplyHeat` call,
  and on every throttling `UpdateThrottle` call, that leaves the volume
  nearly equal to `MinVolume`. This includes `ApplyHeat(0)` at the floor.
- The steering target angle is a local of `UpdateTargetRotation`. It is not
  a field kept across ticks.
- The launch impulse clears `bIsCoolDownCompleted` but does not reset
  `CoolDownTimer`. The invariant shows the timer is already zero at that
  point.

## Model

| member | source | states |
|---|---|---|
| FMath.Clamp | Source/Balloon/Private/BalloonPawn.cpp:172-177 | With `lo <= hi`: the result lies in `[lo, hi]`, equals `x` inside the range, `lo` below it and `hi` above it. With a reversed range: `lo` below `lo`, otherwise `hi`. |
| FMath.Sign | Source/Balloon/Private/BalloonPawn.cpp:256 | `Sign(x) * x == abs(x)`, the result lies in `[-1, 1]`, and it is 0 exactly when `x` is 0. |
| MoreMath.SanitizedRange | Source/Balloon/Private/MoreMath.cpp:8-9 | The effective lower bound lies in `[-360, 360]` and equals `MinAngle` when `MinAngle` is already there. The effective upper bound lies in `[lower, 360]`: it equals `MaxAngle` when that is in range, collapses to the lower bound below it, and is 360 above 360. |
| MoreMath.SanitizedRangeIdempotent | Source/Balloon/Private/MoreMath.cpp:8-9 | Sanitising an already sanitised range returns it unchanged. |
| MoreMath.CollapsedRange | Source/Balloon/Private/MoreMath.cpp:9 | The arguments (10, 5) give the bounds [10, 10]. |
| MoreMath.ClampEachAxis | Source/Balloon/Private/MoreMath.cpp:6-13 | Each output axis (pitch, yaw, roll) is `ClampAngle` of the same input axis, and all three use the same sanitised bounds. |
| MoreMath.AxisIndependence | Source/Balloon/Private/MoreMath.cpp:11 | Two rotators that agree on one axis give results that agree on that axis, whatever their other axes hold. |
| MoreMath.ClampEachAxisSeesSanitizedRange | Source/Balloon/Private/MoreMath.cpp:8-11 | Passing already sanitised bounds gives the same rotator: the clamp sees only the sanitised range. |
| BalloonPawn.DefaultConfig | Source/Balloon/Private/BalloonPawn.cpp:10-21 | The constructor defaults form a valid configuration whose nominal volume is 100. |
| BalloonPawn.NominalVolume | Source/Balloon/Private/BalloonPawn.cpp:75 | For `Min < Max`, the nominal volume lies strictly inside `(Min, Max)` and sits at 4/5 of the range. |
| BalloonPawn.HeatedVolume | Source/Balloon/Private/BalloonPawn.cpp:169-178 | Zero heat leaves the volume unchanged. Any non-zero heat lands in `[Min, Max]`. A volume in range stays in range. |
| BalloonPawn.DrainedVolume | Source/Balloon/Private/BalloonPawn.cpp:286-287 | The drained volume always lies in `[Min, Max]`. |
| BalloonPawn.VolumeEffects | Source/Balloon/Private/BalloonPawn.cpp:180-190 | At the floor, exactly one AirDrained broadcast then the rescale; otherwise the rescale alone. The scale requested is `InitialScale * volume / nominal`. |
| BalloonPawn.ThrottleEffects | Source/Balloon/Private/BalloonPawn.cpp:272-298 | When not throttling: no engine call. When throttling: the last call is the one thrust force, no earlier call is a thrust force, and the scale tracks the new volume. |
| BalloonPawn.SteeringTarget | Source/Balloon/Private/BalloonPawn.cpp:237-243 | With `MaxAngle >= 0`, the target lies in `[-MaxAngle, MaxAngle]`. It is `min(angle, MaxAngle)`, negated when `InputValue.X < 0`. |
| BalloonPawn.CoolDownStep | Source/Balloon/Private/BalloonPawn.cpp:94-102 | The step keeps "complete implies zero timer" and changes nothing when complete. When incomplete, it completes exactly when `timer + dt > CoolDownTime`; otherwise the timer grows by `dt`. |
| BalloonPawn.ApplyHeatRule | Source/Balloon/Private/BalloonPawn.cpp:169-178 | From a volume in range: heat gives `min(Max, v + h*HeatExpansion)`, cold gives `max(Min, v + h*ColdContraction)`, zero heat gives `v`. |
| BalloonPawn.DrainRule | Source/Balloon/Private/BalloonPawn.cpp:286-287 | With a non-negative drain, the new volume is `max(Min, v - dt*AirDraining)`. |
| BalloonPawn.AirDrainedRepeatsAtFloor | Source/Balloon/Private/BalloonPawn.cpp:167-192 | At the floor, zero or negative heat and a further drain both keep the volume at `Min`. The call's effects are one AirDrained broadcast and then the rescale, so the broadcast repeats on every such call. |
| BalloonPawn.ScaleAtNominal | Source/Balloon/Private/BalloonPawn.cpp:163-164 | At the nominal volume the volume-derived scale is exactly the initial scale, i.e. ratio 1. |
| BalloonPawn.HeatToFloorExample | Source/Balloon/Private/BalloonPawn.cpp:169-190 | With range [20, 120], `ApplyHeat(-90)` from nominal 100 gives 20, one AirDrained broadcast, and scale `0.2 * InitialScale`. |
| BalloonPawn.DeadZoneByMagnitude | Source/Balloon/Private/BalloonPawn.cpp:225-228 | For `m = sqrt(x^2 + y^2)`, `m < InputDeadZone` holds exactly when the square-free dead-zone test holds. |
| BalloonPawn.DeadZoneRequestsNothing | Source/Balloon/Private/BalloonPawn.cpp:225-228 | Input inside the dead zone requests no rotation. |
| BalloonPawn.EaseFactorBounds | Source/Balloon/Private/BalloonPawn.cpp:256 | `needed^2 / 180^2` is non-negative, zero only for `needed == 0`, and at most 1 when `abs(needed) <= 180`. |
| BalloonPawn.AngleIncrementCases | Source/Balloon/Private/BalloonPawn.cpp:256-257 | The increment is `needed^2 / 180^2 * dt * speed`, negated exactly when `needed < 0`. |
| BalloonPawn.AngleIncrementShape | Source/Balloon/Private/BalloonPawn.cpp:255-258 | The increment's magnitude is `needed^2 / 180^2 * dt * speed`. For a positive `dt * speed` its sign is the sign of `needed`. It never exceeds `dt * speed` while `abs(needed) <= 180`. |
| BalloonPawn.SteeringStep | Source/Balloon/Private/BalloonPawn.cpp:237-264 | Outside the dead zone, exactly one roll increment is requested. It is computed from a target in `[-MaxAngle, MaxAngle]` that is non-positive for a left stick and non-negative otherwise. |
| BalloonPawn.SteeringTargetExamples | Source/Balloon/Private/BalloonPawn.cpp:232-243 | The acos angle 0 gives the target 0. The acos angle 90 gives 90 for a right stick and -90 for a left one, when `MaxAngle >= 90`. |
| BalloonPawn.CoolDownRunKeepsInvariant | Source/Balloon/Private/BalloonPawn.cpp:94-102 | Any run of ticks keeps "complete implies zero timer". |
| BalloonPawn.CoolDownTimerNonNegative | Source/Balloon/Private/BalloonPawn.cpp:94-102 | With non-negative ticks the timer never goes negative. |
| BalloonPawn.StillCoolingDown | Source/Balloon/Private/BalloonPawn.cpp:94-102 | While the accumulated time stays within `CoolDownTime`, the cooldown stays incomplete and the timer is the accumulated time. |
| BalloonPawn.CoolDownCompletes | Source/Balloon/Private/BalloonPawn.cpp:94-102 | Once the accumulated time exceeds `CoolDownTime`, the cooldown is complete and the timer is back at 0. |
| BalloonPawn.PressTwice | Source/Balloon/Private/BalloonPawn.cpp:138-152 | Press, release, whole `Tick` frames, press again. With the throttle released the frames drain no air. A second press while the frames add up to at most `CoolDownTime` fires no impulse (1 in total); once they exceed it, the second press fires one (2 in total). No impulse fires when the nominal volume counts as drained. |
| BalloonPawn.ImpulseCountWithout | Source/Balloon/Private/BalloonPawn.cpp:83-103 | Appending engine calls none of which is a launch impulse, as a frame's buoyancy and steering calls are, leaves the number of impulses in the log unchanged. |
| BalloonPawn.ColdToFloorThenPress | Source/Balloon/Private/BalloonPawn.cpp:138-190 | `ApplyHeat(-90)` with the defaults gives volume 20, no throttle, one broadcast and scale 0.2. A later press adds no engine call. |
| BalloonPawn.Balloon.constructor | Source/Balloon/Private/BalloonPawn.cpp:8-80 | Covers the constructor defaults and `BeginPlay`: volume nominal, input (0, 0), not throttling, cooldown complete with timer 0, empty effect log, `Valid()`. |
| BalloonPawn.Balloon.OnLeftStickX | Source/Balloon/Private/BalloonPawn.cpp:128-131 | Sets `InputValue.X` to the rate and changes nothing else. |
| BalloonPawn.Balloon.OnLeftStickY | Source/Balloon/Private/BalloonPawn.cpp:133-136 | Sets `InputValue.Y` to the rate and changes nothing else. |
| BalloonPawn.Balloon.ApplyInitImpulse | Source/Balloon/Private/BalloonPawn.cpp:303-316 | Appends exactly one launch impulse of magnitude `InitImpulse`. |
| BalloonPawn.Balloon.OnThrottleStart | Source/Balloon/Private/BalloonPawn.cpp:138-152 | At the floor, nothing changes. Otherwise throttling is on, the cooldown is incomplete, and the impulse is appended exactly when the cooldown was complete. |
| BalloonPawn.Balloon.OnThrottleStop | Source/Balloon/Private/BalloonPawn.cpp:154-157 | Clears the throttle flag and nothing else. |
| BalloonPawn.Balloon.ResetRotationAndScale | Source/Balloon/Private/BalloonPawn.cpp:159-165 | The volume is nominal. The effects are the rotation reset then the scale `InitialScale`. `Valid()` is kept. |
| BalloonPawn.Balloon.ApplyHeat | Source/Balloon/Private/BalloonPawn.cpp:167-192 | The new volume is `HeatedVolume` of the old, and the throttle is cleared at the floor. The effects are `VolumeEffects` of the new volume, so the scale tracks the volume. `Valid()` is kept. |
| BalloonPawn.Balloon.UpdateVolumeEffects | Source/Balloon/Private/BalloonPawn.cpp:180-190 | Covers the shared floor check and rescale: the throttle is cleared at the floor and the effects are `VolumeEffects`. |
| BalloonPawn.Balloon.UpdateTargetRotation | Source/Balloon/Private/BalloonPawn.cpp:220-266 | Appends exactly `SteeringEffects` of the current input: nothing inside the dead zone, otherwise one roll increment. |
| BalloonPawn.Balloon.UpdateThrottle | Source/Balloon/Private/BalloonPawn.cpp:270-301 | When not throttling, nothing changes. Otherwise the volume is drained and clamped and the throttle is cleared at the floor. The effects are `ThrottleEffects`, which include exactly one thrust force, also on the tick that empties the balloon. |
| BalloonPawn.Balloon.AdvanceCoolDown | Source/Balloon/Private/BalloonPawn.cpp:94-102 | The new cooldown is `CoolDownStep` of the old one. |
| BalloonPawn.Balloon.Tick | Source/Balloon/Private/BalloonPawn.cpp:83-103 | Covers one frame: the buoyancy force, then the steering effects, then the throttle effects, with the volume, throttle and cooldown updated as those steps say. `Valid()` is kept. |

## Left out

- Component wiring in the constructor is not modelled. This covers the mesh, capsule, spring arm, camera and arrow. Input binding is left out too. Both are engine asset plumbing.
- Physics engine calls are recorded as `Effect` values. What the calls do to the body is not modelled. The direction of the thrust force and the launch impulse comes from the engine's rotation of the down vector; it is not modelled, only the multiplier along it.
- `FMath::Acos`, `RadiansToDegrees`, `FRotator::NormalizeAxis`, `FRotator::RotateVector` and vector normalisation are not modelled. Their results are inputs, or the parameter `normalizeAxis`.
- `MoreMath.ClampEachAxis`: does not state that each axis ends up inside the bounds. The engine's `FMath::ClampAngle` wraps angles around and is a parameter here with no assumed semantics.
- The post-tick roll clamp in `Tick` is not modelled. It reads and normalises the engine's rotation and writes it back through `ClampEachAxis`.
- `CurrentRotation` is not modelled. It is only read back from the engine.
- Debug messages and the commented-out 3D steering algorithm are not modelled.
- The unused fields `bHasAvailableAir`, `Buoyancy` and `TargetRotation` are not modelled.
- The broadcast's subscribers are not modelled. Each broadcast is one `BroadcastAirDrained` entry in the log.
- IEEE single-precision rounding is not modelled. All quantities are `real`.
- The state between construction and `BeginPlay` is not modelled: `BalloonVolume` is not initialised until `BeginPlay`, so the constructor covers both.
- The configuration is fixed once play begins. Editing its properties at run time is not modelled.
- `BalloonPawn.ApplyHeatRule`: assumes non-negative multipliers. With a negative multiplier the floor or ceiling clamp no longer reduces to a single `min` or `max`.
- `BalloonPawn.AngleIncrementShape`: assumes `DeltaSeconds * RotationSpeedMultiplier >= 0`.
- `BalloonPawn.PressTwice`: assumes `CoolDownTime >= 0`. The throttle is released between the two presses; the scenario where it is held, and the drain can refuse the second press at the floor, is covered by the contracts of `OnThrottleStart` and `UpdateThrottle` rather than by a scenario.
