/** ABalloonPawn: the balloon's volume, throttle and cooldown state machine
    and the arithmetic of its steering step. The rigid body, the mesh and
    the notification subscribers are outside the model; every call the pawn
    makes into them is recorded, in order, as an `Effect`. */
module BalloonPawn {
  import opened FMath

  datatype Option<T> = None | Some(value: T)

  datatype Vector = Vector(x: real, y: real, z: real)

  function Scaled(v: Vector, k: real): Vector
  {
    Vector(v.x * k, v.y * k, v.z * k)
  }

  /** The pawn's editable properties, fixed once play begins. The code calls
      the two-argument FMath::IsNearlyEqual; `nearlyEqualTolerance` stands
      for the engine's default tolerance, which is a parameter of the model. */
  datatype Config = Config(
    maxAngle: real,
    minVolume: real,
    maxVolume: real,
    inputDeadZone: real,
    heatExpansionMultiplier: real,
    coldContractionMultiplier: real,
    airDrainingMultiplier: real,
    rotationSpeedMultiplier: real,
    throttleForceMultiplier: real,
    initImpulse: real,
    coolDownTime: real,
    defaultBuoyancy: Vector,
    nearlyEqualTolerance: real)

  /** The defaults the constructor gives the editable properties. */
  function DefaultConfig(tolerance: real): (c: Config)
    ensures ValidConfig(c) && NominalVolume(c) == 100.0
  {
    Config(180.0, 20.0, 120.0, 0.1, 1.0, 1.0, 1.0, 1.0, 1.0, 0.0, 2.0,
           Vector(0.0, 0.0, 1.0), tolerance)
  }

  /** The volume range must be non-empty and non-negative. */
  predicate ValidConfig(c: Config)
  {
    0.0 <= c.minVolume < c.maxVolume
  }

  /** The volume at 80% of the range: the starting and reset volume and the
      denominator of the scale ratio. */
  function NominalVolume(c: Config): (v: real)
    ensures c.minVolume < c.maxVolume ==> c.minVolume < v < c.maxVolume
    ensures c.minVolume < c.maxVolume ==>
      (v - c.minVolume) * 5.0 == (c.maxVolume - c.minVolume) * 4.0
  {
    (c.maxVolume - c.minVolume) * 0.8 + c.minVolume
  }

  /** "Air drained": the volume is nearly equal to the lower bound. */
  predicate AirDrained(c: Config, volume: real)
  {
    IsNearlyEqual(volume, c.minVolume, c.nearlyEqualTolerance)
  }

  // ----- volume -----

  /** The volume ApplyHeat leaves: heat expands, cold contracts, zero heat
      leaves the volume alone; a changed volume is clamped to the range. */
  function HeatedVolume(c: Config, v: real, heat: real): (r: real)
    ensures ValidConfig(c) && c.minVolume <= v <= c.maxVolume ==>
      c.minVolume <= r <= c.maxVolume
    ensures ValidConfig(c) && heat != 0.0 ==> c.minVolume <= r <= c.maxVolume
    ensures heat == 0.0 ==> r == v
  {
    if heat > 0.0 then
      Clamp(v + heat * c.heatExpansionMultiplier, c.minVolume, c.maxVolume)
    else if heat < 0.0 then
      Clamp(v + heat * c.coldContractionMultiplier, c.minVolume, c.maxVolume)
    else
      v
  }

  /** The volume a throttling UpdateThrottle leaves: the drain for this tick,
      clamped to the range. */
  function DrainedVolume(c: Config, v: real, deltaSeconds: real): (r: real)
    ensures ValidConfig(c) ==> c.minVolume <= r <= c.maxVolume
  {
    Clamp(v - deltaSeconds * c.airDrainingMultiplier, c.minVolume, c.maxVolume)
  }

  /** The actor scale for a volume: the initial scale times volume / nominal. */
  function ScaleFor(c: Config, initialScale: Vector, volume: real): Vector
    requires ValidConfig(c)
  {
    Scaled(initialScale, volume / NominalVolume(c))
  }

  // ----- engine calls -----

  /** One call from the pawn into the engine. Directions of forces and
      impulses come from the engine's rotation of the down vector; only the
      multiplier along that unit direction is recorded. */
  datatype Effect =
    | AddBuoyancyForce(force: Vector)
    | ZeroAngularVelocityAndRotateRoll(increment: real)
    | AddThrustForce(magnitude: real)
    | AddInitImpulse(magnitude: real)
    | BroadcastAirDrained
    | SetActorScale(scale: Vector)
    | ResetWorldRotation

  /** The scale most recently requested from the engine, if any. */
  function LastScale(effects: seq<Effect>): Option<Vector>
  {
    if |effects| == 0 then None
    else if effects[|effects| - 1].SetActorScale? then Some(effects[|effects| - 1].scale)
    else LastScale(effects[..|effects| - 1])
  }

  /** What the end of ApplyHeat and of a throttling UpdateThrottle does
      after the new volume is known: broadcast AirDrained if the volume is
      at the floor, then rescale the actor. */
  function VolumeEffects(c: Config, initialScale: Vector, volume: real): (e: seq<Effect>)
    requires ValidConfig(c)
    ensures LastScale(e) == Some(ScaleFor(c, initialScale, volume))
    ensures |e| == (if AirDrained(c, volume) then 2 else 1)
    ensures BroadcastAirDrained in e <==> AirDrained(c, volume)
  {
    (if AirDrained(c, volume) then [BroadcastAirDrained] else [])
      + [SetActorScale(ScaleFor(c, initialScale, volume))]
  }

  /** The engine calls of UpdateThrottle: none when not throttling;
      otherwise the volume effects and then exactly one thrust force. */
  function ThrottleEffects(c: Config, initialScale: Vector, wasThrottling: bool, volume: real): (e: seq<Effect>)
    requires ValidConfig(c)
    ensures !wasThrottling ==> e == []
    ensures wasThrottling ==>
      |e| > 0 && e[|e| - 1] == AddThrustForce(c.throttleForceMultiplier)
      && (forall i :: 0 <= i < |e| - 1 ==> !e[i].AddThrustForce?)
    ensures wasThrottling ==> LastScale(e) == Some(ScaleFor(c, initialScale, volume))
  {
    if wasThrottling then
      VolumeEffects(c, initialScale, volume) + [AddThrustForce(c.throttleForceMultiplier)]
    else []
  }

  lemma LastScaleAppendOther(s: seq<Effect>, e: Effect)
    requires !e.SetActorScale?
    ensures LastScale(s + [e]) == LastScale(s)
  {
    assert (s + [e])[..|s|] == s;
  }

  lemma {:induction false} LastScaleAppend(s: seq<Effect>, t: seq<Effect>)
    ensures LastScale(s + t) == if LastScale(t).Some? then LastScale(t) else LastScale(s)
  {
    if |t| == 0 {
      assert s + t == s;
    } else {
      var n := |t| - 1;
      assert (s + t)[|s + t| - 1] == t[n];
      if !t[n].SetActorScale? {
        assert (s + t)[..|s + t| - 1] == s + t[..n];
        LastScaleAppend(s, t[..n]);
      }
    }
  }

  /** Whether the scale last requested matches the volume. */
  predicate ScaleTracksVolume(c: Config, initialScale: Vector, volume: real, effects: seq<Effect>)
    requires ValidConfig(c)
  {
    LastScale(effects).Some? ==> LastScale(effects).value == ScaleFor(c, initialScale, volume)
  }

  // ----- steering -----

  /** sqrt(x^2 + y^2) < deadZone, stated without the square root. */
  predicate InDeadZone(x: real, y: real, deadZone: real)
  {
    deadZone > 0.0 && x * x + y * y < deadZone * deadZone
  }

  /** The signed, clamped target roll: the unsigned angle between straight
      down and the input direction (the engine's acos, in degrees), negated
      when the stick points left, clamped to [-maxAngle, maxAngle]. */
  function SteeringTarget(inputX: real, downAngle: real, maxAngle: real): (t: real)
    ensures maxAngle >= 0.0 ==> -maxAngle <= t <= maxAngle
    ensures 0.0 <= downAngle && 0.0 <= maxAngle ==>
      t == (if inputX < 0.0 then -Min(downAngle, maxAngle) else Min(downAngle, maxAngle))
  {
    var signed := if inputX < 0.0 then -downAngle else downAngle;
    Clamp(signed, -maxAngle, maxAngle)
  }

  /** The roll still needed: target minus current roll, both through the
      engine's FRotator::NormalizeAxis, which is the parameter `normalizeAxis`. */
  function NeededAngle(c: Config, inputX: real, downAngle: real, meshRoll: real,
                       normalizeAxis: real -> real): real
  {
    normalizeAxis(SteeringTarget(inputX, downAngle, c.maxAngle) - normalizeAxis(meshRoll))
  }

  /** The quadratic ease: sign(needed) * needed^2 / 180^2, times the tick
      length and the rotation speed multiplier. */
  function AngleIncrement(needed: real, deltaSeconds: real, speed: real): real
  {
    (Sign(needed) * (needed * needed) / (180.0 * 180.0)) * (deltaSeconds * speed)
  }

  /** The engine calls of one steering step: none inside the dead zone,
      otherwise one roll increment. */
  function SteeringEffects(c: Config, inputX: real, inputY: real, downAngle: real, meshRoll: real,
                           normalizeAxis: real -> real, deltaSeconds: real): seq<Effect>
  {
    if InDeadZone(inputX, inputY, c.inputDeadZone) then []
    else [ZeroAngularVelocityAndRotateRoll(
            AngleIncrement(NeededAngle(c, inputX, downAngle, meshRoll, normalizeAxis),
                           deltaSeconds, c.rotationSpeedMultiplier))]
  }

  // ----- cooldown -----

  datatype CoolDown = CoolDown(completed: bool, timer: real)

  /** The cooldown block at the end of Tick. */
  function CoolDownStep(cd: CoolDown, deltaTime: real, coolDownTime: real): (r: CoolDown)
    ensures (cd.completed ==> cd.timer == 0.0) ==> (r.completed ==> r.timer == 0.0)
    ensures cd.completed ==> r == cd
    ensures !cd.completed ==> (r.completed <==> cd.timer + deltaTime > coolDownTime)
    ensures !cd.completed && !r.completed ==> r.timer == cd.timer + deltaTime
  {
    if cd.completed then cd
    else if cd.timer + deltaTime > coolDownTime then CoolDown(true, 0.0)
    else CoolDown(false, cd.timer + deltaTime)
  }

  function Sum(s: seq<real>): real
  {
    if |s| == 0 then 0.0 else Sum(s[..|s| - 1]) + s[|s| - 1]
  }

  /** The cooldown after one tick per element of `deltas`, in order. */
  function CoolDownRun(cd: CoolDown, deltas: seq<real>, coolDownTime: real): CoolDown
  {
    if |deltas| == 0 then cd
    else CoolDownStep(CoolDownRun(cd, deltas[..|deltas| - 1], coolDownTime), deltas[|deltas| - 1], coolDownTime)
  }

  predicate NonNegative(s: seq<real>)
  {
    forall i :: 0 <= i < |s| ==> s[i] >= 0.0
  }

  /** The number of launch impulses in an effect log. */
  function ImpulseCount(effects: seq<Effect>): nat
  {
    if |effects| == 0 then 0
    else ImpulseCount(effects[..|effects| - 1]) + (if effects[|effects| - 1].AddInitImpulse? then 1 else 0)
  }

  lemma ImpulseCountAppend(s: seq<Effect>, e: Effect)
    ensures ImpulseCount(s + [e]) == ImpulseCount(s) + (if e.AddInitImpulse? then 1 else 0)
  {
    assert (s + [e])[..|s|] == s;
  }

  /** Appending engine calls none of which is a launch impulse leaves the
      count unchanged. */
  lemma {:induction false} ImpulseCountWithout(s: seq<Effect>, t: seq<Effect>)
    requires forall i :: 0 <= i < |t| ==> !t[i].AddInitImpulse?
    ensures ImpulseCount(s + t) == ImpulseCount(s)
  {
    if |t| == 0 {
      assert s + t == s;
    } else {
      var n := |t| - 1;
      assert (s + t)[..|s + t| - 1] == s + t[..n];
      ImpulseCountWithout(s, t[..n]);
    }
  }

  // ----- properties of the volume rules -----

  /** The ApplyHeat update rule: from a volume in range and with
      non-negative multipliers, heat is a min with the ceiling, cold a max
      with the floor, and zero heat changes nothing. */
  lemma ApplyHeatRule(c: Config, v: real, heat: real)
    requires ValidConfig(c) && c.minVolume <= v <= c.maxVolume
    requires heat > 0.0 ==> c.heatExpansionMultiplier >= 0.0
    requires heat < 0.0 ==> c.coldContractionMultiplier >= 0.0
    ensures heat > 0.0 ==> HeatedVolume(c, v, heat) == Min(c.maxVolume, v + heat * c.heatExpansionMultiplier)
    ensures heat < 0.0 ==> HeatedVolume(c, v, heat) == Max(c.minVolume, v + heat * c.coldContractionMultiplier)
    ensures heat == 0.0 ==> HeatedVolume(c, v, heat) == v
  {
    if heat > 0.0 {
      assert heat * c.heatExpansionMultiplier >= 0.0;
    } else if heat < 0.0 {
      assert heat * c.coldContractionMultiplier <= 0.0;
    }
  }

  /** The drain rule: with a non-negative drain, a volume in range drops by
      the drain and stops at the floor. */
  lemma DrainRule(c: Config, v: real, deltaSeconds: real)
    requires ValidConfig(c) && c.minVolume <= v <= c.maxVolume
    requires deltaSeconds >= 0.0 && c.airDrainingMultiplier >= 0.0
    ensures DrainedVolume(c, v, deltaSeconds) == Max(c.minVolume, v - deltaSeconds * c.airDrainingMultiplier)
  {
    assert deltaSeconds * c.airDrainingMultiplier >= 0.0;
  }

  /** AirDrained is level-triggered: a balloon already at the floor, given
      no heat or more cold, or drained again while throttling, stays at the
      floor and broadcasts again on that call, once. */
  lemma AirDrainedRepeatsAtFloor(c: Config, initialScale: Vector, heat: real, deltaSeconds: real)
    requires ValidConfig(c) && c.nearlyEqualTolerance >= 0.0
    requires heat <= 0.0 && c.coldContractionMultiplier >= 0.0
    requires deltaSeconds >= 0.0 && c.airDrainingMultiplier >= 0.0
    ensures HeatedVolume(c, c.minVolume, heat) == c.minVolume
    ensures DrainedVolume(c, c.minVolume, deltaSeconds) == c.minVolume
    ensures VolumeEffects(c, initialScale, c.minVolume)
         == [BroadcastAirDrained, SetActorScale(ScaleFor(c, initialScale, c.minVolume))]
  {
    ApplyHeatRule(c, c.minVolume, heat);
    DrainRule(c, c.minVolume, deltaSeconds);
  }

  /** Scale is volume over nominal: exactly the initial scale at the
      nominal volume, and the ratio minVolume / nominal at the floor. */
  lemma ScaleAtNominal(c: Config, s: Vector)
    requires ValidConfig(c)
    ensures ScaleFor(c, s, NominalVolume(c)) == s
  {
    var n := NominalVolume(c);
    assert n / n == 1.0;
  }

  /** The worked example with the default volume range [20, 120]: nominal
      volume 100, ApplyHeat(-90) clamps to 20, broadcasts AirDrained and
      scales to 0.2 of the initial scale. */
  lemma HeatToFloorExample(tolerance: real, s: Vector)
    requires tolerance >= 0.0
    ensures var c := DefaultConfig(tolerance);
      HeatedVolume(c, NominalVolume(c), -90.0) == 20.0
      && VolumeEffects(c, s, 20.0) == [BroadcastAirDrained, SetActorScale(Scaled(s, 0.2))]
  {
    var c := DefaultConfig(tolerance);
    assert 20.0 / NominalVolume(c) == 0.2;
  }

  // ----- properties of the steering step -----

  /** The dead-zone test without a square root agrees with the source's
      `sqrt(x^2 + y^2) < deadZone` for the magnitude m = sqrt(x^2 + y^2). */
  lemma DeadZoneByMagnitude(x: real, y: real, deadZone: real, m: real)
    requires m >= 0.0 && m * m == x * x + y * y
    ensures m < deadZone <==> InDeadZone(x, y, deadZone)
  {
    if m < deadZone {
      SquareStrictMono(m, deadZone);
    } else if deadZone > 0.0 {
      SquareMono(deadZone, m);
    }
  }

  /** Inputs inside the dead zone request no rotation. */
  lemma DeadZoneRequestsNothing(c: Config, x: real, y: real, downAngle: real, meshRoll: real,
                                normalizeAxis: real -> real, deltaSeconds: real)
    requires InDeadZone(x, y, c.inputDeadZone)
    ensures SteeringEffects(c, x, y, downAngle, meshRoll, normalizeAxis, deltaSeconds) == []
  {
  }

  // Multiplication facts, each proved with its products named, which keeps
  // the solver's non-linear reasoning small.

  lemma SquareStrictMono(a: real, b: real)
    requires 0.0 <= a < b
    ensures a * a < b * b
  {
    var aa, ab, bb := a * a, a * b, b * b;
    assert aa <= ab;
    assert ab < bb;
  }

  lemma SquareMono(a: real, b: real)
    requires 0.0 <= a <= b
    ensures a * a <= b * b
  {
    var aa, ab, bb := a * a, a * b, b * b;
    assert aa <= ab;
    assert ab <= bb;
  }

  lemma MulNonNegative(a: real, b: real)
    requires a >= 0.0 && b >= 0.0
    ensures a * b >= 0.0
  {
  }

  lemma MulPositive(a: real, b: real)
    requires a > 0.0 && b > 0.0
    ensures a * b > 0.0
  {
  }

  lemma MulAtMostOne(q: real, k: real)
    requires 0.0 <= q <= 1.0 && k >= 0.0
    ensures q * k <= k
  {
    var qk := q * k;
    assert k - qk == (1.0 - q) * k;
    MulNonNegative(1.0 - q, k);
  }

  /** needed^2 / 180^2, the ease factor, lies in [0, 1] for |needed| <= 180
      and is zero only for needed == 0. */
  lemma EaseFactorBounds(needed: real)
    ensures var q := needed * needed / (180.0 * 180.0);
      q >= 0.0 && (q == 0.0 <==> needed == 0.0) && (Abs(needed) <= 180.0 ==> q <= 1.0)
  {
    var a := Abs(needed);
    var nn, aa := needed * needed, a * a;
    assert nn == aa;
    if a > 0.0 {
      SquareStrictMono(0.0, a);
    }
    if a <= 180.0 {
      SquareMono(a, 180.0);
    }
  }

  /** The increment is the ease factor times dt * speed, signed like needed. */
  lemma AngleIncrementCases(needed: real, deltaSeconds: real, speed: real)
    ensures var qk := (needed * needed / (180.0 * 180.0)) * (deltaSeconds * speed);
      AngleIncrement(needed, deltaSeconds, speed) == (if needed < 0.0 then -qk else qk)
  {
    if needed > 0.0 {
      assert Sign(needed) == 1.0;
    } else if needed < 0.0 {
      assert Sign(needed) == -1.0;
    } else {
      assert Sign(needed) == 0.0;
    }
  }

  /** The quadratic ease: the increment has the sign of the needed angle,
      magnitude needed^2 / 180^2 * dt * speed for a non-negative dt * speed,
      and never exceeds dt * speed while |needed| <= 180. */
  lemma AngleIncrementShape(needed: real, deltaSeconds: real, speed: real)
    requires deltaSeconds * speed >= 0.0
    ensures Abs(AngleIncrement(needed, deltaSeconds, speed))
         == needed * needed / (180.0 * 180.0) * (deltaSeconds * speed)
    ensures deltaSeconds * speed > 0.0 ==> Sign(AngleIncrement(needed, deltaSeconds, speed)) == Sign(needed)
    ensures Abs(needed) <= 180.0 ==> Abs(AngleIncrement(needed, deltaSeconds, speed)) <= deltaSeconds * speed
  {
    var k := deltaSeconds * speed;
    var q := needed * needed / (180.0 * 180.0);
    EaseFactorBounds(needed);
    AngleIncrementCases(needed, deltaSeconds, speed);
    MulNonNegative(q, k);
    if k > 0.0 && needed != 0.0 {
      MulPositive(q, k);
    }
    if needed == 0.0 {
      assert q == 0.0;
      assert q * k == 0.0;
    }
    var inc, qk := AngleIncrement(needed, deltaSeconds, speed), q * k;
    assert Abs(inc) == qk;
    if Abs(needed) <= 180.0 {
      MulAtMostOne(q, k);
      assert qk <= k;
    }
  }

  /** Outside the dead zone one roll increment is requested, computed from
      a target that lies in [-maxAngle, maxAngle] and is negative only for
      a stick pointing left. */
  lemma SteeringStep(c: Config, x: real, y: real, downAngle: real, meshRoll: real,
                     normalizeAxis: real -> real, deltaSeconds: real)
    requires !InDeadZone(x, y, c.inputDeadZone)
    requires c.maxAngle >= 0.0 && 0.0 <= downAngle <= 180.0
    ensures var t := SteeringTarget(x, downAngle, c.maxAngle);
      -c.maxAngle <= t <= c.maxAngle
      && (x < 0.0 ==> t <= 0.0) && (x >= 0.0 ==> t >= 0.0)
      && SteeringEffects(c, x, y, downAngle, meshRoll, normalizeAxis, deltaSeconds)
         == [ZeroAngularVelocityAndRotateRoll(
               AngleIncrement(normalizeAxis(t - normalizeAxis(meshRoll)), deltaSeconds, c.rotationSpeedMultiplier))]
  {
  }

  /** Straight down steers to 0, straight right to +90 and straight left
      to -90 (the acos angles 0 and 90), when maxAngle allows 90. */
  lemma SteeringTargetExamples(maxAngle: real)
    requires maxAngle >= 90.0
    ensures SteeringTarget(0.0, 0.0, maxAngle) == 0.0
    ensures SteeringTarget(1.0, 90.0, maxAngle) == 90.0
    ensures SteeringTarget(-1.0, 90.0, maxAngle) == -90.0
  {
  }

  // ----- properties of the cooldown -----

  /** The cooldown invariant (complete implies a zero timer) survives any
      run of ticks that starts from it. */
  lemma {:induction false} CoolDownRunKeepsInvariant(cd: CoolDown, deltas: seq<real>, coolDownTime: real)
    requires cd.completed ==> cd.timer == 0.0
    ensures var r := CoolDownRun(cd, deltas, coolDownTime); r.completed ==> r.timer == 0.0
  {
    if |deltas| > 0 {
      CoolDownRunKeepsInvariant(cd, deltas[..|deltas| - 1], coolDownTime);
    }
  }

  /** With non-negative ticks the timer never goes negative. */
  lemma {:induction false} CoolDownTimerNonNegative(cd: CoolDown, deltas: seq<real>, coolDownTime: real)
    requires cd.timer >= 0.0 && NonNegative(deltas)
    ensures CoolDownRun(cd, deltas, coolDownTime).timer >= 0.0
  {
    if |deltas| > 0 {
      CoolDownTimerNonNegative(cd, deltas[..|deltas| - 1], coolDownTime);
    }
  }

  /** While the accumulated time stays within the cooldown time the
      cooldown is not complete, and the timer is the accumulated time. */
  lemma {:induction false} StillCoolingDown(t0: real, deltas: seq<real>, coolDownTime: real)
    requires NonNegative(deltas) && t0 + Sum(deltas) <= coolDownTime
    ensures CoolDownRun(CoolDown(false, t0), deltas, coolDownTime) == CoolDown(false, t0 + Sum(deltas))
  {
    if |deltas| > 0 {
      var n := |deltas| - 1;
      assert deltas[n] >= 0.0;
      StillCoolingDown(t0, deltas[..n], coolDownTime);
    }
  }

  /** Once the accumulated time exceeds the cooldown time the cooldown is
      complete, with the timer back at zero. */
  lemma {:induction false} CoolDownCompletes(t0: real, deltas: seq<real>, coolDownTime: real)
    requires NonNegative(deltas) && t0 <= coolDownTime < t0 + Sum(deltas)
    ensures CoolDownRun(CoolDown(false, t0), deltas, coolDownTime) == CoolDown(true, 0.0)
  {
    if |deltas| > 0 {
      var prefix := deltas[..|deltas| - 1];
      if t0 + Sum(prefix) > coolDownTime {
        CoolDownCompletes(t0, prefix, coolDownTime);
      } else {
        StillCoolingDown(t0, prefix, coolDownTime);
      }
    }
  }

  /** The pawn. Configuration and the initial scale are fixed at BeginPlay;
      the rest changes tick by tick. */
  class Balloon {
    const cfg: Config
    const initialScale: Vector
    var inputX: real
    var inputY: real
    var volume: real
    var inThrottle: bool
    var coolDownCompleted: bool
    var coolDownTimer: real
    var effects: seq<Effect>

    ghost predicate Valid()
      reads this
    {
      ValidConfig(cfg)
      && cfg.minVolume <= volume <= cfg.maxVolume
      && (coolDownCompleted ==> coolDownTimer == 0.0)
      && ScaleTracksVolume(cfg, initialScale, volume, effects)
    }

    /** The constructor's defaults followed by BeginPlay, which sets the
        nominal volume and captures the mesh's scale. */
    constructor (config: Config, meshScale: Vector)
      requires ValidConfig(config)
      ensures Valid()
      ensures cfg == config && initialScale == meshScale
      ensures inputX == 0.0 && inputY == 0.0
      ensures volume == NominalVolume(config)
      ensures !inThrottle && coolDownCompleted && coolDownTimer == 0.0
      ensures effects == []
    {
      cfg := config;
      inputX, inputY := 0.0, 0.0;
      inThrottle := false;
      coolDownCompleted := true;
      coolDownTimer := 0.0;
      effects := [];
      volume := (config.maxVolume - config.minVolume) * 0.8 + config.minVolume;
      initialScale := meshScale;
    }

    method OnLeftStickX(rate: real)
      requires Valid()
      modifies this`inputX
      ensures Valid()
      ensures inputX == rate
    {
      inputX := rate;
    }

    method OnLeftStickY(rate: real)
      requires Valid()
      modifies this`inputY
      ensures Valid()
      ensures inputY == rate
    {
      inputY := rate;
    }

    method ApplyInitImpulse()
      requires Valid()
      modifies this`effects
      ensures Valid()
      ensures effects == old(effects) + [AddInitImpulse(cfg.initImpulse)]
    {
      LastScaleAppendOther(effects, AddInitImpulse(cfg.initImpulse));
      effects := effects + [AddInitImpulse(cfg.initImpulse)];
    }

    /** Throttle pressed: refused at the floor; otherwise throttling starts
        and, only if the cooldown is complete, the impulse fires and the
        cooldown restarts. */
    method OnThrottleStart()
      requires Valid()
      modifies this`inThrottle, this`coolDownCompleted, this`effects
      ensures Valid()
      ensures AirDrained(cfg, volume) ==>
        inThrottle == old(inThrottle) && coolDownCompleted == old(coolDownCompleted)
        && effects == old(effects)
      ensures !AirDrained(cfg, volume) ==>
        inThrottle && !coolDownCompleted
        && effects == old(effects) + (if old(coolDownCompleted) then [AddInitImpulse(cfg.initImpulse)] else [])
    {
      if !IsNearlyEqual(volume, cfg.minVolume, cfg.nearlyEqualTolerance) {
        inThrottle := true;
        if coolDownCompleted {
          ApplyInitImpulse();
          coolDownCompleted := false;
        }
      }
    }

    method OnThrottleStop()
      requires Valid()
      modifies this`inThrottle
      ensures Valid()
      ensures !inThrottle
    {
      inThrottle := false;
    }

    /** Orientation back to identity, volume back to nominal, scale back to
        the initial scale. */
    method ResetRotationAndScale()
      requires Valid()
      modifies this`volume, this`effects
      ensures Valid()
      ensures volume == NominalVolume(cfg)
      ensures effects == old(effects) + [ResetWorldRotation, SetActorScale(initialScale)]
    {
      effects := effects + [ResetWorldRotation];
      volume := (cfg.maxVolume - cfg.minVolume) * 0.8 + cfg.minVolume;
      effects := effects + [SetActorScale(initialScale)];
      ScaleAtNominal(cfg, initialScale);
    }

    method ApplyHeat(heatValue: real)
      requires Valid()
      modifies this`volume, this`inThrottle, this`effects
      ensures Valid()
      ensures volume == HeatedVolume(cfg, old(volume), heatValue)
      ensures inThrottle == (old(inThrottle) && !AirDrained(cfg, volume))
      ensures effects == old(effects) + VolumeEffects(cfg, initialScale, volume)
    {
      if heatValue > 0.0 {
        volume := volume + heatValue * cfg.heatExpansionMultiplier;
        volume := Clamp(volume, cfg.minVolume, cfg.maxVolume);
      } else if heatValue < 0.0 {
        volume := volume + heatValue * cfg.coldContractionMultiplier;
        volume := Clamp(volume, cfg.minVolume, cfg.maxVolume);
      }
      assert volume == HeatedVolume(cfg, old(volume), heatValue);
      UpdateVolumeEffects();
    }

    /** The tail shared by ApplyHeat and a throttling UpdateThrottle: the
        floor check with its broadcast, then the rescale. */
    method UpdateVolumeEffects()
      requires ValidConfig(cfg) && cfg.minVolume <= volume <= cfg.maxVolume
      requires coolDownCompleted ==> coolDownTimer == 0.0
      modifies this`inThrottle, this`effects
      ensures Valid()
      ensures inThrottle == (old(inThrottle) && !AirDrained(cfg, volume))
      ensures effects == old(effects) + VolumeEffects(cfg, initialScale, volume)
    {
      if IsNearlyEqual(volume, cfg.minVolume, cfg.nearlyEqualTolerance) {
        inThrottle := false;
        effects := effects + [BroadcastAirDrained];
      }
      var defaultVolume := (cfg.maxVolume - cfg.minVolume) * 0.8 + cfg.minVolume;
      effects := effects + [SetActorScale(Scaled(initialScale, volume / defaultVolume))];
      LastScaleAppend(old(effects), VolumeEffects(cfg, initialScale, volume));
    }

    /** The active steering algorithm. `downAngle` is the engine's acos of
        the dot product of straight down with the normalised input, in
        degrees; `meshRoll` is the mesh's current roll. */
    method UpdateTargetRotation(deltaSeconds: real, downAngle: real, meshRoll: real,
                                normalizeAxis: real -> real)
      requires Valid()
      requires 0.0 <= downAngle <= 180.0
      modifies this`effects
      ensures Valid()
      ensures effects == old(effects)
        + SteeringEffects(cfg, inputX, inputY, downAngle, meshRoll, normalizeAxis, deltaSeconds)
    {
      if InDeadZone(inputX, inputY, cfg.inputDeadZone) {
        assert effects + [] == effects;
        return;
      }
      var targetAngle := downAngle;
      if inputX < 0.0 {
        targetAngle := -targetAngle;
      }
      targetAngle := Clamp(targetAngle, -cfg.maxAngle, cfg.maxAngle);
      var currentRotationAngle := normalizeAxis(meshRoll);
      var neededRotationAngle := targetAngle - currentRotationAngle;
      neededRotationAngle := normalizeAxis(neededRotationAngle);
      var angleIncrement := Sign(neededRotationAngle) * (neededRotationAngle * neededRotationAngle) / (180.0 * 180.0);
      angleIncrement := angleIncrement * (deltaSeconds * cfg.rotationSpeedMultiplier);
      assert targetAngle == SteeringTarget(inputX, downAngle, cfg.maxAngle);
      assert neededRotationAngle == NeededAngle(cfg, inputX, downAngle, meshRoll, normalizeAxis);
      assert angleIncrement == AngleIncrement(neededRotationAngle, deltaSeconds, cfg.rotationSpeedMultiplier);
      LastScaleAppendOther(effects, ZeroAngularVelocityAndRotateRoll(angleIncrement));
      effects := effects + [ZeroAngularVelocityAndRotateRoll(angleIncrement)];
    }

    /** While throttling: drain, clamp, notify at the floor, rescale, and
        push once along the balloon's up direction. */
    method UpdateThrottle(deltaSeconds: real)
      requires Valid()
      modifies this`volume, this`inThrottle, this`effects
      ensures Valid()
      ensures volume == (if old(inThrottle) then DrainedVolume(cfg, old(volume), deltaSeconds) else old(volume))
      ensures inThrottle == (old(inThrottle) && !AirDrained(cfg, volume))
      ensures effects == old(effects) + ThrottleEffects(cfg, initialScale, old(inThrottle), volume)
    {
      if !inThrottle {
        return;
      }
      volume := volume - deltaSeconds * cfg.airDrainingMultiplier;
      volume := Clamp(volume, cfg.minVolume, cfg.maxVolume);
      UpdateVolumeEffects();
      LastScaleAppendOther(effects, AddThrustForce(cfg.throttleForceMultiplier));
      effects := effects + [AddThrustForce(cfg.throttleForceMultiplier)];
    }

    /** The cooldown block of Tick. */
    method AdvanceCoolDown(deltaTime: real)
      requires Valid()
      modifies this`coolDownCompleted, this`coolDownTimer
      ensures Valid()
      ensures CoolDown(coolDownCompleted, coolDownTimer)
           == CoolDownStep(CoolDown(old(coolDownCompleted), old(coolDownTimer)), deltaTime, cfg.coolDownTime)
    {
      if !coolDownCompleted {
        coolDownTimer := coolDownTimer + deltaTime;
        if coolDownTimer > cfg.coolDownTime {
          coolDownTimer := 0.0;
          coolDownCompleted := true;
        }
      }
    }

    /** One frame: buoyancy, steering, throttle, cooldown. */
    method Tick(deltaTime: real, downAngle: real, meshRoll: real, normalizeAxis: real -> real)
      requires Valid()
      requires 0.0 <= downAngle <= 180.0
      modifies this`volume, this`inThrottle, this`coolDownCompleted, this`coolDownTimer, this`effects
      ensures Valid()
      ensures volume == (if old(inThrottle) then DrainedVolume(cfg, old(volume), deltaTime) else old(volume))
      ensures inThrottle == (old(inThrottle) && !AirDrained(cfg, volume))
      ensures CoolDown(coolDownCompleted, coolDownTimer)
           == CoolDownStep(CoolDown(old(coolDownCompleted), old(coolDownTimer)), deltaTime, cfg.coolDownTime)
      ensures effects == old(effects)
        + [AddBuoyancyForce(cfg.defaultBuoyancy)]
        + SteeringEffects(cfg, inputX, inputY, downAngle, meshRoll, normalizeAxis, deltaTime)
        + ThrottleEffects(cfg, initialScale, old(inThrottle), volume)
    {
      LastScaleAppendOther(effects, AddBuoyancyForce(cfg.defaultBuoyancy));
      effects := effects + [AddBuoyancyForce(cfg.defaultBuoyancy)];
      UpdateTargetRotation(deltaTime, downAngle, meshRoll, normalizeAxis);
      UpdateThrottle(deltaTime);
      AdvanceCoolDown(deltaTime);
    }
  }

  /** Press, release, let whole frames pass, press again: the second press
      fires no impulse while the frames add up to no more than the cooldown
      time, and does fire one once they exceed it. The throttle is released
      between the presses, so the frames drain no air. */
  method PressTwice(config: Config, meshScale: Vector, deltas: seq<real>,
                    downAngle: real, meshRoll: real, normalizeAxis: real -> real)
    returns (impulses: nat)
    requires ValidConfig(config) && NonNegative(deltas) && config.coolDownTime >= 0.0
    requires 0.0 <= downAngle <= 180.0
    ensures AirDrained(config, NominalVolume(config)) ==> impulses == 0
    ensures !AirDrained(config, NominalVolume(config)) ==>
      impulses == (if Sum(deltas) <= config.coolDownTime then 1 else 2)
  {
    var b := new Balloon(config, meshScale);
    b.OnThrottleStart();
    b.OnThrottleStop();
    ghost var drained := AirDrained(config, NominalVolume(config));
    ghost var fired: nat := if drained then 0 else 1;
    ghost var start := CoolDown(drained, 0.0);
    ImpulseCountAppend([], AddInitImpulse(config.initImpulse));
    assert !drained ==> b.effects == [] + [AddInitImpulse(config.initImpulse)];
    assert ImpulseCount(b.effects) == fired;
    assert CoolDown(b.coolDownCompleted, b.coolDownTimer) == start;
    var i := 0;
    while i < |deltas|
      invariant 0 <= i <= |deltas|
      invariant b.Valid() && b.cfg == config && b.volume == NominalVolume(config) && !b.inThrottle
      invariant ImpulseCount(b.effects) == fired
      invariant CoolDown(b.coolDownCompleted, b.coolDownTimer)
        == CoolDownRun(start, deltas[..i], config.coolDownTime)
    {
      assert deltas[..i + 1][..i] == deltas[..i];
      ghost var before := b.effects;
      ghost var steering := SteeringEffects(config, b.inputX, b.inputY, downAngle, meshRoll, normalizeAxis, deltas[i]);
      b.Tick(deltas[i], downAngle, meshRoll, normalizeAxis);
      assert b.effects == before + ([AddBuoyancyForce(config.defaultBuoyancy)] + steering);
      ImpulseCountWithout(before, [AddBuoyancyForce(config.defaultBuoyancy)] + steering);
      i := i + 1;
    }
    assert deltas[..i] == deltas;
    ghost var completedBefore := b.coolDownCompleted;
    ghost var before := b.effects;
    b.OnThrottleStart();
    impulses := ImpulseCount(b.effects);
    if !drained {
      var impulse := AddInitImpulse(config.initImpulse);
      if Sum(deltas) <= config.coolDownTime {
        StillCoolingDown(0.0, deltas, config.coolDownTime);
        assert !completedBefore;
        assert b.effects == before;
      } else {
        CoolDownCompletes(0.0, deltas, config.coolDownTime);
        assert completedBefore;
        assert b.effects == before + [impulse];
        ImpulseCountAppend(before, impulse);
      }
    }
  }

  /** With the default volume range: ApplyHeat(-90) from the nominal volume
      100 clamps to 20, stops the throttle, broadcasts AirDrained and scales
      to 0.2 of the initial scale; a throttle press at the floor then does
      nothing at all. */
  method ColdToFloorThenPress(tolerance: real, meshScale: Vector)
    returns (volume: real, throttling: bool, effects: seq<Effect>)
    requires tolerance >= 0.0
    ensures volume == 20.0 && !throttling
    ensures effects == [BroadcastAirDrained, SetActorScale(Scaled(meshScale, 0.2))]
  {
    var b := new Balloon(DefaultConfig(tolerance), meshScale);
    b.ApplyHeat(-90.0);
    HeatToFloorExample(tolerance, meshScale);
    b.OnThrottleStart();
    volume, throttling, effects := b.volume, b.inThrottle, b.effects;
  }
}
