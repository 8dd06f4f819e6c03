/** UMoreMath: a stateless helper library. Its one operation clamps every
    axis of a rotator into a sanitised symmetric-or-not angle range. */
module MoreMath {
  import opened FMath

  /** FRotator: pitch, yaw and roll, in degrees. */
  datatype Rotator = Rotator(pitch: real, yaw: real, roll: real)

  /** Axis i of a rotator: 0 is pitch, 1 is yaw, 2 is roll. */
  function Axis(r: Rotator, i: nat): real
    requires i < 3
  {
    if i == 0 then r.pitch else if i == 1 then r.yaw else r.roll
  }

  datatype AngleRange = AngleRange(lo: real, hi: real)

  /** The rebinding of MinAngle and MaxAngle at the top of ClampEachAxis:
      the lower bound is clamped into [-360, 360] and the upper bound into
      [lower bound, 360], so the range is never reversed. */
  function SanitizedRange(minAngle: real, maxAngle: real): (b: AngleRange)
    ensures -360.0 <= b.lo <= b.hi <= 360.0
    ensures -360.0 <= minAngle <= 360.0 ==> b.lo == minAngle
    ensures minAngle < -360.0 ==> b.lo == -360.0
    ensures minAngle > 360.0 ==> b.lo == 360.0
    ensures b.lo <= maxAngle <= 360.0 ==> b.hi == maxAngle
    ensures maxAngle < b.lo ==> b.hi == b.lo
    ensures maxAngle > 360.0 ==> b.hi == 360.0
  {
    var lo := Clamp(minAngle, -360.0, 360.0);
    AngleRange(lo, Clamp(maxAngle, lo, 360.0))
  }

  /** UMoreMath::ClampEachAxis. The engine's FMath::ClampAngle (with its
      wrap-around semantics) is not part of this model: it is the parameter
      `clampAngle(angle, lo, hi)`. The ensures says that every output axis
      is the clamp of the SAME input axis, with the one sanitised range. */
  function ClampEachAxis(rot: Rotator, minAngle: real, maxAngle: real,
                         clampAngle: (real, real, real) -> real): (r: Rotator)
    ensures var b := SanitizedRange(minAngle, maxAngle);
      forall i :: 0 <= i < 3 ==> Axis(r, i) == clampAngle(Axis(rot, i), b.lo, b.hi)
  {
    var b := SanitizedRange(minAngle, maxAngle);
    Rotator(clampAngle(rot.pitch, b.lo, b.hi),
            clampAngle(rot.yaw, b.lo, b.hi),
            clampAngle(rot.roll, b.lo, b.hi))
  }

  /** A sanitised range is a fixed point of sanitisation. */
  lemma SanitizedRangeIdempotent(minAngle: real, maxAngle: real)
    ensures var b := SanitizedRange(minAngle, maxAngle);
      SanitizedRange(b.lo, b.hi) == b
  {
  }

  /** A reversed argument pair collapses the range onto the sanitised lower
      bound: (10, 5) clamps every axis with the bounds [10, 10]. */
  lemma CollapsedRange()
    ensures SanitizedRange(10.0, 5.0) == AngleRange(10.0, 10.0)
  {
  }

  /** Axis independence: rotators that agree on one axis give results that
      agree on that axis, whatever the other two axes hold. */
  lemma AxisIndependence(r1: Rotator, r2: Rotator, i: nat, minAngle: real, maxAngle: real,
                         clampAngle: (real, real, real) -> real)
    requires i < 3 && Axis(r1, i) == Axis(r2, i)
    ensures Axis(ClampEachAxis(r1, minAngle, maxAngle, clampAngle), i)
         == Axis(ClampEachAxis(r2, minAngle, maxAngle, clampAngle), i)
  {
  }

  /** Sanitising the bounds before the call changes nothing: the clamp only
      ever sees the sanitised range. */
  lemma ClampEachAxisSeesSanitizedRange(rot: Rotator, minAngle: real, maxAngle: real,
                                        clampAngle: (real, real, real) -> real)
    ensures var b := SanitizedRange(minAngle, maxAngle);
      ClampEachAxis(rot, b.lo, b.hi, clampAngle) == ClampEachAxis(rot, minAngle, maxAngle, clampAngle)
  {
    SanitizedRangeIdempotent(minAngle, maxAngle);
  }
}
