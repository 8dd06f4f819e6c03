/** The engine math helpers the balloon code calls, with the semantics the
    engine documents for them. Engine floats are modelled as `real`. */
module FMath {

  function Abs(x: real): (r: real)
    ensures r >= 0.0 && (r == x || r == -x)
  {
    if x < 0.0 then -x else x
  }

  function Min(a: real, b: real): (r: real)
    ensures r <= a && r <= b && (r == a || r == b)
  {
    if a <= b then a else b
  }

  function Max(a: real, b: real): (r: real)
    ensures r >= a && r >= b && (r == a || r == b)
  {
    if a >= b then a else b
  }

  /** FMath::Clamp(X, Min, Max): `X < Min ? Min : X < Max ? X : Max`.
      With an ordered range it is the point of the range nearest to x;
      with a reversed range it still answers `lo` below `lo` and `hi` otherwise. */
  function Clamp(x: real, lo: real, hi: real): (r: real)
    ensures lo <= hi ==> lo <= r <= hi
    ensures lo <= x <= hi ==> r == x
    ensures x < lo ==> r == lo
    ensures lo <= hi && hi < x ==> r == hi
    ensures hi < lo ==> r == (if x < lo then lo else hi)
  {
    if x < lo then lo else if x < hi then x else hi
  }

  /** FMath::Sign: 1, -1 or 0. */
  function Sign(x: real): (r: real)
    ensures r * x == Abs(x)
    ensures -1.0 <= r <= 1.0
    ensures r == 0.0 <==> x == 0.0
  {
    if x > 0.0 then 1.0 else if x < 0.0 then -1.0 else 0.0
  }

  /** FMath::IsNearlyEqual(A, B, ErrorTolerance): |A - B| <= ErrorTolerance. */
  predicate IsNearlyEqual(a: real, b: real, tolerance: real)
  {
    Abs(a - b) <= tolerance
  }
}
