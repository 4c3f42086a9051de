/**
  The two scalar operations the thruster state relies on, `f32::max` and
  `f32::clamp`, over mathematical reals (no NaN, no rounding).
*/
module Scalar {

  /** `x.max(y)`: the larger of the two arguments. */
  function Max(x: real, y: real): (r: real)
    ensures r >= x && r >= y
    ensures r == x || r == y
  {
    if x >= y then x else y
  }

  /**
    `x.clamp(lo, hi)`. Rust panics when `lo > hi`, so callers must pass an
    ordered range; inside it the value is kept, outside it the nearer bound
    is returned.
  */
  function Clamp(x: real, lo: real, hi: real): (r: real)
    requires lo <= hi
    ensures lo <= r <= hi
    ensures lo <= x <= hi ==> r == x
    ensures x < lo ==> r == lo
    ensures x > hi ==> r == hi
  {
    if x < lo then lo else if x > hi then hi else x
  }

  /** Clamping twice is clamping once. */
  lemma ClampIdempotent(x: real, lo: real, hi: real)
    requires lo <= hi
    ensures Clamp(Clamp(x, lo, hi), lo, hi) == Clamp(x, lo, hi)
  {
  }

  /** Taking the maximum with a bound twice is taking it once. */
  lemma MaxIdempotent(x: real, bound: real)
    ensures Max(Max(x, bound), bound) == Max(x, bound)
  {
  }
}
