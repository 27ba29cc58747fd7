/** Real-number counterparts of the floating-point operations the pedal code uses.
    Floating-point rounding, NaN and infinities are not modelled: every sample is a `real`. */
module Maths {

  /** The decimal literal of Rust's `std::f64::consts::PI`. */
  const PI: real := 3.141592653589793

  /** The transcendental library calls of the distortion engine, left uninterpreted:
      `tanh`, `sin` and `pow2(y)` standing for `2.0_f64.powf(y)`. */
  datatype Math = Math(tanh: real -> real, sin: real -> real, pow2: real -> real)

  /** The only facts about the transcendental calls that the model relies on: their ranges,
      and that tanh and sin vanish at zero. */
  ghost predicate Lawful(m: Math) {
    && (forall x: real :: -1.0 < m.tanh(x) < 1.0)
    && (forall x: real :: -1.0 <= m.sin(x) <= 1.0)
    && (forall y: real :: m.pow2(y) > 0.0)
    && m.tanh(0.0) == 0.0 && m.sin(0.0) == 0.0
  }

  /** `f64::clamp`: below the range gives `lo`, above gives `hi`, inside is unchanged. */
  function Clamp(v: real, lo: real, hi: real): (r: real)
    requires lo <= hi
    ensures lo <= r <= hi
    ensures v < lo ==> r == lo
    ensures v > hi ==> r == hi
    ensures lo <= v <= hi ==> r == v
  {
    if v < lo then lo else if v > hi then hi else v
  }

  function ClampInt(v: int, lo: int, hi: int): (r: int)
    requires lo <= hi
    ensures lo <= r <= hi
    ensures lo <= v <= hi ==> r == v
  {
    if v < lo then lo else if v > hi then hi else v
  }

  function Abs(x: real): real { if x < 0.0 then -x else x }

  /** `f64::round`: the nearest integer, halfway cases away from zero. */
  function Round(x: real): (r: int)
    ensures -0.5 <= x - r as real <= 0.5
    ensures x - r as real == 0.5 ==> x < 0.0
    ensures x - r as real == -0.5 ==> x > 0.0
  {
    if x >= 0.0 then (x + 0.5).Floor else -((0.5 - x).Floor)
  }

  /** Truncation toward zero, the in-range part of Rust's float-to-integer `as`. */
  function Trunc(x: real): (r: int)
    ensures Abs(r as real) <= Abs(x) < Abs(r as real) + 1.0
    ensures x >= 0.0 ==> r >= 0
    ensures x <= 0.0 ==> r <= 0
  {
    if x >= 0.0 then x.Floor else -((-x).Floor)
  }

  /** Rust's float-to-integer `as`: truncate toward zero, then saturate at the target's bounds. */
  function SaturatingCast(x: real, lo: int, hi: int): (r: int)
    requires lo <= hi
    ensures lo <= r <= hi
    ensures lo <= Trunc(x) <= hi ==> r == Trunc(x)
  {
    ClampInt(Trunc(x), lo, hi)
  }

  /** The fractional part of `x`, in [0, 1). */
  function Frac(x: real): (r: real)
    ensures 0.0 <= r < 1.0
  {
    x - x.Floor as real
  }

  function Pow(b: real, n: nat): real {
    if n == 0 then 1.0 else b * Pow(b, n - 1)
  }
}
