/** The few Unity `Mathf` helpers and C# integer rules that the game scripts rely on. */
module Mathf {

  /** The value the scripts' `float` fields take when the model needs one that is not negative. */
  type NonNeg = r: real | r >= 0.0

  function Abs(a: real): (r: real)
    ensures r >= 0.0
    ensures r == a || r == -a
  {
    if a < 0.0 then -a else a
  }

  /** Mathf.Min: the smaller of the two arguments. */
  function Min(a: real, b: real): (r: real)
    ensures r <= a && r <= b
    ensures r == a || r == b
  {
    if a < b then a else b
  }

  /** Mathf.Clamp(value, min, max): the lower bound is compared first, then the upper. */
  function Clamp(value: real, min: real, max: real): (r: real)
    ensures min <= max ==> min <= r <= max
    ensures min <= value <= max ==> r == value
    ensures r == value || r == min || r == max
  {
    if value < min then min else if value > max then max else value
  }

  /** Clamping picks the point of [min, max] closest to the value. */
  lemma ClampIsNearest(value: real, min: real, max: real, z: real)
    requires min <= z <= max
    ensures Abs(Clamp(value, min, max) - value) <= Abs(z - value)
  {
  }

  /** Starting inside [min, max] and adding d, the clamped position moves at most |d|,
      and never in the direction opposite to d. */
  lemma ClampStep(y: real, d: real, min: real, max: real)
    requires min <= y <= max
    ensures Abs(Clamp(y + d, min, max) - y) <= Abs(d)
    ensures Clamp(y + d, min, max) > y ==> d > 0.0
    ensures Clamp(y + d, min, max) < y ==> d < 0.0
  {
  }

  /** Sign and order facts about products, stated once for the nonlinear steps elsewhere. */
  lemma MulSign(k: real, a: real)
    requires k > 0.0
    ensures a * k > 0.0 <==> a > 0.0
    ensures a * k < 0.0 <==> a < 0.0
    ensures k * a == a * k
  {
  }

  const MinInt32: int := -0x8000_0000
  const MaxInt32: int := 0x7fff_ffff

  /** C#'s `int`: 32-bit two's complement. */
  newtype int32 = n: int | -0x8000_0000 <= n < 0x8000_0000

  const TwoTo32: int := 0x1_0000_0000

  /** `n++` in C#'s default unchecked context: wraps from int.MaxValue to int.MinValue. */
  function WrappingIncrement(n: int32): (r: int32)
    ensures r as int == n as int + 1 || r as int == n as int + 1 - TwoTo32
    ensures n as int < MaxInt32 ==> r as int == n as int + 1
    ensures n as int == MaxInt32 ==> r as int == MinInt32
  {
    if n == 0x7fff_ffff then -0x8000_0000 else n + 1
  }
}
