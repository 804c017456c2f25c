/** The engine's numeric helpers the controller relies on: single-precision bounds,
    Mathf.Clamp, and C#'s 32-bit `int` with unchecked (wrapping) subtraction. */
module Numerics {

  /** float.MaxValue, the largest finite single-precision value; float.MinValue is its negation. */
  const FloatMax: real := 340282346638528859811704183484516925440.0

  const MinInt32: int := -0x8000_0000
  const MaxInt32: int := 0x7FFF_FFFF

  /** C#'s `int`. */
  newtype int32 = x: int | -0x8000_0000 <= x < 0x8000_0000

  /** Mathf.Clamp: `min` when the value is below it, otherwise `max` when it is above that,
      otherwise the value itself. */
  function Clamp(value: real, min: real, max: real): (r: real)
    ensures r == value || r == min || r == max
    ensures min <= max ==> min <= r <= max
    ensures min <= value <= max ==> r == value
    ensures value < min ==> r == min
    ensures min <= value && max < value ==> r == max
  {
    if value < min then min else if value > max then max else value
  }

  /** C#'s unchecked `a - b` on `int`: the exact difference when it fits in 32 bits,
      and otherwise the difference wrapped around modulo 2^32. */
  function Sub32(a: int32, b: int32): (r: int32)
    ensures MinInt32 <= a as int - b as int <= MaxInt32 ==> r as int == a as int - b as int
    ensures (r as int - (a as int - b as int)) % 0x1_0000_0000 == 0
  {
    var d := a as int - b as int;
    var shifted := d + 0x8000_0000;
    assert shifted % 0x1_0000_0000 - shifted == -(shifted / 0x1_0000_0000) * 0x1_0000_0000;
    (shifted % 0x1_0000_0000 - 0x8000_0000) as int32
  }
}
