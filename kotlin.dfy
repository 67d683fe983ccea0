/**
 * The few pieces of Kotlin's runtime semantics the slider relies on:
 * nullable values, `Float.toInt()` and `Int.coerceIn(range)`.
 * Floats are modelled as exact reals; NaN and infinities do not arise
 * because every division in the model is by a non-zero bucket width or a
 * constant.
 */
module Kotlin {

  /** A Kotlin nullable `T?`: `None` stands for `null`. */
  datatype Option<+T> = None | Some(value: T)

  /** The bounds of Kotlin's 32-bit `Int`. */
  const INT_MIN: int := -0x8000_0000
  const INT_MAX: int := 0x7fff_ffff

  /** Rounds `q` toward zero: the result has the sign of `q` (or is 0) and is less than 1 away from it. */
  function Truncate(q: real): (r: int)
    ensures 0.0 <= q ==> 0 <= r && r as real <= q < r as real + 1.0
    ensures q < 0.0 ==> r <= 0 && r as real - 1.0 < q <= r as real
  {
    if q >= 0.0 then q.Floor else -((-q).Floor)
  }

  /**
   * `Float.toInt()`: rounds toward zero, and saturates at `Int.MIN_VALUE` and
   * `Int.MAX_VALUE` when the value does not fit.
   */
  function FloatToInt(q: real): (r: int)
    ensures INT_MIN <= r <= INT_MAX
    ensures 0.0 <= q ==> 0 <= r && r as real <= q && (r < INT_MAX ==> q < r as real + 1.0)
    ensures q < 0.0 ==> r <= 0 && q <= r as real && (INT_MIN < r ==> r as real - 1.0 < q)
  {
    if q >= INT_MAX as real then INT_MAX
    else if q <= INT_MIN as real then INT_MIN
    else Truncate(q)
  }

  /** `Float.toInt()` never reverses the order of two values. */
  lemma FloatToIntMonotone(q1: real, q2: real)
    requires q1 <= q2
    ensures FloatToInt(q1) <= FloatToInt(q2)
  {
  }

  /**
   * `v.coerceIn(lo..hi)`: `v` itself when it lies in the range, otherwise the
   * nearer bound. Kotlin throws when the range is empty, hence the requires.
   */
  function CoerceIn(v: int, lo: int, hi: int): (r: int)
    requires lo <= hi
    ensures lo <= r <= hi
    ensures lo <= v <= hi ==> r == v
    ensures v < lo ==> r == lo
    ensures hi < v ==> r == hi
  {
    if v < lo then lo else if hi < v then hi else v
  }
}
