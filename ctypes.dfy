/**
 * Conversions the C sources rely on: the truncating float-to-integer cast
 * and the unsigned 32-bit colour word.
 */
module CTypes {

  /** A packed `0xRRGGBB` colour, the source's `color32` (a `uint32_t`). */
  type Color32 = bv32

  /**
   * C's conversion of a floating-point value to an integer type
   * (`(i32)r`, `(i16)r`), which truncates toward zero.  Values outside the
   * target type's range are undefined behaviour in C and are not modelled.
   */
  function Trunc(r: real): (t: int)
    ensures 0.0 <= r ==> 0 <= t && t as real <= r < t as real + 1.0
    ensures r < 0.0 ==> t <= 0 && t as real - 1.0 < r <= t as real
  {
    if 0.0 <= r then r.Floor else -((-r).Floor)
  }

  /** Truncation leaves a value that is already integral unchanged. */
  lemma TruncOfIntegral(n: int)
    ensures Trunc(n as real) == n
  {
  }
}
