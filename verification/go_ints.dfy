/** Go's fixed-width integer types, and the wrap-around of its int32 negation. */
module GoInts {

  /** Go's int32. */
  type Int32 = x: int | -0x8000_0000 <= x < 0x8000_0000

  /** Go's int64. */
  type Int64 = x: int | -0x8000_0000_0000_0000 <= x < 0x8000_0000_0000_0000

  const MinInt32: Int32 := -0x8000_0000

  /** Go's unary minus on int32: it wraps at the most negative value. */
  function Neg32(x: Int32): (r: Int32)
    ensures x != MinInt32 ==> r == -x
    ensures x == MinInt32 ==> r == x
  {
    if x == MinInt32 then x else -x
  }
}
