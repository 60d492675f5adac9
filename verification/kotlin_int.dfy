/** Kotlin's 32-bit `Int` and 64-bit `Long`, with the wrap-around of `+` and `-` written out. */
module KotlinInt {

  const INT_MIN: int := -0x8000_0000
  const INT_MAX: int := 0x7fff_ffff
  const INT_MODULUS: int := 0x1_0000_0000

  const LONG_MIN: int := -0x8000_0000_0000_0000
  const LONG_MAX: int := 0x7fff_ffff_ffff_ffff

  type Int32 = x: int | INT_MIN <= x <= INT_MAX
  type Int64 = x: int | LONG_MIN <= x <= LONG_MAX

  /**
   * The Int32 a sum or difference of two Int32 values wraps to: two's
   * complement truncation, which for such operands is at most one turn.
   */
  function Wrap32(x: int): (r: Int32)
    requires INT_MIN - INT_MODULUS <= x <= INT_MAX + INT_MODULUS
    ensures r == x || r == x - INT_MODULUS || r == x + INT_MODULUS
  {
    if x > INT_MAX then x - INT_MODULUS
    else if x < INT_MIN then x + INT_MODULUS
    else x
  }

  /** Kotlin `a + b` on Int. */
  function Add32(a: Int32, b: Int32): (r: Int32)
    ensures INT_MIN <= a + b <= INT_MAX ==> r == a + b
    ensures a + b > INT_MAX ==> r == a + b - INT_MODULUS
    ensures a + b < INT_MIN ==> r == a + b + INT_MODULUS
  {
    Wrap32(a + b)
  }

  /** Kotlin `a - b` on Int. */
  function Sub32(a: Int32, b: Int32): (r: Int32)
    ensures INT_MIN <= a - b <= INT_MAX ==> r == a - b
    ensures a - b > INT_MAX ==> r == a - b - INT_MODULUS
    ensures a - b < INT_MIN ==> r == a - b + INT_MODULUS
  {
    Wrap32(a - b)
  }

  /** Kotlin `coerceAtMost`: the smaller of the two. */
  function Min(a: int, b: int): (r: int)
    ensures r <= a && r <= b
    ensures r == a || r == b
  {
    if a <= b then a else b
  }
}
