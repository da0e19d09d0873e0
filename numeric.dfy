/**
 * Kotlin's fixed-width integers and its integer operators, which differ from
 * Dafny's: `/` truncates toward zero, `%` takes the sign of the dividend, and
 * `Long.toInt()` keeps the low 32 bits.
 */
module Numeric {

  /** Kotlin `Int`: a 32-bit two's-complement integer. */
  type Int = x: int | -0x8000_0000 <= x < 0x8000_0000

  /** Kotlin `Long`: a 64-bit two's-complement integer. */
  type Long = x: int | -0x8000_0000_0000_0000 <= x < 0x8000_0000_0000_0000

  /** Kotlin `a / b` for a positive divisor: the quotient rounded toward zero. */
  function Quot(a: int, b: int): (q: int)
    requires b > 0
    ensures a >= 0 ==> 0 <= a - b * q < b
    ensures a < 0 ==> -b < a - b * q <= 0
  {
    if a >= 0 then a / b else -((-a) / b)
  }

  /** Kotlin `a % b` for a positive divisor: what `a / b` leaves, with the sign of `a`. */
  function Rem(a: int, b: int): (r: int)
    requires b > 0
    ensures r == a - b * Quot(a, b)
    ensures a >= 0 ==> 0 <= r < b
    ensures a < 0 ==> -b < r <= 0
  {
    if a >= 0 then a % b else -((-a) % b)
  }

  /** Kotlin `Long.toInt()`: the `Int` with the same low 32 bits. */
  function ToInt(x: Long): (r: Int)
    ensures (x - r) % 0x1_0000_0000 == 0
    ensures -0x8000_0000 <= x < 0x8000_0000 ==> r == x
  {
    (x + 0x8000_0000) % 0x1_0000_0000 - 0x8000_0000
  }
}
