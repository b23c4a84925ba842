/** Fixed-width unsigned integers of the firmware, and the u16 arithmetic Rust performs on them. */
module Ints {

  /** Rust's `u8`. */
  type u8 = x: int | 0 <= x < 0x100

  /** Rust's `u16`. */
  type u16 = x: int | 0 <= x < 0x1_0000

  const U16_MODULUS: int := 0x1_0000

  /** `a - b` on u16 in a release build: the difference wraps modulo 2^16. */
  function WrappingSub(a: u16, b: u16): (r: u16)
    ensures b <= a ==> r == a - b
    ensures a < b ==> r == a - b + U16_MODULUS
  {
    (a - b) % U16_MODULUS
  }

  /** `a * b` on u16 in a release build: the product wraps modulo 2^16. */
  function WrappingMul(a: u16, b: u16): u16
  {
    (a * b) % U16_MODULUS
  }

  /** `core::cmp::max` on u16. */
  function Max(a: u16, b: u16): (r: u16)
    ensures r >= a && r >= b && (r == a || r == b)
  {
    if a >= b then a else b
  }
}
