/** The fixed-width integer types of the Rust source, as bounded mathematical integers. */
module Ints {

  const U8_MAX: int := 0xFF
  const U16_MAX: int := 0xFFFF
  const U32_MAX: int := 0xFFFF_FFFF
  const I32_MIN: int := -0x8000_0000
  const I32_MAX: int := 0x7FFF_FFFF
  const I16_MIN: int := -0x8000
  const I16_MAX: int := 0x7FFF

  /** 2^32, the modulus of `Wrapping<u32>` arithmetic. */
  const TWO_32: int := 0x1_0000_0000

  type u8 = x: int | 0 <= x <= U8_MAX
  type u16 = x: int | 0 <= x <= U16_MAX
  type u32 = x: int | 0 <= x <= U32_MAX
  type i16 = x: int | I16_MIN <= x <= I16_MAX
  type i32 = x: int | I32_MIN <= x <= I32_MAX

  /** `x as u32` for an `i32`: reinterpretation of the two's-complement bits. */
  function I32AsU32(x: i32): (r: u32)
    ensures r == x || r == x + TWO_32
    ensures x >= 0 <==> r <= I32_MAX
  {
    if x >= 0 then x else x + TWO_32
  }

  /** `x as i32` for a `u32`: reinterpretation of the two's-complement bits. */
  function U32AsI32(x: u32): (r: i32)
    ensures I32AsU32(r) == x
  {
    if x <= I32_MAX then x else x - TWO_32
  }

  /** `i32` subtraction with wrap-around, as a release build computes it. */
  function WrapI32(x: int): (r: i32)
    ensures (r - x) % TWO_32 == 0
    ensures I32_MIN <= x <= I32_MAX ==> r == x
  {
    (x - I32_MIN) % TWO_32 + I32_MIN
  }
}
