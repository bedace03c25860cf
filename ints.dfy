/** The fixed-width unsigned and signed integers of the source, as subset
    types of the unbounded integers. Every narrowing cast (`as u8`, `as u32`)
    is written out with the functions below. */
module Ints {

  const U8Limit: nat := 0x100
  const U32Limit: nat := 0x1_0000_0000
  const U64Limit: nat := 0x1_0000_0000_0000_0000

  type u8 = x: nat | x < U8Limit
  type u32 = x: nat | x < U32Limit
  type u64 = x: nat | x < U64Limit
  type i32 = x: int | -0x8000_0000 <= x < 0x8000_0000

  /** Rust's `x as u8` on an unsigned value: keep the low 8 bits. */
  function AsU8(x: nat): (r: u8)
    ensures (x - r) % U8Limit == 0
    ensures x < U8Limit ==> r == x
  {
    x % U8Limit
  }

  /** Rust's `x as u32` on an unsigned value: keep the low 32 bits. */
  function AsU32(x: nat): (r: u32)
    ensures (x - r) % U32Limit == 0
    ensures x < U32Limit ==> r == x
  {
    x % U32Limit
  }
}
