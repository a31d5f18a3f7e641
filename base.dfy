// Fixed-width integer types of the program and the Option wrapper the
// models return where the source returns a nullable value.

module NumTypes {

  const U32_LIMIT: int := 0x1_0000_0000
  const U64_LIMIT: int := 0x1_0000_0000_0000_0000
  const S64_MIN: int := -0x8000_0000_0000_0000
  const S64_MAX: int := 0x7FFF_FFFF_FFFF_FFFF

  type u32 = x: int | 0 <= x < U32_LIMIT
  type u64 = x: int | 0 <= x < U64_LIMIT
  type s64 = x: int | S64_MIN <= x <= S64_MAX

  /** Unsigned 64-bit `a + b`: wraps around modulo 2^64. */
  function WrapAdd64(a: u64, b: u64): (r: u64)
    ensures a + b < U64_LIMIT ==> r == a + b
    ensures a + b >= U64_LIMIT ==> r == a + b - U64_LIMIT
  {
    (a + b) % U64_LIMIT
  }

  /** Unsigned 64-bit `a - b`: wraps around modulo 2^64. */
  function WrapSub64(a: u64, b: u64): (r: u64)
    ensures b <= a ==> r == a - b
    ensures a < b ==> r == a - b + U64_LIMIT
  {
    (a - b) % U64_LIMIT
  }

  /** Conversion of a value to u32 by truncation (keeps the low 32 bits). */
  function TruncU32(x: int): (r: u32)
    ensures 0 <= x < U32_LIMIT ==> r == x
    ensures U32_LIMIT <= x < 2 * U32_LIMIT ==> r == x - U32_LIMIT
  {
    x % U32_LIMIT
  }
}

module Wrappers {

  datatype Option<+T> = None | Some(value: T)
}
