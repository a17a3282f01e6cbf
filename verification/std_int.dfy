/**
 * Fixed-width integers of Rust as subsets of `int`, and the `as` casts between
 * them that the core uses. Rust's `as` between integer types keeps the low bits
 * (two's complement), which is what the casts below state.
 */
module StdInt {

  const TWO_8: int := 0x100
  const TWO_16: int := 0x1_0000
  const TWO_31: int := 0x8000_0000
  const TWO_32: int := 0x1_0000_0000
  const TWO_63: int := 0x8000_0000_0000_0000
  const TWO_64: int := 0x1_0000_0000_0000_0000

  type u8 = x: int | 0 <= x < 0x100
  type u16 = x: int | 0 <= x < 0x1_0000
  type u32 = x: int | 0 <= x < 0x1_0000_0000
  type u64 = x: int | 0 <= x < 0x1_0000_0000_0000_0000
  type i32 = x: int | -0x8000_0000 <= x < 0x8000_0000
  type i64 = x: int | -0x8000_0000_0000_0000 <= x < 0x8000_0000_0000_0000

  /** `x as i64` for a `u64`: the value with the same 64 bits. */
  function U64AsI64(x: u64): (r: i64)
    ensures (x - r) % TWO_64 == 0
    ensures x < TWO_63 ==> r == x
  {
    if x < TWO_63 then x else x - TWO_64
  }

  /** `x as u64` for an `i64`: the value with the same 64 bits. */
  function I64AsU64(x: i64): (r: u64)
    ensures (x - r) % TWO_64 == 0
    ensures 0 <= x ==> r == x
  {
    if x < 0 then x + TWO_64 else x
  }

  /** `x as u8` for an `i64`: the low 8 bits. */
  function I64AsU8(x: i64): (r: u8)
    ensures (x - r) % TWO_8 == 0
    ensures 0 <= x < TWO_8 ==> r == x
  {
    x % TWO_8
  }

  /** `x as u16` for an `i64`: the low 16 bits. */
  function I64AsU16(x: i64): (r: u16)
    ensures (x - r) % TWO_16 == 0
    ensures 0 <= x < TWO_16 ==> r == x
  {
    x % TWO_16
  }

  /** `x as i64` for a `u16`: a lossless widening. */
  function U16AsI64(x: u16): (r: i64)
    ensures r == x as int
  {
    x
  }

  /** The two reinterpretations between `u64` and `i64` are mutual inverses. */
  lemma U64I64RoundTrip(x: u64, y: i64)
    ensures I64AsU64(U64AsI64(x)) == x
    ensures U64AsI64(I64AsU64(y)) == y
  {
  }
}
