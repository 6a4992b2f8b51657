/** Fixed-width integers of the Rust source and the wrapping `as` casts between them.
    Dafny's integers are unbounded, so every width is a subset type and every cast
    that can wrap or truncate is written out. */
module Machine {

  const TWO_32: int := 0x1_0000_0000
  const TWO_64: int := 0x1_0000_0000_0000_0000

  type Byte = b: int | 0 <= b < 0x100
  type U32 = x: int | 0 <= x < 0x1_0000_0000
  type U64 = x: int | 0 <= x < 0x1_0000_0000_0000_0000
  type I32 = x: int | -0x8000_0000 <= x < 0x8000_0000
  type I64 = x: int | -0x8000_0000_0000_0000 <= x < 0x8000_0000_0000_0000

  /** `x as i32` for a `u32`: two's-complement reinterpretation. */
  function U32AsI32(x: U32): (r: I32)
    ensures r % TWO_32 == x % TWO_32
    ensures r >= 0 <==> x < 0x8000_0000
  {
    if x < 0x8000_0000 then x else x - TWO_32
  }

  /** `x as u32` for an `i32`. */
  function I32AsU32(x: I32): (r: U32)
    ensures r % TWO_32 == x % TWO_32
    ensures x >= 0 ==> r == x
  {
    if x >= 0 then x else x + TWO_32
  }

  /** `x as i64` for a `u64`. */
  function U64AsI64(x: U64): (r: I64)
    ensures r % TWO_64 == x % TWO_64
    ensures r >= 0 <==> x < 0x8000_0000_0000_0000
  {
    if x < 0x8000_0000_0000_0000 then x else x - TWO_64
  }

  /** `x as u64` for an `i64`. */
  function I64AsU64(x: I64): (r: U64)
    ensures r % TWO_64 == x % TWO_64
    ensures x >= 0 ==> r == x
  {
    if x >= 0 then x else x + TWO_64
  }

  /** `x as u32` for a `u64`: keeps the low 32 bits. */
  function U64AsU32(x: U64): (r: U32)
    ensures r % TWO_32 == x % TWO_32
    ensures x < TWO_32 ==> r == x
  {
    x % TWO_32
  }

  /** The signed reinterpretations are undone by the unsigned ones. */
  lemma CastsRoundTrip(a: U32, b: U64)
    ensures I32AsU32(U32AsI32(a)) == a
    ensures I64AsU64(U64AsI64(b)) == b
  {
  }
}
