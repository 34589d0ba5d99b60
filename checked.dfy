/** Fixed-width integers of the program and Rust's `checked_*` arithmetic on them.
    A `checked_*` call answers `None` where the exact result would leave the
    range; the handlers `unwrap()` that answer, so `None` means the instruction
    panics and the transaction aborts. */
module Checked {

  const U64_MAX: int := 0xFFFF_FFFF_FFFF_FFFF
  const I64_MIN: int := -0x8000_0000_0000_0000
  const I64_MAX: int := 0x7FFF_FFFF_FFFF_FFFF

  /** Rust's `u64`. */
  type U64 = x: int | 0 <= x <= U64_MAX

  /** Rust's `i64`, the type of a Unix timestamp. */
  type I64 = x: int | I64_MIN <= x <= I64_MAX

  datatype Option<+T> = None | Some(value: T)

  /** `a.checked_add(b)` on `u64`. */
  function CheckedAdd(a: U64, b: U64): (r: Option<U64>)
    ensures r.Some? <==> a + b <= U64_MAX
    ensures r.Some? ==> r.value == a + b
  {
    if a + b <= U64_MAX then Some(a + b) else None
  }

  /** `a.checked_sub(b)` on `u64`: fails exactly when the result would be negative. */
  function CheckedSub(a: U64, b: U64): (r: Option<U64>)
    ensures r.Some? <==> b <= a
    ensures r.Some? ==> r.value == a - b
  {
    if b <= a then Some(a - b) else None
  }

  /** `a.checked_mul(b)` on `u64`. */
  function CheckedMul(a: U64, b: U64): (r: Option<U64>)
    ensures r.Some? <==> a * b <= U64_MAX
    ensures r.Some? ==> r.value == a * b
  {
    if a * b <= U64_MAX then Some(a * b) else None
  }
}
