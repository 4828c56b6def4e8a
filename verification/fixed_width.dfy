/** Machine integer widths used by the store's Rust code, and Rust's
    truncating signed division. Dafny's `int` is unbounded and its `/` and
    `%` are Euclidean, so both are written out here. */
module FixedWidth {

  const INT32_MIN: int := -0x8000_0000
  const INT32_MAX: int := 0x7FFF_FFFF
  const INT64_MIN: int := -0x8000_0000_0000_0000
  const INT64_MAX: int := 0x7FFF_FFFF_FFFF_FFFF
  const UINT32_MAX: int := 0xFFFF_FFFF

  /** Rust `i32`, `i64` and `u32`. */
  type int32 = x: int | INT32_MIN <= x <= INT32_MAX
  type int64 = x: int | INT64_MIN <= x <= INT64_MAX
  type uint32 = x: int | 0 <= x <= UINT32_MAX

  predicate InInt32(x: int) {
    INT32_MIN <= x <= INT32_MAX
  }

  predicate InInt64(x: int) {
    INT64_MIN <= x <= INT64_MAX
  }

  function Abs(x: int): nat {
    if x < 0 then -x else x
  }

  /** Signed division rounding toward zero (Rust `/` on `i32`/`i64`). */
  function TDiv(a: int, b: int): (q: int)
    requires b > 0
    ensures Abs(q) * b <= Abs(a) < (Abs(q) + 1) * b
    ensures a >= 0 ==> q >= 0
    ensures a <= 0 ==> q <= 0
  {
    if a >= 0 then
      DivBounds(a, b);
      a / b
    else
      DivBounds(-a, b);
      -((-a) / b)
  }

  /** Euclidean division of a non-negative number brackets it between two
      consecutive multiples of the divisor. */
  lemma DivBounds(a: nat, b: int)
    requires b > 0
    ensures 0 <= a / b
    ensures (a / b) * b <= a < (a / b + 1) * b
  {
    var q, r := a / b, a % b;
    assert a == q * b + r && 0 <= r < b;
    assert (q + 1) * b == q * b + b;
  }

  /** Remainder of truncating division (Rust `%`): it takes the sign of the
      dividend, never the sign of the divisor. */
  function TMod(a: int, b: int): (r: int)
    requires b > 0
    ensures TDiv(a, b) * b + r == a
    ensures Abs(r) < b
    ensures a >= 0 ==> r >= 0
    ensures a <= 0 ==> r <= 0
  {
    a - TDiv(a, b) * b
  }

  /** The cast `n as i32` of a `u32`: keeps the low 32 bits and reads them
      as two's complement, so values above `INT32_MAX` wrap to negatives. */
  function AsInt32(n: uint32): (r: int32)
    ensures (r - n) % 0x1_0000_0000 == 0
    ensures n <= INT32_MAX ==> r == n
    ensures n > INT32_MAX ==> r < 0
  {
    if n <= INT32_MAX then n else n - 0x1_0000_0000
  }
}
