/** Fixed-width integers and the saturating, wrapping and truncating operators
    that the node's arithmetic relies on. */
module Machine {
  const U64_MAX: int := 0xFFFF_FFFF_FFFF_FFFF
  const U64_COUNT: int := 0x1_0000_0000_0000_0000
  const I64_MAX: int := 0x7FFF_FFFF_FFFF_FFFF
  const I64_MIN: int := -0x8000_0000_0000_0000
  const I128_HALF: int := 0x8000_0000_0000_0000_0000_0000_0000_0000
  const U32_COUNT: int := 0x1_0000_0000
  const U8_MAX: int := 255

  type u8 = x: int | 0 <= x <= U8_MAX
  type u32 = x: int | 0 <= x < U32_COUNT
  type u64 = x: int | 0 <= x <= U64_MAX
  type i64 = x: int | I64_MIN <= x <= I64_MAX

  /** A millisecond timestamp from the host's clock. */
  type Millis = u64

  function Min(a: int, b: int): int { if a < b then a else b }

  function Max(a: int, b: int): int { if a < b then b else a }

  function AbsDiff(a: int, b: int): nat { if a < b then b - a else a - b }

  function SatAdd(a: u64, b: u64): u64 { Min(a + b, U64_MAX) }

  function SatSub(a: u64, b: u64): u64 { if a < b then 0 else a - b }

  function SatMul(a: u64, b: u64): u64
  {
    MulNonNegative(a, b);
    Min(a * b, U64_MAX)
  }

  lemma MulNonNegative(a: int, b: int)
    requires 0 <= a && 0 <= b
    ensures 0 <= a * b
  {
  }

  lemma MulMonotone(a: int, b: int, c: int)
    requires a <= b && 0 <= c
    ensures a * c <= b * c
  {
  }

  /** Elapsed time from `earlier` to `later`, zero when the clock ran backwards. */
  function Since(later: Millis, earlier: Millis): u64 { SatSub(later, earlier) }

  function WrapU64(x: int): u64 { x % U64_COUNT }

  function WrapI128(x: int): int { (x + I128_HALF) % (2 * I128_HALF) - I128_HALF }

  /** Division by a positive divisor that rounds toward zero. */
  function TruncDiv(x: int, d: int): int
    requires 0 < d
  {
    if x < 0 then -((-x) / d) else x / d
  }
}
