/** Go's 64-bit words, durations and saturating time subtraction, and the three math/bits primitives the limiter uses. */
module MachineWords {
  const TWO_63: int := 0x8000_0000_0000_0000
  const TWO_64: int := 0x1_0000_0000_0000_0000
  const MAX_INT64: int := TWO_63 - 1

  type Uint64 = x: int | 0 <= x < TWO_64
  type Int64 = x: int | -TWO_63 <= x < TWO_63

  /** time.Duration counts nanoseconds. */
  const SECOND: int := 1_000_000_000
  const MINUTE: int := 60 * SECOND
  const HOUR: int := 60 * MINUTE

  function Min(a: int, b: int): int {
    if a < b then a else b
  }

  function Max(a: int, b: int): int {
    if a < b then b else a
  }

  /** Go's Time.Sub: the difference of two instants, saturated to an int64. */
  function TimeSub(t: int, u: int): (d: Int64)
    ensures -TWO_63 <= t - u < TWO_63 ==> d == t - u
    ensures t - u >= TWO_63 ==> d == MAX_INT64
    ensures t - u < -TWO_63 ==> d == -TWO_63
  {
    Max(-TWO_63, Min(t - u, MAX_INT64))
  }

  /** Two's-complement reinterpretation of an exact integer in 64 signed bits. */
  function WrapInt64(x: int): (r: Int64)
    ensures (r - x) % TWO_64 == 0
  {
    var m := x % TWO_64;
    if m < TWO_63 then m else m - TWO_64
  }

  lemma MulBound(x: int, y: int, a: int, b: int)
    requires 0 <= x <= a && 0 <= y <= b
    ensures 0 <= x * y <= a * b
  {
  }

  /** Full 128-bit product. */
  method Mul64(x: Uint64, y: Uint64) returns (hi: Uint64, lo: Uint64)
    ensures hi * TWO_64 + lo == x * y
  {
    MulBound(x, y, TWO_64 - 1, TWO_64 - 1);
    var product := x * y;
    return product / TWO_64, product % TWO_64;
  }

  /** Sum and carry-out. */
  method Add64(x: Uint64, y: Uint64, carry: Uint64) returns (sum: Uint64, carryOut: Uint64)
    requires carry <= 1
    ensures carryOut * TWO_64 + sum == x + y + carry && carryOut <= 1
  {
    return (x + y + carry) % TWO_64, (x + y + carry) / TWO_64;
  }

  lemma QuotientFits(hi: int, lo: int, y: int)
    requires 0 <= hi < y && 0 <= lo < TWO_64
    ensures 0 <= (hi * TWO_64 + lo) / y < TWO_64
  {
  }

  /** 128-by-64 division. Go panics unless y != 0 and hi < y. */
  method Div64(hi: Uint64, lo: Uint64, y: Uint64) returns (quo: Uint64, rem: Uint64)
    requires hi < y
    ensures quo * y + rem == hi * TWO_64 + lo && rem < y
  {
    QuotientFits(hi, lo, y);
    var n: int := hi * TWO_64 + lo;
    return n / y, n % y;
  }
}
