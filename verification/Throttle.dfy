/** Throttle policy, Retry-After parsing and jittered backoff (client/throttle.go). */
module Throttle {
  import opened MachineWords
  import opened Wrappers

  const DEFAULT_429_RETRIES: int := 1
  const DEFAULT_403_RETRIES: int := 2
  const DEFAULT_BASE_BACKOFF: int := 500_000_000
  const DEFAULT_MAX_BACKOFF: int := 8 * SECOND
  const DEFAULT_RETRY_AFTER_CAP: int := 120 * SECOND
  const MAX_RETRY_AFTER_SECONDS: int := MAX_INT64 / SECOND

  datatype Policy = Policy(
    disabled: bool, max429: int, max403: int, baseBackoff: int, maxBackoff: int, retryAfterCap: int)
  {
    /** What the retry loop may rely on: budgets are counts, delays are positive and ordered. */
    ghost predicate IsResolved() {
      && 0 <= max429 && 0 <= max403
      && 0 < baseBackoff <= maxBackoff
      && 0 < retryAfterCap
    }

    ghost predicate FitsInt64() {
      && baseBackoff <= MAX_INT64 && maxBackoff <= MAX_INT64 && retryAfterCap <= MAX_INT64
    }
  }

  const DEFAULT_POLICY: Policy :=
    Policy(false, DEFAULT_429_RETRIES, DEFAULT_403_RETRIES, DEFAULT_BASE_BACKOFF, DEFAULT_MAX_BACKOFF,
           DEFAULT_RETRY_AFTER_CAP)

  /** The number of retries a raw count asks for: zero means the default, anything negative means none. */
  function BudgetOf(raw: int, default: int): int {
    if raw == 0 then default else Max(raw, 0)
  }

  function PositiveOr(raw: int, default: int): int {
    if raw > 0 then raw else default
  }

  function Resolved(p: Policy): Policy {
    var base := PositiveOr(p.baseBackoff, DEFAULT_BASE_BACKOFF);
    Policy(p.disabled,
           BudgetOf(p.max429, DEFAULT_429_RETRIES), BudgetOf(p.max403, DEFAULT_403_RETRIES),
           base, Max(PositiveOr(p.maxBackoff, DEFAULT_MAX_BACKOFF), base),
           PositiveOr(p.retryAfterCap, DEFAULT_RETRY_AFTER_CAP))
  }

  /** What the caller set is kept: switches, positive counts and delays, and zero retries for a negative count. */
  lemma SettingsKept(p: Policy)
    ensures
      var q := Resolved(p);
      && q.disabled == p.disabled
      && (p.max429 > 0 ==> q.max429 == p.max429) && (p.max429 < 0 ==> q.max429 == 0)
      && (p.max403 > 0 ==> q.max403 == p.max403) && (p.max403 < 0 ==> q.max403 == 0)
      && (p.baseBackoff > 0 ==> q.baseBackoff == p.baseBackoff)
      && (p.maxBackoff > 0 ==> q.maxBackoff == Max(p.maxBackoff, q.baseBackoff))
      && (p.retryAfterCap > 0 ==> q.retryAfterCap == p.retryAfterCap)
  {
  }

  /** What the caller left at zero gets the documented values: 1 and 2 retries, 500 ms, 8 s and 2 minutes. */
  lemma ZeroPolicyIsDocumented(disabled: bool)
    ensures Resolved(Policy(disabled, 0, 0, 0, 0, 0)) == Policy(disabled, 1, 2, 500_000_000, 8_000_000_000, 120_000_000_000)
    ensures Resolved(DEFAULT_POLICY) == DEFAULT_POLICY
  {
  }

  /** Resolution on a copy of the policy, field by field and in the source's order. */
  method Resolve(p: Policy) returns (q: Policy)
    ensures q == Resolved(p)
    ensures q.IsResolved()
    ensures q.disabled == p.disabled
    ensures p.max429 > 0 ==> q.max429 == p.max429
    ensures p.max403 > 0 ==> q.max403 == p.max403
    ensures p.max429 < 0 ==> q.max429 == 0
    ensures p.max403 < 0 ==> q.max403 == 0
    ensures p.baseBackoff > 0 ==> q.baseBackoff == p.baseBackoff
    ensures p.maxBackoff > 0 ==> q.maxBackoff == Max(p.maxBackoff, q.baseBackoff)
    ensures p.retryAfterCap > 0 ==> q.retryAfterCap == p.retryAfterCap
  {
    SettingsKept(p);
    q := p;
    if q.max429 == 0 {
      q := q.(max429 := DEFAULT_429_RETRIES);
    }
    if q.max429 < 0 {
      q := q.(max429 := 0);
    }
    if q.max403 == 0 {
      q := q.(max403 := DEFAULT_403_RETRIES);
    }
    if q.max403 < 0 {
      q := q.(max403 := 0);
    }
    if q.baseBackoff <= 0 {
      q := q.(baseBackoff := DEFAULT_BASE_BACKOFF);
    }
    if q.maxBackoff <= 0 {
      q := q.(maxBackoff := DEFAULT_MAX_BACKOFF);
    }
    if q.maxBackoff < q.baseBackoff {
      q := q.(maxBackoff := q.baseBackoff);
    }
    if q.retryAfterCap <= 0 {
      q := q.(retryAfterCap := DEFAULT_RETRY_AFTER_CAP);
    }
  }

  /** Resolving again is harmless exactly when no retry class was switched off. */
  lemma ResolvingTwice(p: Policy)
    ensures Resolved(p).IsResolved()
    ensures p.FitsInt64() ==> Resolved(p).FitsInt64()
    ensures Resolved(Resolved(p)) == Resolved(p) <==> p.max429 >= 0 && p.max403 >= 0
  {
  }

  /** A class switched off is switched on again by resolving once more. */
  lemma ResolvingTwiceReenables()
    ensures
      var p := DEFAULT_POLICY.(max429 := -1);
      Resolved(p).max429 == 0 && Resolved(Resolved(p)).max429 == DEFAULT_429_RETRIES
  {
  }

  function Pow2(k: nat): int {
    if k == 0 then 1 else 2 * Pow2(k - 1)
  }

  lemma Pow2Values()
    ensures Pow2(5) == 32 && Pow2(10) == 1024 && Pow2(20) == 0x10_0000 && Pow2(30) == 0x4000_0000
  {
  }

  lemma {:induction false} Pow2Grows(j: nat, k: nat)
    requires j <= k
    ensures 1 <= Pow2(j) <= Pow2(k)
    decreases k
  {
    if k > 0 {
      if j < k {
        Pow2Grows(j, k - 1);
      } else {
        Pow2Grows(j - 1, k - 1);
      }
    }
  }

  function ShiftFor(retryN: int): nat
    requires retryN >= 1
  {
    Min(retryN - 1, 30)
  }

  /** The delay the documentation promises before jitter: doubling up to the cap. */
  function IdealNominal(base: int, max: int, retryN: int): int
    requires retryN >= 1
  {
    Min(base * Pow2(ShiftFor(retryN)), max)
  }

  /** The delay the code computes: a wrapping shift, replaced by the cap when not in (0, max]. */
  function Nominal(base: int, max: int, retryN: int): int
    requires retryN >= 1
  {
    var shifted := WrapInt64(base * Pow2(ShiftFor(retryN)));
    if shifted <= 0 || shifted > max then max else shifted
  }

  lemma WrapSmall(x: int)
    requires 0 <= x < TWO_64
    ensures WrapInt64(x) == if x < TWO_63 then x else x - TWO_64
  {
  }

  /** Up to 2^34 ns (about 17 s) no shift can wrap back into the positive range. */
  lemma NominalIsIdeal(base: int, max: int, retryN: int)
    requires 0 < base <= max <= MAX_INT64 && base <= 0x4_0000_0000 && retryN >= 1
    ensures Nominal(base, max, retryN) == IdealNominal(base, max, retryN)
    ensures 0 < Nominal(base, max, retryN) <= max
  {
    var p := Pow2(ShiftFor(retryN));
    Pow2Values();
    Pow2Grows(ShiftFor(retryN), 30);
    MulBound(base, p, 0x4_0000_0000, 0x4000_0000);
    MulBound(1, 1, base, p);
    if base * p < TWO_64 {
      WrapSmall(base * p);
    } else {
      assert base * p == TWO_64;
    }
  }

  lemma DoubleCapped(base: int, p: int, max: int)
    requires base > 0 && p > 0 && max > 0
    ensures Min(base * (2 * p), max) == Min(2 * Min(base * p, max), max)
  {
    assert base * (2 * p) == 2 * (base * p);
  }

  lemma IdealDoubles(base: int, max: int, retryN: int)
    requires 0 < base <= max && retryN >= 1
    ensures IdealNominal(base, max, 1) == base
    ensures retryN <= 30 ==> IdealNominal(base, max, retryN + 1) == Min(2 * IdealNominal(base, max, retryN), max)
    ensures retryN > 30 ==> IdealNominal(base, max, retryN + 1) == IdealNominal(base, max, retryN)
  {
    assert Pow2(0) == 1;
    if retryN <= 30 {
      Pow2Grows(0, retryN - 1);
      assert Pow2(retryN) == 2 * Pow2(retryN - 1);
      DoubleCapped(base, Pow2(retryN - 1), max);
    }
    hide Pow2;
  }

  /** Said without the shift: the first delay is the base, each of the next thirty doubles up to the cap, and then it stays. */
  lemma NominalDoubles(base: int, max: int, retryN: int)
    requires 0 < base <= max <= MAX_INT64 && base <= 0x4_0000_0000 && retryN >= 1
    ensures Nominal(base, max, 1) == base
    ensures retryN <= 30 ==> Nominal(base, max, retryN + 1) == Min(2 * Nominal(base, max, retryN), max)
    ensures retryN > 30 ==> Nominal(base, max, retryN + 1) == Nominal(base, max, retryN)
  {
    hide Nominal, IdealNominal;
    NominalIsIdeal(base, max, 1);
    NominalIsIdeal(base, max, retryN);
    NominalIsIdeal(base, max, retryN + 1);
    IdealDoubles(base, max, retryN);
  }

  lemma NominalNondecreasing(base: int, max: int, m: int, n: int)
    requires 0 < base <= max <= MAX_INT64 && base <= 0x4_0000_0000 && 1 <= m <= n
    ensures Nominal(base, max, m) <= Nominal(base, max, n)
  {
    NominalIsIdeal(base, max, m);
    NominalIsIdeal(base, max, n);
    Pow2Grows(ShiftFor(m), ShiftFor(n));
    MulBound(base, Pow2(ShiftFor(m)), base, Pow2(ShiftFor(n)));
  }

  /**
   * For an arbitrary base the computed delay is the promised one exactly when the
   * shifted word either did not have to be capped or was noticed by the guard.
   */
  lemma NominalIdealIff(base: int, max: int, retryN: int)
    requires 0 < base <= max <= MAX_INT64 && retryN >= 1
    ensures
      var exact := base * Pow2(ShiftFor(retryN));
      Nominal(base, max, retryN) == IdealNominal(base, max, retryN) <==>
        exact <= max || !(0 < WrapInt64(exact) < max)
  {
    Pow2Grows(0, ShiftFor(retryN));
    MulBound(1, 1, base, Pow2(ShiftFor(retryN)));
    var exact := base * Pow2(ShiftFor(retryN));
    if exact < TWO_64 {
      WrapSmall(exact);
    }
  }

  /** One nanosecond above the bound, the 31st retry waits a second instead of the cap. */
  lemma BoundOnBaseIsNeeded()
    ensures
      var base := 0x4_0000_0001;
      && Nominal(base, base, 31) == 0x4000_0000
      && IdealNominal(base, base, 31) == base
      && Nominal(base, base, 31) < Nominal(base, base, 1)
  {
    Pow2Values();
    var base := 0x4_0000_0001;
    assert base * Pow2(30) == TWO_64 + 0x4000_0000;
    assert Pow2(0) == 1;
  }

  /** Converting a non-negative real to an int64 truncates; out of range the language leaves the value open. */
  function ToDuration(x: real, outOfRange: Int64): (d: Int64)
    requires x >= 0.0
  {
    if x < TWO_63 as real then x.Floor else outOfRange
  }

  /** nominal scaled into [0.5, 1.5). */
  function Scaled(nominal: int, jitter: real): (x: real)
    requires nominal >= 0 && 0.0 <= jitter < 1.0
    ensures nominal as real * 0.5 <= x <= nominal as real * 1.5
    ensures nominal > 0 ==> x < nominal as real * 1.5
  {
    var n := nominal as real;
    ProductSigns(n, jitter);
    n * (0.5 + jitter)
  }

  lemma ProductSigns(n: real, jitter: real)
    requires n >= 0.0 && 0.0 <= jitter < 1.0
    ensures n * 0.5 <= n * (0.5 + jitter) <= n * 1.5
    ensures n > 0.0 ==> n * (0.5 + jitter) < n * 1.5
  {
  }

  function Jittered(nominal: int, max: int, jitter: real, outOfRange: Int64): int
    requires nominal >= 0 && 0.0 <= jitter < 1.0
  {
    var scaled := ToDuration(Scaled(nominal, jitter), outOfRange);
    if scaled < 0 then 0 else Min(scaled, max)
  }

  /** Every wait is between half and one and a half times the nominal delay, and never above the cap. */
  lemma JitterBounds(nominal: int, max: int, jitter: real, outOfRange: Int64)
    requires 0 < nominal <= max <= MAX_INT64 && 0.0 <= jitter < 1.0
    ensures 0 <= Jittered(nominal, max, jitter, outOfRange) <= max
    ensures 3 * nominal <= TWO_64 ==>
      nominal / 2 <= Jittered(nominal, max, jitter, outOfRange) <= Min(max, 3 * nominal / 2)
  {
  }

  /** The float-to-integer conversion is in range for every jitter exactly up to a third of 2^64. */
  lemma ConversionInRangeIff(nominal: int)
    requires 0 < nominal <= MAX_INT64
    ensures (forall j: real :: 0.0 <= j < 1.0 ==> Scaled(nominal, j) < TWO_63 as real) <==> 3 * nominal <= TWO_64
  {
    if 3 * nominal > TWO_64 {
      var n := nominal as real;
      var j := TWO_63 as real / n - 0.5;
      QuotientBetween(n);
      assert 0.0 <= j < 1.0;
      assert Scaled(nominal, j) == n * (0.5 + j) == TWO_63 as real;
    }
  }

  lemma QuotientBetween(n: real)
    requires 0.0 < n <= TWO_63 as real < n * 1.5
    ensures n * (TWO_63 as real / n) == TWO_63 as real
    ensures 1.0 <= TWO_63 as real / n < 1.5
  {
  }

  /** The wait is the jittered ideal delay, rounded down and capped. */
  lemma BackoffIsExact(base: int, max: int, retryN: int, jitter: real, outOfRange: Int64)
    requires 0 < base <= max <= MAX_INT64 && base <= 0x4_0000_0000 && retryN >= 1 && 0.0 <= jitter < 1.0
    requires 3 * IdealNominal(base, max, retryN) <= TWO_64
    ensures Nominal(base, max, retryN) > 0
    ensures Jittered(Nominal(base, max, retryN), max, jitter, outOfRange)
         == Min((IdealNominal(base, max, retryN) as real * (0.5 + jitter)).Floor, max)
  {
    NominalIsIdeal(base, max, retryN);
    hide Nominal, IdealNominal;
    var x := Scaled(Nominal(base, max, retryN), jitter);
    assert x <= Nominal(base, max, retryN) as real * 1.5;
  }

  /**
   * A backoff wait, said of the ideal delay: never above the cap, between half and one and a half times
   * the ideal, and exactly the jittered one rounded down. The bounds on base and delay are those above.
   */
  ghost predicate IsBackoff(base: int, max: int, retryN: int, jitter: real, wait: int)
    requires retryN >= 1
  {
    var ideal := IdealNominal(base, max, retryN);
    && 0 <= wait <= max
    && (base <= 0x4_0000_0000 && 3 * ideal <= TWO_64 ==>
          ideal / 2 <= wait <= Min(max, 3 * ideal / 2) && wait == Min((ideal as real * (0.5 + jitter)).Floor, max))
  }

  lemma BackoffIsDocumented(base: int, max: int, retryN: int, jitter: real, outOfRange: Int64)
    requires 0 < base <= max <= MAX_INT64 && retryN >= 1 && 0.0 <= jitter < 1.0
    ensures 0 < Nominal(base, max, retryN)
    ensures IsBackoff(base, max, retryN, jitter, Jittered(Nominal(base, max, retryN), max, jitter, outOfRange))
  {
    JitterBounds(Nominal(base, max, retryN), max, jitter, outOfRange);
    if base <= 0x4_0000_0000 {
      NominalIsIdeal(base, max, retryN);
      if 3 * IdealNominal(base, max, retryN) <= TWO_64 {
        BackoffIsExact(base, max, retryN, jitter, outOfRange);
      }
    }
    hide IdealNominal, Jittered;
  }

  method Backoff(base: int, max: int, retryN: int, jitter: real, outOfRange: Int64) returns (wait: int)
    requires 0 < base <= max <= MAX_INT64 && retryN >= 1 && 0.0 <= jitter < 1.0
    ensures wait == Jittered(Nominal(base, max, retryN), max, jitter, outOfRange)
    ensures 0 <= wait <= max
    ensures IsBackoff(base, max, retryN, jitter, wait)
  {
    BackoffIsDocumented(base, max, retryN, jitter, outOfRange);
    hide IsBackoff;
    var shift := Min(retryN - 1, 30);
    var nominal: int := WrapInt64(base * Pow2(shift));
    if nominal <= 0 || nominal > max {
      nominal := max;
    }
    assert nominal == Nominal(base, max, retryN);
    wait := ToDuration(Scaled(nominal, jitter), outOfRange);
    if wait < 0 {
      return 0;
    }
    if wait > max {
      wait := max;
    }
  }

  predicate IsDigit(c: char) {
    '0' <= c <= '9'
  }

  /** The delay-seconds grammar of section 10.2.3 of RFC 9110: one or more digits. */
  predicate IsDelaySeconds(v: string) {
    v != "" && forall i :: 0 <= i < |v| ==> IsDigit(v[i])
  }

  method DecimalDigits(v: string) returns (ok: bool)
    ensures ok <==> IsDelaySeconds(v)
    ensures ok <==> |v| > 0 && forall i :: 0 <= i < |v| ==> '0' <= v[i] <= '9'
  {
    if v == "" {
      return false;
    }
    for i := 0 to |v|
      invariant forall j :: 0 <= j < i ==> IsDigit(v[j])
    {
      if v[i] < '0' || v[i] > '9' {
        return false;
      }
    }
    return true;
  }

  /** The number a digit string denotes, at any length. */
  function ValueOf(v: string): nat
    requires forall i :: 0 <= i < |v| ==> IsDigit(v[i])
  {
    if v == "" then 0
    else
      assert IsDigit(v[|v| - 1]);
      10 * ValueOf(v[..|v| - 1]) + (v[|v| - 1] as int - '0' as int)
  }

  lemma {:induction false} LeadingZero(v: string)
    requires forall i :: 0 <= i < |v| ==> IsDigit(v[i])
    ensures forall i :: 0 <= i < |v| + 1 ==> IsDigit(("0" + v)[i])
    ensures ValueOf("0" + v) == ValueOf(v)
    decreases |v|
  {
    if v != "" {
      LeadingZero(v[..|v| - 1]);
      assert ("0" + v)[..|v|] == "0" + v[..|v| - 1];
    } else {
      assert ("0" + v)[..0] == "";
    }
  }

  /** strconv.ParseUint on a digit string: the value, or a range error beyond 64 bits. */
  function ParseUint(v: string): Option<Uint64>
    requires forall i :: 0 <= i < |v| ==> IsDigit(v[i])
  {
    if ValueOf(v) < TWO_64 then Some(ValueOf(v)) else None
  }

  /**
   * The header value (empty when absent) and what it denotes as an HTTP-date, if
   * anything. Some(d) is the source's (d, true); None is (0, false).
   */
  function ParseRetryAfter(v: string, date: Option<int>, now: int): Option<int> {
    if v == "" then None
    else if IsDelaySeconds(v) then
      match ParseUint(v)
      case None => Some(MAX_INT64)
      case Some(secs) => if secs > MAX_RETRY_AFTER_SECONDS then Some(MAX_INT64) else Some(secs * SECOND)
    else if date.Some? then Some(Max(TimeSub(date.value, now), 0))
    else None
  }

  /** Delay-seconds of any length are exact up to the saturation point and saturated beyond it. */
  lemma DelaySecondsAreExact(v: string, date: Option<int>, now: int)
    requires IsDelaySeconds(v)
    ensures ParseRetryAfter(v, date, now) == Some(Min(ValueOf(v) * SECOND, MAX_INT64))
  {
  }

  /**
   * Accepted are exactly delay-seconds and, otherwise, HTTP-dates. Delay-seconds mean their value up to
   * saturation, a date the time until it, and a past date zero.
   */
  method RetryAfter(v: string, date: Option<int>, now: int) returns (d: int, ok: bool)
    ensures ok <==> ParseRetryAfter(v, date, now).Some?
    ensures d == if ok then ParseRetryAfter(v, date, now).value else 0
    ensures ok <==> IsDelaySeconds(v) || (v != "" && date.Some?)
    ensures IsDelaySeconds(v) ==> d == Min(ValueOf(v) * SECOND, MAX_INT64)
    ensures ok && !IsDelaySeconds(v) ==> d == Max(TimeSub(date.value, now), 0)
    ensures 0 <= d <= MAX_INT64
  {
    if v == "" {
      return 0, false;
    }
    var digits := DecimalDigits(v);
    if digits {
      var secs := ParseUint(v);
      if secs == None || secs.value > MAX_RETRY_AFTER_SECONDS {
        return MAX_INT64, true;
      }
      return secs.value * SECOND, true;
    }
    if date.Some? {
      return Max(TimeSub(date.value, now), 0), true;
    }
    return 0, false;
  }
}
