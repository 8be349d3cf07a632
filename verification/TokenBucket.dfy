/**
 * The per-client token bucket (client/rate_limiter.go).
 *
 * A bucket is read as one exact number, its potential: tokens * interval + credit.
 * The specification works on that number alone; the class below keeps the
 * machine representation and does the 128-bit arithmetic.
 */
module TokenBucket {
  import opened MachineWords

  datatype Bucket = Bucket(capacity: int, interval: int, tokens: int, credit: int, lastRefill: int) {
    ghost predicate Valid() {
      && 0 < capacity <= MAX_INT64
      && 0 < interval <= MAX_INT64
      && 0 <= tokens <= capacity
      && 0 <= credit < interval
      && (tokens == capacity ==> credit == 0)
    }

    function Potential(): int {
      tokens * interval + credit
    }

    function Full(): int {
      capacity * interval
    }
  }

  /** The bucket that holds exactly the given potential. */
  function WithPotential(b: Bucket, p: int, now: int): Bucket
    requires b.interval > 0
  {
    b.(tokens := p / b.interval, credit := p % b.interval, lastRefill := now)
  }

  /** The exact rational bucket: capacity tokens are earned per interval, up to a full bucket. */
  function Refilled(b: Bucket, now: int): Bucket
    requires b.interval > 0
  {
    if now <= b.lastRefill then b
    else WithPotential(b, Min(b.Potential() + (now - b.lastRefill) * b.capacity, b.Full()), now)
  }

  lemma DivModUnique(p: int, d: int, q: int, r: int)
    requires d > 0 && 0 <= r < d && p == q * d + r
    ensures p / d == q && p % d == r
  {
    assert p == (p / d) * d + p % d;
    var k := p / d - q;
    assert k * d == r - p % d;
    if k >= 1 {
      MulBound(1, d, k, d);
    } else if k <= -1 {
      MulBound(1, d, -k, d);
    }
  }

  /** Token count and credit are determined by the potential, and only by it. */
  lemma PotentialDetermines(b: Bucket)
    requires b.Valid()
    ensures WithPotential(b, b.Potential(), b.lastRefill) == b
    ensures 0 <= b.Potential() <= b.Full()
    ensures b.tokens == b.capacity <==> b.Potential() == b.Full()
  {
    DivModUnique(b.Potential(), b.interval, b.tokens, b.credit);
    MulBound(b.tokens, b.interval, b.capacity, b.interval);
    if b.tokens < b.capacity {
      MulBound(b.tokens + 1, b.interval, b.capacity, b.interval);
      assert (b.tokens + 1) * b.interval == b.tokens * b.interval + b.interval;
    }
  }

  lemma QuotientBound(p: int, d: int, c: int)
    requires d > 0 && 0 <= p <= c * d
    ensures 0 <= p / d <= c
    ensures p / d == c ==> p % d == 0
    ensures (p / d) * d + p % d == p
  {
  }

  lemma WithPotentialValid(b: Bucket, p: int, now: int)
    requires b.Valid() && 0 <= p <= b.Full()
    ensures WithPotential(b, p, now).Valid()
    ensures WithPotential(b, p, now).Potential() == p
  {
    QuotientBound(p, b.interval, b.capacity);
  }

  /** Refilling keeps the invariant and adds exactly elapsed * capacity, cut at a full bucket. */
  lemma RefillIsExact(b: Bucket, now: int)
    requires b.Valid()
    ensures Refilled(b, now).Valid()
    ensures now <= b.lastRefill ==> Refilled(b, now) == b
    ensures now > b.lastRefill ==>
      && Refilled(b, now).Potential() == Min(b.Potential() + (now - b.lastRefill) * b.capacity, b.Full())
      && Refilled(b, now).lastRefill == now
    ensures Refilled(b, now).capacity == b.capacity && Refilled(b, now).interval == b.interval
  {
    PotentialDetermines(b);
    if now > b.lastRefill {
      MulBound(0, b.capacity, now - b.lastRefill, b.capacity);
      var p := Min(b.Potential() + (now - b.lastRefill) * b.capacity, b.Full());
      WithPotentialValid(b, p, now);
    }
  }

  ghost predicate Nondecreasing(ts: seq<int>) {
    forall i, j :: 0 <= i < j < |ts| ==> ts[i] <= ts[j]
  }

  function RefilledAt(b: Bucket, ts: seq<int>): Bucket
    requires b.interval > 0
    decreases |ts|
  {
    if ts == [] then b else RefilledAt(Refilled(b, ts[0]), ts[1..])
  }

  lemma MinTwice(p: int, full: int, n: int, d: int, e: int)
    requires n > 0 && d >= 0 && e >= 0
    ensures Min(Min(p + d * n, full) + e * n, full) == Min(p + (d + e) * n, full)
  {
  }

  /** Two refills in a row earn what one refill at the later instant earns. */
  lemma RefillTwice(b: Bucket, t: int, u: int)
    requires b.Valid() && t <= u
    ensures Refilled(Refilled(b, t), u) == Refilled(b, u)
  {
    if b.lastRefill < t < u {
      RefillIsExact(b, t);
      RefillIsExact(b, u);
      var m, v := Refilled(b, t), Refilled(b, u);
      RefillIsExact(m, u);
      MinTwice(b.Potential(), b.Full(), b.capacity, t - b.lastRefill, u - t);
      SamePotential(Refilled(m, u), v);
    }
  }

  lemma SamePotential(b: Bucket, c: Bucket)
    requires b.Valid() && c.Valid()
    requires b.(tokens := 0, credit := 0) == c.(tokens := 0, credit := 0)
    requires b.Potential() == c.Potential()
    ensures b == c
  {
    DivModUnique(b.Potential(), b.interval, b.tokens, b.credit);
    DivModUnique(c.Potential(), b.interval, c.tokens, c.credit);
  }

  /** No fractional credit is lost or created by polling, however often the bucket is refilled. */
  lemma {:induction false} PollingIsInvisible(b: Bucket, ts: seq<int>)
    requires b.Valid() && ts != [] && Nondecreasing(ts)
    ensures RefilledAt(b, ts) == Refilled(b, ts[|ts| - 1])
    decreases |ts|
  {
    if |ts| == 1 {
      assert ts[1..] == [];
    } else {
      RefillIsExact(b, ts[0]);
      PollingIsInvisible(Refilled(b, ts[0]), ts[1..]);
      RefillTwice(b, ts[0], ts[|ts| - 1]);
    }
  }

  datatype Outcome = Granted | Cancelled | Sleep(delay: int)

  /** The smallest whole delay after which an empty bucket holds a token. */
  ghost predicate IsLeastDelay(b: Bucket, delay: int)
    requires b.interval > 0
  {
    && 1 <= delay <= b.interval
    && forall t :: b.lastRefill <= t ==> (Refilled(b, t).tokens > 0 <==> b.lastRefill + delay <= t)
  }

  function CeilDiv(a: int, d: int): int
    requires d > 0
  {
    if a % d == 0 then a / d else a / d + 1
  }

  function DelayOf(b: Bucket): int
    requires b.capacity > 0
  {
    CeilDiv(b.interval - b.credit, b.capacity)
  }

  lemma CeilDivLeast(a: int, n: int, d: int)
    requires n > 0
    ensures CeilDiv(a, n) <= d <==> a <= d * n
  {
    var q, r := a / n, a % n;
    assert a == q * n + r;
    if d <= q {
      assert (q - d) * n >= 0 by { MulBound(0, n, q - d, n); }
      assert (q - d) * n == q * n - d * n;
    } else {
      assert (d - q - 1) * n >= 0 by { MulBound(0, n, d - q - 1, n); }
      assert (d - q - 1) * n == d * n - q * n - n;
    }
    if d < q {
      MulBound(1, n, q - d, n);
    }
  }

  lemma HasTokenIffPotential(b: Bucket)
    requires b.Valid()
    ensures b.tokens > 0 <==> b.Potential() >= b.interval
  {
    if b.tokens > 0 {
      MulBound(1, b.interval, b.tokens, b.interval);
    }
  }

  lemma EmptyBucketEarnsAt(b: Bucket, t: int)
    requires b.Valid() && b.tokens == 0 && b.lastRefill <= t
    ensures Refilled(b, t).tokens > 0 <==> b.interval - b.credit <= (t - b.lastRefill) * b.capacity
  {
    assert b.Potential() == b.credit;
    RefillIsExact(b, t);
    HasTokenIffPotential(Refilled(b, t));
    MulBound(1, b.interval, b.capacity, b.interval);
  }

  /** nextDelay waits exactly long enough: never too short, never longer than needed. */
  lemma DelayIsLeast(b: Bucket)
    requires b.Valid() && b.tokens == 0
    ensures IsLeastDelay(b, DelayOf(b))
  {
    var n, need := b.capacity, b.interval - b.credit;
    CeilDivLeast(need, n, 0);
    assert need <= b.interval * n by {
      MulBound(b.interval, 1, b.interval, n);
    }
    CeilDivLeast(need, n, b.interval);
    forall t | b.lastRefill <= t
      ensures Refilled(b, t).tokens > 0 <==> b.lastRefill + DelayOf(b) <= t
    {
      CeilDivLeast(need, n, t - b.lastRefill);
      EmptyBucketEarnsAt(b, t);
    }
  }

  /** One pass of Wait through its critical section, on the exact bucket. */
  function Section(b: Bucket, cancelled: bool, now: int): (Outcome, Bucket)
    requires b.interval > 0 && b.capacity > 0
  {
    if cancelled then (Cancelled, b)
    else
      var r := Refilled(b, now);
      if r.tokens > 0 then (Granted, r.(tokens := r.tokens - 1))
      else (Sleep(DelayOf(r)), r)
  }

  lemma SectionKeepsValid(b: Bucket, cancelled: bool, now: int)
    requires b.Valid()
    ensures Section(b, cancelled, now).1.Valid()
    ensures Section(b, cancelled, now).0 == Granted ==>
      Section(b, cancelled, now).1.Potential() == Refilled(b, now).Potential() - b.interval
  {
    RefillIsExact(b, now);
    var r := Refilled(b, now);
    assert (r.tokens - 1) * r.interval == r.tokens * r.interval - r.interval;
  }

  /**
   * A cancelled caller changes nothing; otherwise a token is handed out exactly if the refilled bucket has
   * one, and a caller sent to sleep is told the least delay after which the bucket it leaves has one.
   */
  lemma SectionMeaning(b: Bucket, cancelled: bool, now: int)
    requires b.Valid()
    ensures
      var (outcome, after) := Section(b, cancelled, now);
      var full := Refilled(b, now);
      && (outcome.Cancelled? <==> cancelled)
      && (outcome.Granted? <==> !cancelled && full.tokens > 0)
      && (outcome.Cancelled? ==> after == b)
      && (outcome.Granted? ==> after == full.(tokens := full.tokens - 1))
      && (outcome.Sleep? ==> after == full && full.tokens == 0 && IsLeastDelay(after, outcome.delay))
  {
    RefillIsExact(b, now);
    if !cancelled && Refilled(b, now).tokens == 0 {
      DelayIsLeast(Refilled(b, now));
    }
  }

  /** What one turn of Wait's loop meets: a context check, a clock reading, then which select arm wins. */
  datatype Turn = Turn(cancelled: bool, now: int, timerFired: bool)

  datatype WaitResult = Admitted | Aborted | Waiting

  /** Wait over a finite prefix of the turns its environment offers. */
  function WaitRun(b: Bucket, turns: seq<Turn>): (WaitResult, Bucket)
    requires b.Valid()
    decreases |turns|
  {
    if turns == [] then (Waiting, b)
    else
      var (outcome, after) := Section(b, turns[0].cancelled, turns[0].now);
      SectionKeepsValid(b, turns[0].cancelled, turns[0].now);
      match outcome
      case Granted => (Admitted, after)
      case Cancelled => (Aborted, after)
      case Sleep(_) => if turns[0].timerFired then WaitRun(after, turns[1..]) else (Aborted, after)
  }

  /** Something ends the wait on this turn, said of the bucket at the beginning alone. */
  ghost predicate EndsWait(b: Bucket, t: Turn)
    requires b.Valid()
  {
    t.cancelled || !t.timerFired || Refilled(b, t.now).tokens > 0
  }

  /**
   * Wait ends on the first turn that finds its context done, a token, or its sleep interrupted. It is
   * admitted if that turn finds a token and its context active, and aborted otherwise.
   */
  lemma {:induction false} WaitEndsFirst(b: Bucket, turns: seq<Turn>)
    requires b.Valid()
    requires forall i, j :: 0 <= i < j < |turns| ==> turns[i].now <= turns[j].now
    ensures (forall i :: 0 <= i < |turns| ==> !EndsWait(b, turns[i])) ==> WaitRun(b, turns).0 == Waiting
    ensures forall i :: 0 <= i < |turns| && EndsWait(b, turns[i]) && (forall j :: 0 <= j < i ==> !EndsWait(b, turns[j])) ==>
      WaitRun(b, turns).0 == if !turns[i].cancelled && Refilled(b, turns[i].now).tokens > 0 then Admitted else Aborted
    decreases |turns|
  {
    if turns != [] {
      var t, rest := turns[0], turns[1..];
      SectionMeaning(b, t.cancelled, t.now);
      if !EndsWait(b, t) {
        var after := Section(b, t.cancelled, t.now).1;
        SectionKeepsValid(b, t.cancelled, t.now);
        WaitEndsFirst(after, rest);
        forall i | 0 <= i < |rest| ensures EndsWait(after, rest[i]) == EndsWait(b, turns[i + 1])
          && Refilled(after, rest[i].now) == Refilled(b, turns[i + 1].now)
        {
          assert rest[i] == turns[i + 1];
          RefillTwice(b, t.now, turns[i + 1].now);
        }
        hide Refilled, Section, EndsWait;
        forall i | 0 <= i < |turns| && EndsWait(b, turns[i]) && (forall j :: 0 <= j < i ==> !EndsWait(b, turns[j]))
          ensures WaitRun(b, turns).0 == if !turns[i].cancelled && Refilled(b, turns[i].now).tokens > 0 then Admitted else Aborted
        {
          assert i > 0 && rest[i - 1] == turns[i];
          assert forall j :: 0 <= j < i - 1 ==> EndsWait(after, rest[j]) == EndsWait(b, turns[j + 1]);
        }
      }
    }
  }

  /** Only an admission takes a token: a Wait that aborts or is still waiting leaves at least what time alone earned. */
  lemma {:induction false} WaitTakesAtMostOneToken(b: Bucket, turns: seq<Turn>, end: int)
    requires b.Valid() && b.lastRefill <= end
    requires forall i :: 0 <= i < |turns| ==> turns[i].now <= end
    requires forall i, j :: 0 <= i < j < |turns| ==> turns[i].now <= turns[j].now
    ensures WaitRun(b, turns).1.Valid() && WaitRun(b, turns).1.lastRefill <= end
    ensures WaitRun(b, turns).0 != Admitted ==>
      Refilled(WaitRun(b, turns).1, end) == Refilled(b, end)
    ensures WaitRun(b, turns).0 == Admitted ==>
      exists i :: 0 <= i < |turns| && !turns[i].cancelled && Refilled(b, turns[i].now).tokens > 0
        && WaitRun(b, turns).1 == Section(b, false, turns[i].now).1
    decreases |turns|
  {
    if turns != [] {
      var t := turns[0];
      SectionKeepsValid(b, t.cancelled, t.now);
      RefillIsExact(b, t.now);
      RefillTwice(b, t.now, end);
      var (outcome, after) := Section(b, t.cancelled, t.now);
      if outcome.Sleep? && t.timerFired {
        var rest := turns[1..];
        WaitTakesAtMostOneToken(after, rest, end);
        if WaitRun(after, rest).0 == Admitted {
          var i :| 0 <= i < |rest| && !rest[i].cancelled && Refilled(after, rest[i].now).tokens > 0
            && WaitRun(after, rest).1 == Section(after, false, rest[i].now).1;
          assert rest[i] == turns[i + 1];
          RefillTwice(b, t.now, turns[i + 1].now);
        }
      } else if outcome.Granted? {
        assert 0 <= 0 < |turns|;
      }
    }
  }

  /** With nobody else taking tokens, a waiter whose timer runs its full delay is admitted on its second turn at the latest. */
  lemma UncontendedWaiterSleepsAtMostOnce(b: Bucket, turns: seq<Turn>)
    requires b.Valid() && |turns| >= 2
    requires forall i :: 0 <= i < 2 ==> !turns[i].cancelled && turns[i].timerFired
    requires b.lastRefill <= turns[0].now
    requires Section(b, false, turns[0].now).0.Sleep? ==>
      turns[1].now >= turns[0].now + Section(b, false, turns[0].now).0.delay
    ensures WaitRun(b, turns).0 == Admitted
  {
    RefillIsExact(b, turns[0].now);
    var (outcome, after) := Section(b, false, turns[0].now);
    if outcome.Sleep? {
      DelayIsLeast(after);
      assert Refilled(after, turns[1].now).tokens > 0;
      assert turns[1..][0] == turns[1];
      assert WaitRun(after, turns[1..]).0 == Admitted;
    }
  }

  /** elapsed < interval keeps the high word below the divisor, so neither the carry nor Div64 can fail. */
  lemma HighWordFits(elapsed: int, capacity: int, interval: int, credit: int, hi: int, lo: int)
    requires 0 < elapsed < interval <= MAX_INT64 && 0 < capacity <= MAX_INT64 && 0 <= credit < interval
    requires hi * TWO_64 + lo == elapsed * capacity + credit && 0 <= lo
    ensures hi < interval
  {
  }

  /** The 128-bit multiply, add and divide of refill; every math/bits precondition is met. */
  method Earn(elapsed: int, capacity: int, credit: int, interval: int) returns (earned: Uint64, rest: Uint64)
    requires 0 < elapsed < interval <= MAX_INT64 && 0 < capacity <= MAX_INT64 && 0 <= credit < interval
    ensures earned * interval + rest == elapsed * capacity + credit
    ensures rest < interval
  {
    var hi, low := Mul64(elapsed, capacity);
    var lo, carry := Add64(low, credit, 0);
    assert (hi + carry) * TWO_64 + lo == elapsed * capacity + credit;
    HighWordFits(elapsed, capacity, interval, credit, hi + carry, lo);
    hi := hi + carry;
    earned, rest := Div64(hi, lo, interval);
  }

  class RateLimiter {
    var tokens: int
    const maxTokens: int
    const interval: int
    var credit: int
    var lastRefill: int

    function Abs(): Bucket
      reads this
    {
      Bucket(maxTokens, interval, tokens, credit, lastRefill)
    }

    ghost predicate Valid()
      reads this
    {
      Abs().Valid()
    }

    constructor (maxTokens: int, interval: int, now: int)
      requires 0 < maxTokens <= MAX_INT64 && 0 < interval <= MAX_INT64
      ensures Valid()
      ensures Abs() == Bucket(maxTokens, interval, maxTokens, 0, now)
    {
      this.tokens := maxTokens;
      this.maxTokens := maxTokens;
      this.interval := interval;
      this.credit := 0;
      this.lastRefill := now;
    }

    /** The machine refill is exactly the rational bucket. */
    method Refill(now: int)
      requires Valid()
      modifies this`tokens, this`credit, this`lastRefill
      ensures Valid()
      ensures Abs() == Refilled(old(Abs()), now)
    {
      ghost var before := Abs();
      RefillIsExact(before, now);
      PotentialDetermines(before);
      var elapsed := TimeSub(now, lastRefill);
      if elapsed <= 0 {
        return;
      }
      lastRefill := now;
      if elapsed >= interval || tokens == maxTokens {
        FillsUp(before, now);
        tokens, credit := maxTokens, 0;
        return;
      }
      var earned, rest := Earn(elapsed, maxTokens, credit, interval);
      EarnedIsExact(before, now, earned, rest);
      if earned >= maxTokens - tokens {
        tokens, credit := maxTokens, 0;
        return;
      }
      tokens := tokens + earned;
      credit := rest;
    }

    /** ceil((interval - credit) / maxTokens), as the source computes it. */
    method NextDelay() returns (delay: int)
      requires Valid() && tokens == 0
      ensures delay == DelayOf(Abs())
      ensures IsLeastDelay(Abs(), delay)
    {
      var remaining := interval - credit;
      delay := remaining / maxTokens;
      if remaining % maxTokens != 0 {
        delay := delay + 1;
      }
      DelayIsLeast(Abs());
    }

    /** The locked part of one turn of Wait's loop. */
    method CheckIn(cancelled: bool, now: int) returns (outcome: Outcome)
      requires Valid()
      modifies this`tokens, this`credit, this`lastRefill
      ensures Valid()
      ensures (outcome, Abs()) == Section(old(Abs()), cancelled, now)
      ensures outcome.Cancelled? <==> cancelled
      ensures outcome.Cancelled? ==> Abs() == old(Abs())
      ensures outcome.Granted? <==> !cancelled && Refilled(old(Abs()), now).tokens > 0
      ensures outcome.Granted? ==> Abs().Potential() == Refilled(old(Abs()), now).Potential() - interval
      ensures outcome.Sleep? ==> Abs() == Refilled(old(Abs()), now) && IsLeastDelay(Abs(), outcome.delay)
    {
      SectionMeaning(Abs(), cancelled, now);
      SectionKeepsValid(Abs(), cancelled, now);
      if cancelled {
        return Cancelled;
      }
      Refill(now);
      if tokens > 0 {
        tokens := tokens - 1;
        return Granted;
      }
      var delay := NextDelay();
      return Sleep(delay);
    }

    method Wait(turns: seq<Turn>) returns (result: WaitResult)
      requires Valid()
      modifies this`tokens, this`credit, this`lastRefill
      ensures Valid()
      ensures (result, Abs()) == WaitRun(old(Abs()), turns)
    {
      var i := 0;
      while i < |turns|
        invariant 0 <= i <= |turns|
        invariant Valid()
        invariant WaitRun(old(Abs()), turns) == WaitRun(Abs(), turns[i..])
      {
        assert turns[i..][0] == turns[i] && turns[i..][1..] == turns[i + 1..];
        var outcome := CheckIn(turns[i].cancelled, turns[i].now);
        match outcome {
          case Granted => return Admitted;
          case Cancelled => return Aborted;
          case Sleep(_) =>
            if !turns[i].timerFired {
              return Aborted;
            }
        }
        i := i + 1;
      }
      return Waiting;
    }
  }

  lemma FillsUp(b: Bucket, now: int)
    requires b.Valid() && now > b.lastRefill
    requires now - b.lastRefill >= b.interval || b.tokens == b.capacity
    ensures Refilled(b, now) == b.(tokens := b.capacity, credit := 0, lastRefill := now)
  {
    PotentialDetermines(b);
    MulBound(0, b.capacity, now - b.lastRefill, b.capacity);
    if now - b.lastRefill >= b.interval {
      MulBound(b.interval, b.capacity, now - b.lastRefill, b.capacity);
    }
    DivModUnique(b.Full(), b.interval, b.capacity, 0);
  }

  lemma SumOfEarned(tokens: int, earned: int, interval: int, credit: int, rest: int, gain: int)
    requires earned * interval + rest == gain + credit
    ensures (tokens + earned) * interval + rest == tokens * interval + credit + gain
  {
  }

  lemma NonnegativeQuotient(earned: int, d: int, rest: int)
    requires d > 0 && rest < d && earned * d + rest >= 0
    ensures earned >= 0
  {
  }

  lemma BelowFull(q: int, capacity: int, interval: int, rest: int)
    requires 0 <= q < capacity && 0 <= rest < interval
    ensures q * interval + rest < capacity * interval
  {
    MulBound(q + 1, interval, capacity, interval);
  }

  lemma EarnedIsExact(b: Bucket, now: int, earned: int, rest: int)
    requires b.Valid() && b.lastRefill < now && b.tokens < b.capacity
    requires 0 <= rest < b.interval
    requires earned * b.interval + rest == (now - b.lastRefill) * b.capacity + b.credit
    ensures earned >= b.capacity - b.tokens ==>
      Refilled(b, now) == b.(tokens := b.capacity, credit := 0, lastRefill := now)
    ensures earned < b.capacity - b.tokens ==>
      Refilled(b, now) == b.(tokens := b.tokens + earned, credit := rest, lastRefill := now)
  {
    var gain := (now - b.lastRefill) * b.capacity;
    var q := b.tokens + earned;
    SumOfEarned(b.tokens, earned, b.interval, b.credit, rest, gain);
    MulBound(0, b.capacity, now - b.lastRefill, b.capacity);
    NonnegativeQuotient(earned, b.interval, rest);
    if earned >= b.capacity - b.tokens {
      MulBound(b.capacity, b.interval, q, b.interval);
      DivModUnique(b.Full(), b.interval, b.capacity, 0);
    } else {
      BelowFull(q, b.capacity, b.interval, rest);
      DivModUnique(b.Potential() + gain, b.interval, q, rest);
    }
  }
}
