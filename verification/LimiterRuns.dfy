/**
 * Any number of callers, each running the retry loop of client/client.go, against one
 * token bucket. A step is one critical section of the limiter, a timer, a cancellation,
 * a clock tick, or one HTTP attempt; runs are arbitrary interleavings.
 */
module LimiterRuns {
  import opened MachineWords
  import opened Wrappers
  import opened TokenBucket
  import opened Counting
  import Throttle
  import RetryLoop

  /**
   * Checking: about to enter the critical section. Asleep: in the timer select since `seen`
   * tokens had been handed out; Awake: the timer fired and the bucket is about to be rechecked.
   * Holding: admitted with ticket number `ticket`, request not sent yet.
   */
  datatype Phase =
    | Checking
    | Asleep(until: int, seen: nat)
    | Awake(until: int, seen: nat)
    | Holding(ticket: nat)
    | BackingOff
    | Finished

  datatype Caller = Caller(phase: Phase, policy: Throttle.Policy, used: RetryLoop.Used, sent: nat)

  /** admissions: the clock reading of every token taken; attempts: the tickets of the requests sent. */
  datatype State = State(bucket: Bucket, clock: int, callers: seq<Caller>, admissions: seq<int>, attempts: seq<nat>)

  datatype Step =
    | Tick(to: int)
    | CheckIn(c: nat)
    | Fire(c: nat)
    | Cancel(c: nat)
    | Send(c: nat, status: Option<int>)
    | Discard(c: nat)
    | BackoffOver(c: nat)

  /** A fresh limiter and one caller for each raw throttle policy. */
  datatype Config = Config(capacity: int, interval: int, now: int, policies: seq<Throttle.Policy>) {
    ghost predicate Valid() {
      0 < capacity <= MAX_INT64 && 0 < interval <= MAX_INT64
    }

    function Start(): State {
      State(Bucket(capacity, interval, capacity, 0, now), now,
            seq(|policies|, i requires 0 <= i < |policies| =>
                  Caller(Checking, Throttle.Resolved(policies[i]), RetryLoop.Used(0, 0), 0)),
            [], [])
    }
  }

  predicate Can(s: State, l: Step) {
    match l
    case Tick(to) => s.clock <= to
    case CheckIn(c) => c < |s.callers| && (s.callers[c].phase.Checking? || s.callers[c].phase.Awake?)
    case Fire(c) => c < |s.callers| && s.callers[c].phase.Asleep? && s.callers[c].phase.until <= s.clock
    case Cancel(c) => c < |s.callers| && !s.callers[c].phase.Holding? && !s.callers[c].phase.Finished?
    case Send(c, _) => c < |s.callers| && s.callers[c].phase.Holding?
    case Discard(c) => c < |s.callers| && s.callers[c].phase.Holding?
    case BackoffOver(c) => c < |s.callers| && s.callers[c].phase.BackingOff?
  }

  function With(s: State, c: nat, p: Phase): State
    requires c < |s.callers|
  {
    s.(callers := s.callers[c := s.callers[c].(phase := p)])
  }

  /** A reply of this status is retried: the branch condition of the retry loop. */
  predicate Retries(caller: Caller, status: Option<int>) {
    && status.Some? && !caller.policy.disabled && RetryLoop.Throttleable(status.value)
    && caller.used.Of(status.value) < RetryLoop.Budget(caller.policy, status.value)
  }

  function AfterSend(caller: Caller, status: Option<int>): Caller {
    if Retries(caller, status)
    then caller.(phase := BackingOff, used := caller.used.Bump(status.value), sent := caller.sent + 1)
    else caller.(phase := Finished, sent := caller.sent + 1)
  }

  function Do(s: State, l: Step): State
    requires s.bucket.interval > 0 && s.bucket.capacity > 0 && Can(s, l)
  {
    match l
    case Tick(to) => s.(clock := to)
    case CheckIn(c) =>
      var (outcome, after) := Section(s.bucket, false, s.clock);
      (match outcome
       case Granted =>
         With(s.(bucket := after, admissions := s.admissions + [s.clock]), c, Holding(|s.admissions|))
       case Sleep(delay) => With(s.(bucket := after), c, Asleep(s.clock + delay, |s.admissions|))
       case Cancelled => s)
    case Fire(c) => With(s, c, Awake(s.callers[c].phase.until, s.callers[c].phase.seen))
    case Cancel(c) => With(s, c, Finished)
    case Send(c, status) =>
      s.(callers := s.callers[c := AfterSend(s.callers[c], status)],
         attempts := s.attempts + [s.callers[c].phase.ticket])
    case Discard(c) => With(s, c, Finished)
    case BackoffOver(c) => With(s, c, Checking)
  }

  lemma DoKeepsFrame(s: State, l: Step)
    requires s.bucket.Valid() && Can(s, l)
    ensures SameFrame(s, Do(s, l))
  {
    SectionKeepsValid(s.bucket, false, s.clock);
    RefillIsExact(s.bucket, s.clock);
  }

  /** What no step changes: the limit, the callers there are, and their policies. */
  ghost predicate SameFrame(s: State, t: State) {
    && t.bucket.Valid()
    && t.bucket.capacity == s.bucket.capacity && t.bucket.interval == s.bucket.interval
    && |t.callers| == |s.callers|
    && forall c :: 0 <= c < |s.callers| ==> t.callers[c].policy == s.callers[c].policy
  }

  ghost predicate Legal(s: State, ls: seq<Step>)
    requires s.bucket.Valid()
    decreases |ls|
  {
    ls == [] || (Can(s, ls[0]) && (DoKeepsFrame(s, ls[0]); Legal(Do(s, ls[0]), ls[1..])))
  }

  ghost function Exec(s: State, ls: seq<Step>): (t: State)
    requires s.bucket.Valid() && Legal(s, ls)
    ensures SameFrame(s, t)
    decreases |ls|
  {
    if ls == [] then s
    else
      DoKeepsFrame(s, ls[0]);
      Exec(Do(s, ls[0]), ls[1..])
  }

  // ---------- the bucket's ledger ----------

  /** Tokens taken since the i-th admission, plus what the bucket holds, never exceed a full bucket plus what time earned. */
  ghost predicate Ledger(s: State) {
    && s.bucket.Valid() && s.bucket.lastRefill <= s.clock
    && (forall i :: 0 <= i < |s.admissions| ==> s.admissions[i] <= s.bucket.lastRefill)
    && (forall i, j :: 0 <= i <= j < |s.admissions| ==> s.admissions[i] <= s.admissions[j])
    && (forall i :: 0 <= i < |s.admissions| ==> Owed(s, i))
    && (forall i, j :: 0 <= i <= j < |s.admissions| ==> Bounded(s, i, j))
  }

  ghost predicate Owed(s: State, i: nat)
    requires i < |s.admissions|
  {
    (|s.admissions| - i) * s.bucket.interval + s.bucket.Potential()
      <= s.bucket.Full() + (s.bucket.lastRefill - s.admissions[i]) * s.bucket.capacity
  }

  ghost predicate Bounded(s: State, i: nat, j: nat)
    requires i <= j < |s.admissions|
  {
    (j - i + 1) * s.bucket.interval <= s.bucket.Full() + (s.admissions[j] - s.admissions[i]) * s.bucket.capacity
  }

  lemma OwedGrows(count: int, interval: int, p: int, q: int, full: int, n: int, last: int, now: int, at: int)
    requires count * interval + p <= full + (last - at) * n
    requires q <= p + (now - last) * n
    ensures count * interval + q <= full + (now - at) * n
  {
  }

  lemma RefilledOwed(s: State, i: nat)
    requires Ledger(s) && i < |s.admissions|
    ensures Owed(s.(bucket := Refilled(s.bucket, s.clock)), i)
  {
    RefillIsExact(s.bucket, s.clock);
    if s.bucket.lastRefill < s.clock {
      assert Owed(s, i);
      OwedGrows(|s.admissions| - i, s.bucket.interval, s.bucket.Potential(),
                Refilled(s.bucket, s.clock).Potential(), s.bucket.Full(), s.bucket.capacity,
                s.bucket.lastRefill, s.clock, s.admissions[i]);
    }
  }

  lemma OwedAfterAdmission(count: int, interval: int, p: int, q: int, bound: int)
    requires count * interval + p <= bound && q == p - interval && q >= 0
    ensures (count + 1) * interval + q <= bound
    ensures (count + 1) * interval <= bound
  {
  }

  /** Admission turns what is owed into what is taken. */
  lemma AdmissionOwed(s: State, i: nat)
    requires Ledger(s) && i < |s.admissions|
    requires s.bucket.lastRefill == s.clock && s.bucket.tokens > 0
    ensures
      var t := s.(bucket := s.bucket.(tokens := s.bucket.tokens - 1), admissions := s.admissions + [s.clock]);
      Owed(t, i) && Bounded(t, i, |s.admissions|)
  {
    var b := s.bucket;
    var after := b.(tokens := b.tokens - 1);
    assert Owed(s, i);
    MulBound(0, b.interval, b.tokens - 1, b.interval);
    assert (b.tokens - 1) * b.interval == b.tokens * b.interval - b.interval;
    OwedAfterAdmission(|s.admissions| - i, b.interval, b.Potential(), after.Potential(),
                       b.Full() + (s.clock - s.admissions[i]) * b.capacity);
  }

  lemma RefillKeepsLedger(s: State)
    requires Ledger(s)
    ensures Ledger(s.(bucket := Refilled(s.bucket, s.clock)))
    ensures Refilled(s.bucket, s.clock).lastRefill == s.clock
  {
    var t := s.(bucket := Refilled(s.bucket, s.clock));
    RefillIsExact(s.bucket, s.clock);
    forall i | 0 <= i < |t.admissions| ensures Owed(t, i) {
      RefilledOwed(s, i);
    }
    forall i, j | 0 <= i <= j < |t.admissions| ensures Bounded(t, i, j) {
      assert Bounded(s, i, j);
    }
  }

  lemma NewAdmissionOwed(s: State)
    requires Ledger(s) && s.bucket.lastRefill == s.clock && s.bucket.tokens > 0
    ensures
      var t := s.(bucket := s.bucket.(tokens := s.bucket.tokens - 1), admissions := s.admissions + [s.clock]);
      t.bucket.Valid() && Owed(t, |s.admissions|) && Bounded(t, |s.admissions|, |s.admissions|)
  {
    var b := s.bucket;
    var after := b.(tokens := b.tokens - 1);
    PotentialDetermines(b);
    PotentialDetermines(after);
    OwedAfterAdmission(0, b.interval, b.Potential(), after.Potential(), b.Full());
  }

  lemma AdmitKeepsLedger(s: State)
    requires Ledger(s) && s.bucket.lastRefill == s.clock && s.bucket.tokens > 0
    ensures Ledger(s.(bucket := s.bucket.(tokens := s.bucket.tokens - 1), admissions := s.admissions + [s.clock]))
  {
    var b, n := s.bucket, |s.admissions|;
    var t := s.(bucket := b.(tokens := b.tokens - 1), admissions := s.admissions + [s.clock]);
    forall i | 0 <= i < n ensures Owed(t, i) && Bounded(t, i, n) {
      AdmissionOwed(s, i);
    }
    forall i, j | 0 <= i <= j < n ensures Bounded(t, i, j) {
      assert Bounded(s, i, j);
    }
    NewAdmissionOwed(s);
    hide Owed, Bounded;
    forall i, j | 0 <= i <= j < |t.admissions| ensures Bounded(t, i, j) {
      assert j < n || (j == n && (i < n || i == n));
    }
  }

  lemma CheckInKeepsLedger(s: State, c: nat)
    requires Ledger(s) && Can(s, CheckIn(c))
    ensures Ledger(Do(s, CheckIn(c)))
  {
    var r := s.(bucket := Refilled(s.bucket, s.clock));
    RefillKeepsLedger(s);
    if r.bucket.tokens > 0 {
      AdmitKeepsLedger(r);
    }
    hide Refilled;
    LedgerIgnoresCallers(if r.bucket.tokens > 0
                         then r.(bucket := r.bucket.(tokens := r.bucket.tokens - 1), admissions := r.admissions + [r.clock])
                         else r, Do(s, CheckIn(c)));
  }

  lemma LedgerIgnoresCallers(s: State, t: State)
    requires Ledger(s) && t.bucket == s.bucket && t.admissions == s.admissions && s.clock <= t.clock
    ensures Ledger(t)
  {
    forall i | 0 <= i < |t.admissions| ensures Owed(t, i) {
      assert Owed(s, i);
    }
    forall i, j | 0 <= i <= j < |t.admissions| ensures Bounded(t, i, j) {
      assert Bounded(s, i, j);
    }
  }

  lemma StepKeepsLedger(s: State, l: Step)
    requires Ledger(s) && Can(s, l)
    ensures Ledger(Do(s, l))
  {
    if l.CheckIn? {
      CheckInKeepsLedger(s, l.c);
    } else {
      hide Ledger;
      LedgerIgnoresCallers(s, Do(s, l));
    }
  }

  // ---------- tickets: one token per attempt ----------

  ghost predicate Tickets(s: State) {
    && (forall a :: 0 <= a < |s.attempts| ==> s.attempts[a] < |s.admissions|)
    && (forall a, b :: 0 <= a < b < |s.attempts| ==> s.attempts[a] != s.attempts[b])
    && (forall c :: 0 <= c < |s.callers| && s.callers[c].phase.Holding? ==>
          s.callers[c].phase.ticket < |s.admissions| && s.callers[c].phase.ticket !in s.attempts)
    && (forall c, d :: 0 <= c < d < |s.callers| && s.callers[c].phase.Holding? && s.callers[d].phase.Holding? ==>
          s.callers[c].phase.ticket != s.callers[d].phase.ticket)
  }

  lemma StepKeepsTickets(s: State, l: Step)
    requires s.bucket.Valid() && Tickets(s) && Can(s, l)
    ensures Tickets(Do(s, l))
  {
    hide Section;
  }

  // ---------- sleepers ----------

  /** Unless a token was handed out meanwhile, the bucket holds one at the instant a sleeper asked for. */
  ghost predicate EarnsBy(b: Bucket, until: int) {
    b.tokens == 0 && b.interval <= b.credit + (until - b.lastRefill) * b.capacity
  }

  ghost predicate Sleepers(s: State) {
    forall c :: 0 <= c < |s.callers| && (s.callers[c].phase.Asleep? || s.callers[c].phase.Awake?) ==>
      && (s.callers[c].phase.Awake? ==> s.callers[c].phase.until <= s.clock)
      && s.callers[c].phase.seen <= |s.admissions|
      && (s.callers[c].phase.seen == |s.admissions| ==> EarnsBy(s.bucket, s.callers[c].phase.until))
  }

  lemma EarnsByRefill(b: Bucket, now: int, until: int)
    requires b.Valid() && EarnsBy(b, until) && b.lastRefill <= now
    requires Refilled(b, now).tokens == 0
    ensures EarnsBy(Refilled(b, now), until) && now < until
  {
    RefillIsExact(b, now);
    HasTokenIffPotential(Refilled(b, now));
    MulBound(1, b.interval, b.capacity, b.interval);
    assert b.Potential() == b.credit;
    assert (until - b.lastRefill) * b.capacity == (until - now) * b.capacity + (now - b.lastRefill) * b.capacity;
    if until <= now {
      MulBound(0, b.capacity, now - until, b.capacity);
    }
  }

  lemma DelayEarns(b: Bucket)
    requires b.Valid() && b.tokens == 0
    ensures EarnsBy(b, b.lastRefill + DelayOf(b))
  {
  }

  lemma StepKeepsSleepers(s: State, l: Step)
    requires Ledger(s) && Sleepers(s) && Can(s, l)
    ensures Sleepers(Do(s, l))
  {
    var t := Do(s, l);
    if l.CheckIn? {
      var r := Refilled(s.bucket, s.clock);
      RefillIsExact(s.bucket, s.clock);
      if r.tokens == 0 {
        DelayEarns(r);
        forall c | 0 <= c < |t.callers| && c != l.c && (t.callers[c].phase.Asleep? || t.callers[c].phase.Awake?)
                   && t.callers[c].phase.seen == |t.admissions|
          ensures EarnsBy(t.bucket, t.callers[c].phase.until)
        {
          assert t.callers[c] == s.callers[c];
          EarnsByRefill(s.bucket, s.clock, s.callers[c].phase.until);
        }
      }
      hide EarnsBy, Refilled;
    }
  }

  // ---------- retry budgets ----------

  ghost predicate WithinBudget(caller: Caller) {
    && caller.policy.IsResolved()
    && caller.used.n429 <= caller.policy.max429 && caller.used.n403 <= caller.policy.max403
    && (caller.policy.disabled ==> caller.used == RetryLoop.Used(0, 0))
    && caller.sent <= caller.used.n429 + caller.used.n403 + (if caller.phase.Finished? then 1 else 0)
  }

  ghost predicate Inv(s: State) {
    && Ledger(s) && Tickets(s) && Sleepers(s)
    && forall c :: 0 <= c < |s.callers| ==> WithinBudget(s.callers[c])
  }

  lemma StepKeepsInv(s: State, l: Step)
    requires Inv(s) && Can(s, l)
    ensures Inv(Do(s, l))
  {
    StepKeepsLedger(s, l);
    StepKeepsTickets(s, l);
    StepKeepsSleepers(s, l);
    hide Ledger, Tickets, Sleepers, Section;
    assert forall c :: 0 <= c < |s.callers| ==> WithinBudget(s.callers[c]);
  }

  lemma StartInv(config: Config)
    requires config.Valid()
    ensures Inv(config.Start())
  {
  }

  lemma {:induction false} RunKeepsInv(s: State, ls: seq<Step>)
    requires Inv(s) && Legal(s, ls)
    ensures Inv(Exec(s, ls))
    decreases |ls|
  {
    if ls != [] {
      StepKeepsInv(s, ls[0]);
      hide Ledger, Tickets, Sleepers, Do;
      RunKeepsInv(Do(s, ls[0]), ls[1..]);
    }
  }

  ghost predicate Reaches(config: Config, ls: seq<Step>, s: State) {
    config.Valid() && Legal(config.Start(), ls) && s == Exec(config.Start(), ls)
  }

  lemma ReachableInv(config: Config, ls: seq<Step>, s: State)
    requires Reaches(config, ls, s)
    ensures Inv(s) && SameFrame(config.Start(), s)
  {
    StartInv(config);
    RunKeepsInv(config.Start(), ls);
  }

  // ---------- main results ----------

  /** The tickets of the attempts whose token was taken between two clock readings. */
  function AttemptsBetween(s: State, lo: int, hi: int): set<nat> {
    set t <- s.attempts | t < |s.admissions| && lo <= s.admissions[t] <= hi
  }

  /**
   * The published rate: between any two clock readings lo <= hi, over every caller and every
   * retry, at most capacity + (hi - lo) * capacity / interval attempts take a token.
   */
  lemma RateBound(config: Config, ls: seq<Step>, s: State, lo: int, hi: int)
    requires Reaches(config, ls, s) && lo <= hi
    ensures |AttemptsBetween(s, lo, hi)| * config.interval
              <= config.capacity * config.interval + (hi - lo) * config.capacity
  {
    ReachableInv(config, ls, s);
    var n, interval := config.capacity, config.interval;
    var window := AttemptsBetween(s, lo, hi);
    MulBound(0, n, hi - lo, n);
    MulBound(0, interval, n, interval);
    if window != {} {
      var i, j := Extremes(window);
      RangeSize(window, i, j);
      assert Bounded(s, i, j);
      hide Ledger, Tickets, Sleepers, AttemptsBetween;
      MulBound(|window|, interval, j - i + 1, interval);
      MulBound(s.admissions[j] - s.admissions[i], n, hi - lo, n);
    }
  }

  /** Every attempt spends a token of its own, so there are never more attempts than tokens taken. */
  lemma OneTokenPerAttempt(config: Config, ls: seq<Step>, s: State)
    requires Reaches(config, ls, s)
    ensures Distinct(s.attempts)
    ensures forall a :: 0 <= a < |s.attempts| ==> s.attempts[a] < |s.admissions|
    ensures |s.attempts| <= |s.admissions|
  {
    ReachableInv(config, ls, s);
    DistinctSize(s.attempts);
    if s.attempts != [] {
      assert s.attempts[0] < |s.admissions|;
      RangeSize(Elements(s.attempts), 0, |s.admissions| - 1);
    }
  }

  /** A waiter that wakes to an empty bucket was overtaken: somebody else took a token while it slept. */
  lemma WokenToEmptyWasOvertaken(config: Config, ls: seq<Step>, s: State, c: nat)
    requires Reaches(config, ls, s)
    requires c < |s.callers| && s.callers[c].phase.Awake?
    requires s.bucket.interval > 0 && s.bucket.capacity > 0 && Section(s.bucket, false, s.clock).0.Sleep?
    ensures s.callers[c].phase.seen < |s.admissions|
  {
    ReachableInv(config, ls, s);
    if s.callers[c].phase.seen == |s.admissions| {
      RefillIsExact(s.bucket, s.clock);
      EarnsByRefill(s.bucket, s.clock, s.callers[c].phase.until);
    }
  }

  /**
   * A caller sent to sleep wakes at the earliest instant at which the bucket it left holds a token: not a
   * nanosecond sooner, not a nanosecond later.
   */
  lemma SleepsUntilEarliest(config: Config, ls: seq<Step>, s: State, c: nat, at: int)
    requires Reaches(config, ls, s) && Can(s, CheckIn(c)) && s.bucket.Valid() && s.clock <= at
    ensures
      var t := Do(s, CheckIn(c));
      t.callers[c].phase.Asleep? ==>
        && t.bucket == Refilled(s.bucket, s.clock) && t.bucket.tokens == 0 && t.bucket.lastRefill == s.clock
        && (t.callers[c].phase.until <= at <==> Refilled(t.bucket, at).tokens > 0)
  {
    ReachableInv(config, ls, s);
    RefillIsExact(s.bucket, s.clock);
    SectionMeaning(s.bucket, false, s.clock);
  }

  function TotalSent(callers: seq<Caller>): nat {
    if callers == [] then 0 else callers[0].sent + TotalSent(callers[1..])
  }

  lemma {:induction false} TotalSentUpdate(callers: seq<Caller>, c: nat, to: Caller)
    requires c < |callers|
    ensures TotalSent(callers[c := to]) + callers[c].sent == TotalSent(callers) + to.sent
    decreases |callers|
  {
    if c == 0 {
      assert callers[c := to][1..] == callers[1..];
    } else {
      TotalSentUpdate(callers[1..], c - 1, to);
      assert callers[c := to][1..] == callers[1..][c - 1 := to];
    }
  }

  lemma StepCountsSent(s: State, l: Step)
    requires s.bucket.Valid() && Can(s, l)
    ensures TotalSent(Do(s, l).callers) + |s.attempts| == TotalSent(s.callers) + |Do(s, l).attempts|
  {
    hide Section;
    if !l.Tick? {
      TotalSentUpdate(s.callers, l.c, Do(s, l).callers[l.c]);
      assert Do(s, l).callers == s.callers[l.c := Do(s, l).callers[l.c]];
    }
  }

  lemma {:induction false} RunCountsSent(s: State, ls: seq<Step>)
    requires s.bucket.Valid() && Legal(s, ls)
    ensures TotalSent(Exec(s, ls).callers) + |s.attempts| == TotalSent(s.callers) + |Exec(s, ls).attempts|
    decreases |ls|
  {
    if ls != [] {
      DoKeepsFrame(s, ls[0]);
      StepCountsSent(s, ls[0]);
      hide Do;
      RunCountsSent(Do(s, ls[0]), ls[1..]);
    }
  }

  lemma {:induction false} NothingSent(callers: seq<Caller>)
    requires forall c :: 0 <= c < |callers| ==> callers[c].sent == 0
    ensures TotalSent(callers) == 0
    decreases |callers|
  {
    if callers != [] {
      NothingSent(callers[1..]);
    }
  }

  /** No request escapes the record the rate bound speaks of: the attempts are all the requests of all callers. */
  lemma EveryRequestIsRecorded(config: Config, ls: seq<Step>, s: State)
    requires Reaches(config, ls, s)
    ensures |s.attempts| == TotalSent(s.callers)
  {
    NothingSent(config.Start().callers);
    RunCountsSent(config.Start(), ls);
  }

  /** No interleaving makes a caller send more than its resolved policy allows. */
  lemma AttemptsPerCaller(config: Config, ls: seq<Step>, s: State, c: nat)
    requires Reaches(config, ls, s) && c < |config.policies|
    ensures c < |s.callers|
    ensures
      var policy := Throttle.Resolved(config.policies[c]);
      && s.callers[c].sent <= 1 + policy.max429 + policy.max403
      && (policy.disabled ==> s.callers[c].sent <= 1)
  {
    ReachableInv(config, ls, s);
    assert WithinBudget(s.callers[c]);
    assert config.Start().callers[c].policy == Throttle.Resolved(config.policies[c]);
  }

  /** A caller goes round again exactly when the retry loop of GetContext does. */
  lemma SendFollowsRetryLoop(caller: Caller, t: RetryLoop.Turn, id: nat, number: nat)
    requires caller.policy.IsResolved() && caller.policy.FitsInt64() && t.admitted
    ensures
      var d := RetryLoop.Decide(caller.policy, t, id, number, caller.used);
      var status := if t.reply.Some? then Some(t.reply.value.status) else None;
      && (d.Retry? <==> t.requestBuilt && t.slept && Retries(caller, status))
      && (d.Retry? ==> AfterSend(caller, status).used == caller.used.Bump(d.event.status))
  {
  }
}
