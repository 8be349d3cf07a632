/**
 * The throttle retry loop of GetContext (client/client.go), over every behaviour
 * of the limiter, the transport, the clock, the jitter source and the sleeper.
 */
module RetryLoop {
  import opened MachineWords
  import opened Wrappers
  import opened Throttle

  const TOO_MANY_REQUESTS := 429
  const FORBIDDEN := 403
  const SERVICE_UNAVAILABLE := 503
  const MAINTENANCE_BODY := "\"The game is being updated.\""

  type Fraction = x: real | 0.0 <= x < 1.0 witness 0.0

  /** A reply as the transport hands it over; readable is whether reading its body to the end succeeds. */
  datatype Response = Response(status: int, retryAfter: string, date: Option<int>, body: string, readable: bool)

  /** Everything outside the loop that one turn of it meets. */
  datatype Turn = Turn(
    admitted: bool, requestBuilt: bool, reply: Option<Response>,
    now: int, jitter: Fraction, outOfRange: Int64, slept: bool)

  type Env = nat -> Turn

  datatype Event = Event(status: int, attempt: nat, wait: int, retryAfter: int, willRetry: bool)

  datatype Failure =
    | RateWaitFailed | RequestInvalid | TransportFailed | BodyUnreadable | Maintenance | BackoffAborted

  /** A delivered body is the connection's own, still open, or a copy held in memory. */
  datatype Body = Network(id: nat) | Memory(content: string)

  datatype Result = Delivered(response: Response, body: Body) | Failed(why: Failure) {
    predicate HasConnection() {
      Delivered? && body.Network?
    }
  }

  /** admissions: limiter waits that took a token; attempts: requests sent; replies: responses received. */
  datatype Trace = Trace(result: Result, events: seq<Event>, admissions: nat, attempts: nat, replies: nat)

  predicate Throttleable(status: int) {
    status == TOO_MANY_REQUESTS || status == FORBIDDEN
  }

  predicate IsSpace(c: char) {
    c in {' ', '\t', '\n', '\r', 0x0B as char, 0x0C as char, 0x85 as char, 0xA0 as char, 0x1680 as char,
          0x2028 as char, 0x2029 as char, 0x202F as char, 0x205F as char, 0x3000 as char}
    || 0x2000 <= c as int <= 0x200A
  }

  function TrimLeft(s: string): string {
    if s != "" && IsSpace(s[0]) then TrimLeft(s[1..]) else s
  }

  function TrimRight(s: string): string {
    if s != "" && IsSpace(s[|s| - 1]) then TrimRight(s[..|s| - 1]) else s
  }

  ghost predicate AllSpace(s: string) {
    forall i :: 0 <= i < |s| ==> IsSpace(s[i])
  }

  /** The body is the maintenance notice, with nothing but white space around it. */
  ghost predicate IsNotice(body: string) {
    exists left: string, right: string ::
      AllSpace(left) && AllSpace(right) && body == left + MAINTENANCE_BODY + right
  }

  lemma {:induction false} TrimLeftSplits(s: string) returns (left: string)
    ensures AllSpace(left) && s == left + TrimLeft(s)
  {
    left := "";
    if s != "" && IsSpace(s[0]) {
      left := TrimLeftSplits(s[1..]);
      left := [s[0]] + left;
    }
  }

  lemma {:induction false} TrimRightSplits(s: string) returns (right: string)
    ensures AllSpace(right) && s == TrimRight(s) + right
  {
    right := "";
    if s != "" && IsSpace(s[|s| - 1]) {
      right := TrimRightSplits(s[..|s| - 1]);
      right := right + [s[|s| - 1]];
    }
  }

  lemma {:induction false} TrimLeftDrops(left: string, s: string)
    requires AllSpace(left) && s != "" && !IsSpace(s[0])
    ensures TrimLeft(left + s) == s
    decreases |left|
  {
    if left != "" {
      TrimLeftDrops(left[1..], s);
      assert (left + s)[1..] == left[1..] + s;
    } else {
      assert left + s == s;
    }
  }

  lemma {:induction false} TrimRightDrops(s: string, right: string)
    requires AllSpace(right) && s != "" && !IsSpace(s[|s| - 1])
    ensures TrimRight(s + right) == s
    decreases |right|
  {
    if right != "" {
      var n := |right| - 1;
      TrimRightDrops(s, right[..n]);
      assert (s + right)[..|s + right| - 1] == s + right[..n];
    } else {
      assert s + right == s;
    }
  }

  lemma TrimDrops(left: string, s: string, right: string)
    requires AllSpace(left) && AllSpace(right) && s != "" && !IsSpace(s[0]) && !IsSpace(s[|s| - 1])
    ensures TrimRight(TrimLeft(left + s + right)) == s
  {
    assert left + s + right == left + (s + right);
    TrimLeftDrops(left, s + right);
    TrimRightDrops(s, right);
  }

  lemma TrimSplits(body: string) returns (left: string, right: string)
    ensures AllSpace(left) && AllSpace(right) && body == left + TrimRight(TrimLeft(body)) + right
  {
    left := TrimLeftSplits(body);
    right := TrimRightSplits(TrimLeft(body));
    assert body == left + (TrimRight(TrimLeft(body)) + right);
  }

  /** Trimming and comparing recognises exactly the notice surrounded by white space. */
  lemma TrimmedIsNotice(body: string)
    ensures TrimRight(TrimLeft(body)) == MAINTENANCE_BODY <==> IsNotice(body)
  {
    hide TrimLeft, TrimRight, AllSpace;
    var left, right := TrimSplits(body);
    if IsNotice(body) {
      var l: string, r: string :| AllSpace(l) && AllSpace(r) && body == l + MAINTENANCE_BODY + r;
      TrimDrops(l, MAINTENANCE_BODY, r);
    }
  }

  predicate IsMaintenance(r: Response) {
    r.status == SERVICE_UNAVAILABLE && r.readable && TrimRight(TrimLeft(r.body)) == MAINTENANCE_BODY
  }

  function Budget(policy: Policy, status: int): int {
    if status == TOO_MANY_REQUESTS then policy.max429
    else if status == FORBIDDEN then policy.max403
    else 0
  }

  function ReportedRetryAfter(r: Response, now: int): int {
    var parsed := ParseRetryAfter(r.retryAfter, r.date, now);
    if parsed.Some? then parsed.value else 0
  }

  /** The wait before the retryN-th retry of this status class. */
  function PlannedWait(policy: Policy, r: Response, retryN: int, turn: Turn): (int, int)
    requires policy.IsResolved() && policy.FitsInt64() && retryN >= 1
  {
    var parsed := ParseRetryAfter(r.retryAfter, r.date, turn.now);
    if r.status == TOO_MANY_REQUESTS && parsed.Some? then
      (Min(parsed.value, policy.retryAfterCap), parsed.value)
    else
      NominalInRange(policy.baseBackoff, policy.maxBackoff, retryN);
      (Jittered(Nominal(policy.baseBackoff, policy.maxBackoff, retryN), policy.maxBackoff, turn.jitter, turn.outOfRange), 0)
  }

  lemma NominalInRange(base: int, max: int, retryN: int)
    requires 0 < base <= max && retryN >= 1
    ensures 0 < Nominal(base, max, retryN) <= max
  {
  }

  lemma PlannedWaitBounds(policy: Policy, r: Response, retryN: int, turn: Turn)
    requires policy.IsResolved() && policy.FitsInt64() && retryN >= 1
    ensures 0 <= PlannedWait(policy, r, retryN, turn).0 <= Max(policy.retryAfterCap, policy.maxBackoff)
    ensures r.status != TOO_MANY_REQUESTS ==> PlannedWait(policy, r, retryN, turn).0 <= policy.maxBackoff
  {
  }

  /** The header is delay-seconds, or else an HTTP-date. */
  predicate AsksToWait(r: Response) {
    IsDelaySeconds(r.retryAfter) || (r.retryAfter != "" && r.date.Some?)
  }

  /** How long the server asks to wait: its seconds, saturated, or the time left until its date. */
  ghost predicate Asked(r: Response, now: int, delay: int) {
    && (IsDelaySeconds(r.retryAfter) ==> delay == Min(ValueOf(r.retryAfter) * SECOND, MAX_INT64))
    && (AsksToWait(r) && !IsDelaySeconds(r.retryAfter) ==> delay == Max(TimeSub(r.date.value, now), 0))
    && (!AsksToWait(r) ==> delay == 0)
  }

  lemma ReportedIsAsked(r: Response, now: int)
    ensures Asked(r, now, ReportedRetryAfter(r, now))
  {
    if IsDelaySeconds(r.retryAfter) {
      DelaySecondsAreExact(r.retryAfter, r.date, now);
    }
  }

  /**
   * The wait and the reported header value of a retry. A 429 that asks to wait gets what it asks, up to the
   * cap. Every other reply waits its exponential delay, the jitter taking it to between half and one and a
   * half times that, never above the cap.
   */
  ghost predicate WaitsAsDocumented(policy: Policy, r: Response, retryN: int, turn: Turn, wait: int, retryAfter: int)
    requires policy.IsResolved() && retryN >= 1
  {
    if r.status == 429 && AsksToWait(r) then
      Asked(r, turn.now, retryAfter) && wait == Min(retryAfter, policy.retryAfterCap)
    else
      retryAfter == 0 && IsBackoff(policy.baseBackoff, policy.maxBackoff, retryN, turn.jitter, wait)
  }

  lemma PlannedWaitIsDocumented(policy: Policy, r: Response, retryN: int, turn: Turn)
    requires policy.IsResolved() && policy.FitsInt64() && retryN >= 1
    ensures
      var (wait, retryAfter) := PlannedWait(policy, r, retryN, turn);
      WaitsAsDocumented(policy, r, retryN, turn, wait, retryAfter)
  {
    ReportedIsAsked(r, turn.now);
    BackoffIsDocumented(policy.baseBackoff, policy.maxBackoff, retryN, turn.jitter, turn.outOfRange);
    hide Nominal, IsBackoff, Jittered, ValueOf, ParseUint;
  }

  /** The retries used so far, one counter for each throttled status. */
  datatype Used = Used(n429: nat, n403: nat) {
    function Of(status: int): nat {
      if status == TOO_MANY_REQUESTS then n429 else n403
    }

    function Bump(status: int): Used {
      if status == TOO_MANY_REQUESTS then Used(n429 + 1, n403) else Used(n429, n403 + 1)
    }

    function Left(policy: Policy): nat {
      Max(policy.max429 - n429, 0) + Max(policy.max403 - n403, 0)
    }
  }

  /** How one turn ends. The counters say whether it took a token, sent a request, and got a reply. */
  datatype Decision =
    | Stop(result: Result, last: seq<Event>, took: nat, sent: nat, replied: nat)
    | Retry(event: Event)
  {
    function Events(): seq<Event> {
      match this
      case Stop(_, last, _, _, _) => last
      case Retry(e) => [e]
    }

    function Took(): nat {
      if Stop? then took else 1
    }

    function Sent(): nat {
      if Stop? then sent else 1
    }

    function Replied(): nat {
      if Stop? then replied else 1
    }

    predicate KeepsConnection() {
      Stop? && result.HasConnection()
    }
  }

  /** What becomes of a reply, the number-th of its call, whose body is connection id. */
  function Judge(policy: Policy, t: Turn, r: Response, id: nat, number: nat, used: Used): (d: Decision)
    requires policy.IsResolved() && policy.FitsInt64()
    ensures d.Took() == d.Sent() == d.Replied() == 1
    ensures d.KeepsConnection() ==> d.result.body.id == id && d.result.response == r
  {
    if r.status == SERVICE_UNAVAILABLE && !r.readable then Stop(Failed(BodyUnreadable), [], 1, 1, 1)
    else if IsMaintenance(r) then Stop(Failed(Maintenance), [], 1, 1, 1)
    else
      var body := if r.status == SERVICE_UNAVAILABLE then Memory(r.body) else Network(id);
      if policy.disabled || !Throttleable(r.status) then Stop(Delivered(r, body), [], 1, 1, 1)
      else if Budget(policy, r.status) <= used.Of(r.status) then
        Stop(Delivered(r, body), [Event(r.status, number, 0, ReportedRetryAfter(r, t.now), false)], 1, 1, 1)
      else
        var (wait, retryAfter) := PlannedWait(policy, r, used.Of(r.status) + 1, t);
        var event := Event(r.status, number, wait, retryAfter, true);
        if t.slept then Retry(event) else Stop(Failed(BackoffAborted), [event], 1, 1, 1)
  }

  function Decide(policy: Policy, t: Turn, id: nat, number: nat, used: Used): (d: Decision)
    requires policy.IsResolved() && policy.FitsInt64()
    ensures d.Retry? ==> used.Bump(d.event.status).Left(policy) < used.Left(policy)
  {
    if !t.admitted then Stop(Failed(RateWaitFailed), [], 0, 0, 0)
    else if !t.requestBuilt then Stop(Failed(RequestInvalid), [], 1, 0, 0)
    else if t.reply == None then Stop(Failed(TransportFailed), [], 1, 1, 0)
    else Judge(policy, t, t.reply.value, id, number, used)
  }

  /** The loop from its i-th turn on, after the given events and retries. */
  function Run(policy: Policy, env: Env, base: nat, i: nat, used: Used, events: seq<Event>): Trace
    requires policy.IsResolved() && policy.FitsInt64()
    decreases used.Left(policy)
  {
    match Decide(policy, env(i), base + i, i + 1, used)
    case Stop(result, last, took, sent, replied) =>
      Trace(result, events + last, i + took, i + sent, i + replied)
    case Retry(e) => Run(policy, env, base, i + 1, used.Bump(e.status), events + [e])
  }

  lemma RunStep(policy: Policy, env: Env, base: nat, i: nat, used: Used, events: seq<Event>)
    requires policy.IsResolved() && policy.FitsInt64()
    ensures
      var d := Decide(policy, env(i), base + i, i + 1, used);
      && (d.Retry? ==>
            Run(policy, env, base, i, used, events) == Run(policy, env, base, i + 1, used.Bump(d.event.status), events + [d.event]))
      && (d.Stop? ==>
            Run(policy, env, base, i, used, events) == Trace(d.result, events + d.last, i + d.took, i + d.sent, i + d.replied))
  {
    hide Decide;
  }

  /** How many of the first i replies carried this status. */
  function Seen(env: Env, status: int, i: nat): nat {
    if i == 0 then 0
    else Seen(env, status, i - 1) + if HasStatus(env(i - 1), status) then 1 else 0
  }

  predicate HasStatus(t: Turn, status: int) {
    t.reply.Some? && t.reply.value.status == status
  }

  /**
   * When a call ends, said without following the loop: at a turn that fails, that gets
   * a reply nobody retries, or whose status was already received as often as its budget allows.
   */
  ghost predicate Stops(policy: Policy, env: Env, i: nat) {
    var t := env(i);
    || !t.admitted || !t.requestBuilt || t.reply == None || !t.slept
    || policy.disabled
    || !Throttleable(t.reply.value.status)
    || Budget(policy, t.reply.value.status) <= Seen(env, t.reply.value.status, i)
  }

  /** What the observer hears about a turn whose reply is retried. */
  ghost predicate IsRetryEvent(policy: Policy, env: Env, i: nat, e: Event)
    requires policy.IsResolved() && policy.FitsInt64()
  {
    && env(i).reply.Some?
    && var r := env(i).reply.value;
    && e.status == r.status && Throttleable(r.status)
    && e.attempt == i + 1 && e.willRetry
    && (e.wait, e.retryAfter) == PlannedWait(policy, r, Seen(env, r.status, i) + 1, env(i))
  }

  /** Every retry event carries the documented wait. */
  lemma RetryEventWaits(policy: Policy, env: Env, i: nat, e: Event)
    requires policy.IsResolved() && policy.FitsInt64() && IsRetryEvent(policy, env, i, e)
    ensures env(i).reply.Some? && e.status in {429, 403} && e.status == env(i).reply.value.status
    ensures WaitsAsDocumented(policy, env(i).reply.value, Seen(env, e.status, i) + 1, env(i), e.wait, e.retryAfter)
  {
    var r := env(i).reply.value;
    PlannedWaitIsDocumented(policy, r, Seen(env, r.status, i) + 1, env(i));
    hide PlannedWait, WaitsAsDocumented;
  }

  /** The first k turns were all retried, and the observer heard exactly that. */
  ghost predicate Retried(policy: Policy, env: Env, k: nat, events: seq<Event>)
    requires policy.IsResolved() && policy.FitsInt64()
  {
    && |events| == k
    && (forall j: nat :: j < k ==> !Stops(policy, env, j))
    && (forall j: nat :: j < k ==> IsRetryEvent(policy, env, j, events[j]))
  }

  function SeenBoth(env: Env, i: nat): Used {
    Used(Seen(env, TOO_MANY_REQUESTS, i), Seen(env, FORBIDDEN, i))
  }

  /** What one turn does after i retried ones, in terms of Stops. */
  lemma TurnFollowsStops(policy: Policy, env: Env, base: nat, i: nat)
    requires policy.IsResolved() && policy.FitsInt64()
    ensures
      var d := Decide(policy, env(i), base + i, i + 1, SeenBoth(env, i));
      && (d.Retry? <==> !Stops(policy, env, i))
      && (d.Retry? ==>
            && IsRetryEvent(policy, env, i, d.event)
            && SeenBoth(env, i + 1) == SeenBoth(env, i).Bump(d.event.status))
  {
  }

  lemma MaintenanceIsNotThrottled(t: Turn)
    ensures t.reply.Some? && IsMaintenance(t.reply.value) ==> !Throttleable(t.reply.value.status)
  {
  }

  /** The loop ends at the first turn that Stops, and not before. */
  lemma {:induction false} LoopEndsWhereItStops(policy: Policy, env: Env, base: nat, i: nat, events: seq<Event>) returns (k: nat)
    requires policy.IsResolved() && policy.FitsInt64()
    requires Retried(policy, env, i, events)
    ensures i <= k && Stops(policy, env, k)
    ensures exists retried: seq<Event> ::
      && Retried(policy, env, k, retried) && events <= retried
      && EndsAt(policy, env, base, k, retried, Run(policy, env, base, i, SeenBoth(env, i), events))
    decreases SeenBoth(env, i).Left(policy)
  {
    hide PlannedWait, Decide;
    TurnFollowsStops(policy, env, base, i);
    var d := Decide(policy, env(i), base + i, i + 1, SeenBoth(env, i));
    match d {
      case Stop(result, last, took, sent, replied) =>
        k := i;
        assert EndsAt(policy, env, base, k, events, Run(policy, env, base, i, SeenBoth(env, i), events));
      case Retry(e) =>
        k := LoopEndsWhereItStops(policy, env, base, i + 1, events + [e]);
    }
  }

  /** The trace of a call whose last turn is the k-th, after the given retry events. */
  ghost predicate EndsAt(policy: Policy, env: Env, base: nat, k: nat, retried: seq<Event>, trace: Trace)
    requires policy.IsResolved() && policy.FitsInt64()
  {
    var d := Decide(policy, env(k), base + k, k + 1, SeenBoth(env, k));
    && d.Stop?
    && trace == Trace(d.result, retried + d.last, k + d.took, k + d.sent, k + d.replied)
  }

  lemma {:induction false} RetriesWithinBudget(policy: Policy, env: Env, k: nat, events: seq<Event>)
    requires policy.IsResolved() && policy.FitsInt64()
    requires Retried(policy, env, k, events)
    ensures Seen(env, TOO_MANY_REQUESTS, k) <= policy.max429
    ensures Seen(env, FORBIDDEN, k) <= policy.max403
    ensures k == Seen(env, TOO_MANY_REQUESTS, k) + Seen(env, FORBIDDEN, k)
    decreases k
  {
    if k > 0 {
      hide PlannedWait;
      assert !Stops(policy, env, k - 1);
      RetriesWithinBudget(policy, env, k - 1, events[..k - 1]);
    }
  }

  function TotalWait(events: seq<Event>): int {
    if events == [] then 0 else TotalWait(events[..|events| - 1]) + events[|events| - 1].wait
  }

  function WaitCap(policy: Policy, used: Used): int {
    used.n429 * Max(policy.retryAfterCap, policy.maxBackoff) + used.n403 * policy.maxBackoff
  }

  lemma WaitCapBump(policy: Policy, used: Used, status: int, wait: int)
    requires wait <= Max(policy.retryAfterCap, policy.maxBackoff)
    requires status != TOO_MANY_REQUESTS ==> wait <= policy.maxBackoff
    ensures WaitCap(policy, used) + wait <= WaitCap(policy, used.Bump(status))
  {
  }

  lemma WaitCapMonotone(policy: Policy, used: Used, more: Used)
    requires policy.IsResolved() && used.n429 <= more.n429 && used.n403 <= more.n403
    ensures WaitCap(policy, used) <= WaitCap(policy, more)
  {
  }

  lemma {:induction false} WaitsWithinBudget(policy: Policy, env: Env, k: nat, events: seq<Event>)
    requires policy.IsResolved() && policy.FitsInt64()
    requires Retried(policy, env, k, events)
    ensures TotalWait(events) <= WaitCap(policy, SeenBoth(env, k))
    decreases k
  {
    if k > 0 {
      WaitsWithinBudget(policy, env, k - 1, events[..k - 1]);
      assert IsRetryEvent(policy, env, k - 1, events[k - 1]);
      var r := env(k - 1).reply.value;
      PlannedWaitBounds(policy, r, Seen(env, r.status, k - 1) + 1, env(k - 1));
      hide PlannedWait, WaitCap;
      WaitCapBump(policy, SeenBoth(env, k - 1), r.status, events[k - 1].wait);
      assert SeenBoth(env, k - 1).Bump(r.status) == SeenBoth(env, k);
    }
  }

  /** The last turn's event, if any, still fits the budget of its class. */
  lemma LastWait(policy: Policy, env: Env, id: nat, k: nat)
    requires policy.IsResolved() && policy.FitsInt64()
    requires SeenBoth(env, k).n429 <= policy.max429 && SeenBoth(env, k).n403 <= policy.max403
    ensures
      var d := Decide(policy, env(k), id, k + 1, SeenBoth(env, k));
      |d.Events()| <= 1 &&
      WaitCap(policy, SeenBoth(env, k)) + TotalWait(d.Events()) <= WaitCap(policy, Used(policy.max429, policy.max403))
  {
    var used, whole := SeenBoth(env, k), Used(policy.max429, policy.max403);
    var d := Decide(policy, env(k), id, k + 1, used);
    var events := d.Events();
    assert |events| == 1 ==> events[..0] == [];
    if |events| == 1 && events[0].willRetry {
      var r := env(k).reply.value;
      PlannedWaitBounds(policy, r, used.Of(r.status) + 1, env(k));
      hide PlannedWait, WaitCap, IsMaintenance;
      WaitCapBump(policy, used, r.status, events[0].wait);
      WaitCapMonotone(policy, used.Bump(r.status), whole);
    } else {
      hide PlannedWait, WaitCap, IsMaintenance;
      WaitCapMonotone(policy, used, whole);
    }
  }

  lemma TotalWaitAppend(events: seq<Event>, last: seq<Event>)
    requires |last| <= 1
    ensures TotalWait(events + last) == TotalWait(events) + TotalWait(last)
  {
    if last == [] {
      assert events + last == events;
    } else {
      assert (events + last)[..|events|] == events && last[..0] == [];
    }
  }

  /**
   * A whole call: it ends at the first turn that Stops; until then every reply is a throttled
   * one, retried within the budget of its class and reported with the next attempt number;
   * only the last event can say that nobody retries, and then a throttled reply is delivered.
   */
  lemma CallMeaning(policy: Policy, env: Env, base: nat) returns (k: nat)
    requires policy.IsResolved() && policy.FitsInt64()
    ensures Stops(policy, env, k) && forall j: nat :: j < k ==> !Stops(policy, env, j)
    ensures k <= policy.max429 + policy.max403
    ensures policy.disabled ==> k == 0
    ensures
      var trace := Run(policy, env, base, 0, Used(0, 0), []);
      && k <= trace.replies <= trace.attempts <= trace.admissions <= k + 1
      && (trace.result.Delivered? ==> trace.replies == k + 1 && env(k).reply == Some(trace.result.response))
      && (!policy.disabled && trace.result.Delivered? && Throttleable(trace.result.response.status) ==>
            Seen(env, trace.result.response.status, k) == Budget(policy, trace.result.response.status))
      && k <= |trace.events| <= k + 1
      && (forall j: nat :: j < k ==> IsRetryEvent(policy, env, j, trace.events[j]))
      && (forall j: nat :: j < |trace.events| ==> trace.events[j].attempt == j + 1)
      && (forall j: nat :: j < |trace.events| && !trace.events[j].willRetry ==>
            j == k && trace.events[j].wait == 0 && trace.result.Delivered?)
      && (|trace.events| == k + 1 <==>
            !policy.disabled && trace.replies == k + 1 && env(k).reply.Some? && Throttleable(env(k).reply.value.status))
  {
    hide PlannedWait, IsMaintenance, Run;
    MaintenanceIsNotThrottled(env(0));
    assert Retried(policy, env, 0, []);
    assert SeenBoth(env, 0) == Used(0, 0);
    k := LoopEndsWhereItStops(policy, env, base, 0, []);
    var trace := Run(policy, env, base, 0, Used(0, 0), []);
    var retried: seq<Event> :| Retried(policy, env, k, retried) && EndsAt(policy, env, base, k, retried, trace);
    RetriesWithinBudget(policy, env, k, retried);
    MaintenanceIsNotThrottled(env(k));
    assert policy.disabled ==> Stops(policy, env, 0);
  }

  /** A throttled reply whose retries are not yet used up. */
  ghost predicate HasRetryLeft(policy: Policy, env: Env, k: nat, status: int) {
    || (status == 429 && Seen(env, status, k) < policy.max429)
    || (status == 403 && Seen(env, status, k) < policy.max403)
  }

  /** What a call that ends on turn k comes to, by what that turn met. */
  ghost predicate ComesTo(policy: Policy, env: Env, id: nat, k: nat, result: Result) {
    var t := env(k);
    if !t.admitted then result == Failed(RateWaitFailed)
    else if !t.requestBuilt then result == Failed(RequestInvalid)
    else if t.reply == None then result == Failed(TransportFailed)
    else
      var r := t.reply.value;
      if r.status == 503 then
        if !r.readable then result == Failed(BodyUnreadable)
        else if IsNotice(r.body) then result == Failed(Maintenance)
        else result == Delivered(r, Memory(r.body))
      else if !policy.disabled && HasRetryLeft(policy, env, k, r.status) then !t.slept && result == Failed(BackoffAborted)
      else result == Delivered(r, Network(id))
  }

  /** What the observer hears on turn k, the call's last. */
  ghost predicate LastHeard(policy: Policy, env: Env, k: nat, last: seq<Event>)
    requires policy.IsResolved() && policy.FitsInt64()
  {
    var t := env(k);
    if t.admitted && t.requestBuilt && t.reply.Some? && t.reply.value.status in {429, 403} && !policy.disabled then
      var r := t.reply.value;
      && |last| == 1
      && if HasRetryLeft(policy, env, k, r.status) then IsRetryEvent(policy, env, k, last[0])
         else Asked(r, t.now, last[0].retryAfter) && last[0] == Event(r.status, k + 1, 0, last[0].retryAfter, false)
    else last == []
  }

  lemma LastTurnMeaning(policy: Policy, env: Env, id: nat, k: nat)
    requires policy.IsResolved() && policy.FitsInt64() && Stops(policy, env, k)
    ensures
      var d := Decide(policy, env(k), id, k + 1, SeenBoth(env, k));
      var t := env(k);
      && d.Stop? && ComesTo(policy, env, id, k, d.result) && LastHeard(policy, env, k, d.last)
      && (d.took == 1 <==> t.admitted) && d.took <= 1
      && (d.sent == 1 <==> t.admitted && t.requestBuilt) && d.sent <= 1
      && (d.replied == 1 <==> t.admitted && t.requestBuilt && t.reply.Some?) && d.replied <= 1
  {
    if env(k).reply.Some? {
      TrimmedIsNotice(env(k).reply.value.body);
      ReportedIsAsked(env(k).reply.value, env(k).now);
    }
    hide PlannedWait, IsNotice, Asked, TrimLeft, TrimRight, ReportedRetryAfter;
  }

  /**
   * The result, the last event and the counts of a whole call, by what its last turn met: the first turn
   * that Stops.
   */
  lemma CallOutcome(policy: Policy, env: Env, base: nat, k: nat)
    requires policy.IsResolved() && policy.FitsInt64()
    requires Stops(policy, env, k) && forall j: nat :: j < k ==> !Stops(policy, env, j)
    ensures
      var trace := Run(policy, env, base, 0, Used(0, 0), []);
      var t := env(k);
      && ComesTo(policy, env, base + k, k, trace.result)
      && |trace.events| >= k && LastHeard(policy, env, k, trace.events[k..])
      && trace.admissions == k + (if t.admitted then 1 else 0)
      && trace.attempts == k + (if t.admitted && t.requestBuilt then 1 else 0)
      && trace.replies == k + (if t.admitted && t.requestBuilt && t.reply.Some? then 1 else 0)
  {
    hide PlannedWait, IsMaintenance, Run, Decide, ComesTo, LastHeard, Stops;
    assert Retried(policy, env, 0, []);
    assert SeenBoth(env, 0) == Used(0, 0);
    var end := LoopEndsWhereItStops(policy, env, base, 0, []);
    var trace := Run(policy, env, base, 0, Used(0, 0), []);
    var retried: seq<Event> :| Retried(policy, env, end, retried) && EndsAt(policy, env, base, end, retried, trace);
    assert end == k;
    LastTurnMeaning(policy, env, base + k, k);
    assert trace.events[k..] == Decide(policy, env(k), base + k, k + 1, SeenBoth(env, k)).last;
  }

  /** Planned waiting is bounded by the two budgets, whatever the server asks for. */
  lemma CallWaitBound(policy: Policy, env: Env, base: nat)
    requires policy.IsResolved() && policy.FitsInt64()
    ensures TotalWait(Run(policy, env, base, 0, Used(0, 0), []).events) <=
      policy.max429 * Max(policy.retryAfterCap, policy.maxBackoff) + policy.max403 * policy.maxBackoff
  {
    hide PlannedWait, Run, Decide;
    assert Retried(policy, env, 0, []);
    assert SeenBoth(env, 0) == Used(0, 0);
    var k := LoopEndsWhereItStops(policy, env, base, 0, []);
    var trace := Run(policy, env, base, 0, Used(0, 0), []);
    var retried: seq<Event> :| Retried(policy, env, k, retried) && EndsAt(policy, env, base, k, retried, trace);
    RetriesWithinBudget(policy, env, k, retried);
    WaitsWithinBudget(policy, env, k, retried);
    LastWait(policy, env, base + k, k);
    var d := Decide(policy, env(k), base + k, k + 1, SeenBoth(env, k));
    TotalWaitAppend(retried, d.Events());
  }

  class Client {
    const throttle: Policy
    const observed: bool
    var events: seq<Event>
    /** Unread content of every network body that is still open, by connection. */
    var open: map<nat, string>
    var nextBody: nat
    var admissions: nat
    var attempts: nat

    ghost predicate Valid()
      reads this
    {
      throttle.FitsInt64() && forall id <- open :: id < nextBody
    }

    constructor (throttle: Policy, observed: bool)
      requires throttle.FitsInt64()
      ensures Valid() && open == map[] && events == []
      ensures this.throttle == throttle && this.observed == observed
    {
      this.throttle := throttle;
      this.observed := observed;
      events, open, nextBody, admissions, attempts := [], map[], 0, 0, 0;
    }

    method Emit(e: Event)
      modifies this`events
      ensures events == if observed then old(events) + [e] else old(events)
    {
      if observed {
        events := events + [e];
      }
    }

    /** Reads and closes the body of a 503; a payload that is not the maintenance notice comes back as a copy. */
    method CheckMaintenance(r: Response, id: nat) returns (failure: Option<Failure>, body: Body)
      requires id in open && open[id] == r.body
      modifies this`open
      ensures r.status != SERVICE_UNAVAILABLE ==> failure == None && body == Network(id) && open == old(open)
      ensures r.status == SERVICE_UNAVAILABLE ==> open == old(open) - {id}
      ensures r.status == SERVICE_UNAVAILABLE && !r.readable ==> failure == Some(BodyUnreadable)
      ensures r.status == SERVICE_UNAVAILABLE && r.readable ==>
        if IsMaintenance(r) then failure == Some(Maintenance) else failure == None && body == Memory(r.body)
      ensures failure == Some(Maintenance) <==> r.status == 503 && r.readable && IsNotice(r.body)
    {
      TrimmedIsNotice(r.body);
      body := Network(id);
      if r.status != SERVICE_UNAVAILABLE {
        return None, body;
      }
      var content := open[id];
      open := open - {id};
      if !r.readable {
        return Some(BodyUnreadable), body;
      }
      body := Memory(content);
      if TrimRight(TrimLeft(content)) != MAINTENANCE_BODY {
        return None, body;
      }
      return Some(Maintenance), body;
    }

    method ThrottleWait(policy: Policy, r: Response, retryN: int, turn: Turn) returns (wait: int, retryAfter: int)
      requires policy.IsResolved() && policy.FitsInt64() && retryN >= 1
      ensures (wait, retryAfter) == PlannedWait(policy, r, retryN, turn)
      ensures WaitsAsDocumented(policy, r, retryN, turn, wait, retryAfter)
    {
      PlannedWaitIsDocumented(policy, r, retryN, turn);
      hide WaitsAsDocumented;
      if r.status == TOO_MANY_REQUESTS {
        var ra, ok := RetryAfter(r.retryAfter, r.date, turn.now);
        if ok {
          return Min(ra, policy.retryAfterCap), ra;
        }
      }
      wait := Backoff(policy.baseBackoff, policy.maxBackoff, retryN, turn.jitter, turn.outOfRange);
      return wait, 0;
    }

    ghost predicate Told(before: seq<Event>, news: seq<Event>)
      reads this
    {
      events == if observed then before + news else before
    }

    /** The part of a turn that follows a reply: classify it, then surface it or wait to retry. */
    method JudgeReply(policy: Policy, used: Used, number: nat, turn: Turn, r: Response, id: nat) returns (d: Decision)
      requires policy.IsResolved() && policy.FitsInt64()
      requires id in open && open[id] == r.body
      modifies this`events, this`open
      ensures d == Judge(policy, turn, r, id, number, used)
      ensures Told(old(events), d.Events())
      ensures open == if d.KeepsConnection() then old(open) else old(open) - {id}
    {
      hide PlannedWait;
      var failure, body := CheckMaintenance(r, id);
      if failure.Some? {
        return Stop(Failed(failure.value), [], 1, 1, 1);
      }
      if policy.disabled || !Throttleable(r.status) {
        return Stop(Delivered(r, body), [], 1, 1, 1);
      }
      var retriesLeft := Budget(policy, r.status) - used.Of(r.status);
      if retriesLeft <= 0 {
        var retryAfter, _ := RetryAfter(r.retryAfter, r.date, turn.now);
        var last := Event(r.status, number, 0, retryAfter, false);
        Emit(last);
        return Stop(Delivered(r, body), [last], 1, 1, 1);
      }
      var wait, retryAfter := ThrottleWait(policy, r, used.Of(r.status) + 1, turn);
      var event := Event(r.status, number, wait, retryAfter, true);
      Emit(event);
      open := open - {id};
      if !turn.slept {
        return Stop(Failed(BackoffAborted), [event], 1, 1, 1);
      }
      return Retry(event);
    }

    /** One turn of the loop, up to and including the backoff sleep. */
    method TakeTurn(policy: Policy, used: Used, number: nat, turn: Turn) returns (d: Decision)
      requires Valid() && policy.IsResolved() && policy.FitsInt64()
      modifies this`events, this`open, this`nextBody, this`admissions, this`attempts
      ensures Valid()
      ensures d == Decide(policy, turn, old(nextBody), number, used)
      ensures Told(old(events), d.Events())
      ensures admissions == old(admissions) + d.Took() && attempts == old(attempts) + d.Sent()
      ensures nextBody == old(nextBody) + d.Replied()
      ensures open == if d.KeepsConnection() then old(open)[old(nextBody) := d.result.response.body] else old(open)
      ensures d.KeepsConnection() ==> d.result.body.id == old(nextBody)
    {
      hide Judge;
      if !turn.admitted {
        return Stop(Failed(RateWaitFailed), [], 0, 0, 0);
      }
      admissions := admissions + 1;
      if !turn.requestBuilt {
        return Stop(Failed(RequestInvalid), [], 1, 0, 0);
      }
      attempts := attempts + 1;
      if turn.reply == None {
        return Stop(Failed(TransportFailed), [], 1, 1, 0);
      }
      var id, r := nextBody, turn.reply.value;
      open, nextBody := open[id := r.body], nextBody + 1;
      assert open - {id} == old(open);
      d := JudgeReply(policy, used, number, turn, r, id);
    }

    /**
     * The loop computes Run, and its ledger of open bodies ends as it began except for
     * the one body it delivers, whole and unread.
     */
    method GetContext(env: Env) returns (result: Result)
      requires Valid()
      modifies this`events, this`open, this`nextBody, this`admissions, this`attempts
      ensures Valid()
      ensures Resolved(throttle).IsResolved() && Resolved(throttle).FitsInt64()
      ensures
        var trace := Run(Resolved(throttle), env, old(nextBody), 0, Used(0, 0), []);
        && result == trace.result
        && Told(old(events), trace.events)
        && admissions == old(admissions) + trace.admissions
        && attempts == old(attempts) + trace.attempts
        && nextBody == old(nextBody) + trace.replies
      ensures open == if result.HasConnection()
                      then old(open)[result.body.id := result.response.body] else old(open)
      ensures result.HasConnection() ==> result.body.id !in old(open)
    {
      hide Decide, Judge, Resolved, Run;
      ResolvingTwice(throttle);
      var policy := Resolve(throttle);
      var used := Used(0, 0);
      var attempt := 0;
      ghost var emitted: seq<Event> := [];
      while true
        invariant Valid() && open == old(open)
        invariant nextBody == old(nextBody) + attempt
        invariant admissions == old(admissions) + attempt && attempts == old(attempts) + attempt
        invariant Told(old(events), emitted)
        invariant Run(policy, env, old(nextBody), 0, Used(0, 0), [])
               == Run(policy, env, old(nextBody), attempt, used, emitted)
        decreases used.Left(policy)
      {
        RunStep(policy, env, old(nextBody), attempt, used, emitted);
        var d := TakeTurn(policy, used, attempt + 1, env(attempt));
        match d {
          case Stop(outcome, _, _, _, _) =>
            return outcome;
          case Retry(event) =>
            used := used.Bump(event.status);
            emitted := emitted + [event];
            attempt := attempt + 1;
        }
      }
    }
  }
}
