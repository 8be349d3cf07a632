/**
 * Client options (client/options.go, client/cache_diagnostics.go) as a fold over settings, and what a
 * caller may read off the option list itself: which option of each kind has the last word.
 */
module Options {
  import opened Wrappers
  import opened MachineWords
  import opened Throttle

  /** The standard library's transport; an SDK client closes the idle connections of its own one only. */
  class Transport {
    var idleCloses: nat

    constructor ()
      ensures idleCloses == 0
    {
      idleCloses := 0;
    }
  }

  datatype RoundTripper = Unset | Standard(transport: Transport) | Foreign(id: nat)

  class HttpClient {
    var timeout: int
    var transport: RoundTripper

    constructor (timeout: int, transport: RoundTripper)
      ensures this.timeout == timeout && this.transport == transport
    {
      this.timeout, this.transport := timeout, transport;
    }
  }

  datatype RedisOptions = RedisOptions(addr: string, password: string, db: int, keyPrefix: string)

  /** A Redis connection pool. Closing it a second time is an error, as in the driver. */
  class Pool {
    const options: RedisOptions
    var open: bool

    constructor (options: RedisOptions)
      ensures this.options == options && open
    {
      this.options, open := options, true;
    }

    method Close(fails: bool) returns (ok: bool)
      modifies this
      ensures !open && ok == (old(open) && !fails)
    {
      ok := open && !fails;
      open := false;
    }
  }

  datatype Store = SharedMemory | Redis(pool: Pool, prefix: string) | Custom(id: nat)

  datatype Setting =
    | WithHTTPClient(client: Option<HttpClient>)
    | WithTimeout(timeout: Int64)
    | WithBaseURL(url: string)
    | WithRateLimit(requests: Int64, interval: Int64)
    | WithThrottlePolicy(policy: Policy)
    | WithThrottleObserver(observer: Option<nat>)
    | WithCacheErrorHandler(handler: Option<nat>)
    | WithRedisCache(redis: RedisOptions)
    | WithCache(store: Option<Store>)
    | WithRedisCacheClient(pool: Option<Pool>, prefix: string)
    | WithMemoryCache

  /** Where the client's http.Client comes from, and the timeout the SDK has put on it, if any. */
  datatype Http =
    | Absent
    | Borrowed(client: HttpClient)
    | Copied(client: HttpClient, timeout: int)
    | Bare(timeout: int)
    | BuiltIn(timeout: int)

  const BASE_URL := "https://fantasy.premierleague.com/api"
  const DEFAULT_TIMEOUT: int := 10 * SECOND
  const DEFAULT_REQUESTS: int := 50
  const DEFAULT_INTERVAL: int := MINUTE

  datatype Plain = Plain(
    baseURL: string, requests: int, interval: int, rateInvalid: bool,
    policy: Policy, observer: Option<nat>, handler: Option<nat>)

  datatype CacheFields = CacheFields(selected: bool, invalid: bool, store: Option<Store>, redis: Option<RedisOptions>)

  datatype Settings = Settings(http: Http, plain: Plain, cache: CacheFields)

  const INITIAL: Settings := Settings(
    BuiltIn(DEFAULT_TIMEOUT),
    Plain(BASE_URL, DEFAULT_REQUESTS, DEFAULT_INTERVAL, false, DEFAULT_POLICY, None, None),
    CacheFields(false, false, None, None))

  function Timed(h: Http, timeout: int): Http {
    match h
    case Absent => Bare(timeout)
    case Borrowed(c) => Copied(c, timeout)
    case _ => h.(timeout := timeout)
  }

  /** A cache option: what it leaves alone stays, stale or not. */
  function AppliedCache(f: CacheFields, o: Setting): CacheFields {
    match o
    case WithRedisCache(r) => CacheFields(true, false, None, Some(r))
    case WithCache(None) => CacheFields(true, true, f.store, None)
    case WithCache(c) => CacheFields(true, false, c, None)
    case WithRedisCacheClient(None, _) => CacheFields(true, true, f.store, None)
    case WithRedisCacheClient(Some(p), prefix) => CacheFields(true, false, Some(Redis(p, prefix)), None)
    case WithMemoryCache => CacheFields(true, false, Some(SharedMemory), None)
    case _ => f
  }

  function AppliedHttp(h: Http, o: Setting): Http {
    match o
    case WithHTTPClient(None) => Absent
    case WithHTTPClient(Some(c)) => Borrowed(c)
    case WithTimeout(t) => Timed(h, t)
    case _ => h
  }

  function AppliedPlain(p: Plain, o: Setting): Plain {
    match o
    case WithBaseURL(url) => p.(baseURL := url)
    case WithRateLimit(n, i) =>
      if n <= 0 || i <= 0 then p.(rateInvalid := true) else p.(rateInvalid := false, requests := n, interval := i)
    case WithThrottlePolicy(policy) => p.(policy := policy)
    case WithThrottleObserver(f) => p.(observer := f)
    case WithCacheErrorHandler(f) => p.(handler := f)
    case _ => p
  }

  function Applied(s: Settings, o: Setting): Settings {
    Settings(AppliedHttp(s.http, o), AppliedPlain(s.plain, o), AppliedCache(s.cache, o))
  }

  /** Cache options touch the cache fields only, HTTP options the http.Client only, the rest neither. */
  lemma KindsAreSeparate(s: Settings, o: Setting)
    ensures !IsHttp(o) && !IsTimeout(o) ==> Applied(s, o).http == s.http
    ensures !IsCache(o) ==> Applied(s, o).cache == s.cache
    ensures IsHttp(o) || IsTimeout(o) || IsCache(o) ==> Applied(s, o).plain == s.plain
  {
  }

  function After(opts: seq<Setting>): Settings {
    if opts == [] then INITIAL else Applied(After(opts[..|opts| - 1]), opts[|opts| - 1])
  }

  /** Position of the last option of a kind, -1 when there is none. */
  function LastOf(opts: seq<Setting>, kind: Setting -> bool): (i: int)
    ensures -1 <= i < |opts|
    ensures i >= 0 ==> kind(opts[i])
    ensures forall k :: i < k < |opts| ==> !kind(opts[k])
  {
    if opts == [] then -1
    else if kind(opts[|opts| - 1]) then |opts| - 1
    else LastOf(opts[..|opts| - 1], kind)
  }

  predicate IsCache(o: Setting) {
    o.WithRedisCache? || o.WithCache? || o.WithRedisCacheClient? || o.WithMemoryCache?
  }

  predicate IsRate(o: Setting) { o.WithRateLimit? }

  predicate IsHttp(o: Setting) { o.WithHTTPClient? }

  predicate IsTimeout(o: Setting) { o.WithTimeout? }

  predicate IsBaseURL(o: Setting) { o.WithBaseURL? }

  predicate IsPolicy(o: Setting) { o.WithThrottlePolicy? }

  predicate IsObserver(o: Setting) { o.WithThrottleObserver? }

  predicate IsHandler(o: Setting) { o.WithCacheErrorHandler? }

  /** How the store of the client is to be found. */
  datatype CacheChoice = FromEnvironment | Rejected | Dial(redis: RedisOptions) | Use(store: Option<Store>)

  /** What construction reads off the fields once every option has run. */
  function Selection(s: CacheFields): CacheChoice {
    if s.invalid then Rejected
    else if !s.selected then FromEnvironment
    else if s.redis.Some? then Dial(s.redis.value)
    else Use(s.store)
  }

  /** What the documentation promises of one cache option taken alone. */
  function Asks(o: Setting): (choice: CacheChoice)
    requires IsCache(o)
    ensures choice != Use(None)
  {
    match o
    case WithRedisCache(r) => Dial(r)
    case WithCache(c) => if c == None then Rejected else Use(c)
    case WithRedisCacheClient(p, prefix) => if p == None then Rejected else Use(Some(Redis(p.value, prefix)))
    case _ => Use(Some(SharedMemory))
  }

  function CacheChosen(opts: seq<Setting>): CacheChoice {
    var i := LastOf(opts, IsCache);
    if i < 0 then FromEnvironment else Asks(opts[i])
  }

  /** Capacity and interval of the last rate option, None when it is not allowed. */
  function RateChosen(opts: seq<Setting>): Option<(int, int)> {
    var i := LastOf(opts, IsRate);
    if i < 0 then Some((DEFAULT_REQUESTS, DEFAULT_INTERVAL))
    else if opts[i].requests <= 0 || opts[i].interval <= 0 then None
    else Some((opts[i].requests, opts[i].interval))
  }

  /**
   * The cache outcome is that of the last cache option alone. Whatever an earlier option left behind
   * (an error, a deferred pool, a store) and whatever rate options fail, it does not show.
   */
  lemma {:induction false} LastCacheOptionWins(opts: seq<Setting>)
    ensures Selection(After(opts).cache) == CacheChosen(opts)
  {
    if opts != [] {
      LastCacheOptionWins(opts[..|opts| - 1]);
    }
  }

  /** The rate outcome is that of the last rate option alone, whatever the cache options do. */
  lemma {:induction false} LastRateOptionWins(opts: seq<Setting>)
    ensures After(opts).plain.rateInvalid <==> RateChosen(opts) == None
    ensures RateChosen(opts).Some? ==> RateChosen(opts).value == (After(opts).plain.requests, After(opts).plain.interval)
    ensures 0 < After(opts).plain.requests <= MAX_INT64 && 0 < After(opts).plain.interval <= MAX_INT64
  {
    if opts != [] {
      LastRateOptionWins(opts[..|opts| - 1]);
    }
  }

  /** Only an option of the field's own kind touches it. */
  lemma PlainStep(p: Plain, o: Setting)
    ensures AppliedPlain(p, o).baseURL == if IsBaseURL(o) then o.url else p.baseURL
    ensures AppliedPlain(p, o).policy == if IsPolicy(o) then o.policy else p.policy
    ensures AppliedPlain(p, o).observer == if IsObserver(o) then o.observer else p.observer
    ensures AppliedPlain(p, o).handler == if IsHandler(o) then o.handler else p.handler
  {
  }

  /** Base URL, throttle policy, observer and diagnostics handler: the last option of the kind, or the default. */
  lemma {:induction false} LastPlainOptionWins(opts: seq<Setting>)
    ensures var i := LastOf(opts, IsBaseURL); After(opts).plain.baseURL == if i < 0 then BASE_URL else opts[i].url
    ensures var i := LastOf(opts, IsPolicy); After(opts).plain.policy == if i < 0 then DEFAULT_POLICY else opts[i].policy
    ensures var i := LastOf(opts, IsObserver); After(opts).plain.observer == if i < 0 then None else opts[i].observer
    ensures var i := LastOf(opts, IsHandler); After(opts).plain.handler == if i < 0 then None else opts[i].handler
  {
    hide AppliedPlain, AppliedCache, AppliedHttp;
    if opts != [] {
      var front, o := opts[..|opts| - 1], opts[|opts| - 1];
      LastPlainOptionWins(front);
      PlainStep(After(front).plain, o);
    }
  }

  /** The http.Client in closed form, from the last WithHTTPClient and the last WithTimeout. */
  function HttpChosen(opts: seq<Setting>): Http {
    var c, t := LastOf(opts, IsHttp), LastOf(opts, IsTimeout);
    if c < 0 then BuiltIn(if t < 0 then DEFAULT_TIMEOUT else opts[t].timeout)
    else match opts[c].client
         case Some(client) => if t > c then Copied(client, opts[t].timeout) else Borrowed(client)
         case None => if t > c then Bare(opts[t].timeout) else Absent
  }

  lemma {:induction false} LastHttpOptionsWin(opts: seq<Setting>)
    ensures After(opts).http == HttpChosen(opts)
  {
    if opts != [] {
      LastHttpOptionsWin(opts[..|opts| - 1]);
    }
  }

  function TimeoutOf(h: Http): Option<int> {
    if h.Absent? || h.Borrowed? then None else Some(h.timeout)
  }

  /**
   * The final timeout option holds if and only if no WithHTTPClient follows it: a later WithHTTPClient
   * discards it and the supplied client keeps its own timeout.
   */
  lemma TimeoutHoldsIff(opts: seq<Setting>)
    requires LastOf(opts, IsTimeout) >= 0
    ensures var t := LastOf(opts, IsTimeout);
            TimeoutOf(After(opts).http) == Some(opts[t].timeout as int)
            <==> forall k :: t < k < |opts| ==> !opts[k].WithHTTPClient?
  {
    hide After, Applied;
    LastHttpOptionsWin(opts);
    var c, t := LastOf(opts, IsHttp), LastOf(opts, IsTimeout);
    if c > t {
      assert IsHttp(opts[c]);
    } else {
      assert c == t ==> c < 0 by { assert c >= 0 ==> IsHttp(opts[c]) && IsTimeout(opts[t]); }
      assert forall k :: t < k < |opts| ==> !IsHttp(opts[k]);
    }
  }

  /** Without options: 50 requests a minute, ten seconds, the store of the environment. */
  lemma Defaults()
    ensures RateChosen([]) == Some((50, 60_000_000_000))
    ensures HttpChosen([]) == BuiltIn(10_000_000_000)
    ensures CacheChosen([]) == FromEnvironment
  {
  }

  /** What an option that comes last makes of the settings before it. */
  ghost predicate HasLastWord(before: Settings, o: Setting, after: Settings) {
    match o
    case WithHTTPClient(client) =>
      after == before.(http := if client.Some? then Borrowed(client.value) else Absent)
    case WithTimeout(t) =>
      TimeoutOf(after.http) == Some(t as int) && (before.http.Borrowed? ==> after.http == Copied(before.http.client, t))
    case WithRateLimit(n, i) =>
      && (after.plain.rateInvalid <==> n < 1 || i < 1)
      && (n >= 1 && i >= 1 ==> after.plain.requests == n && after.plain.interval == i)
      && after.cache == before.cache
    case WithRedisCache(r) => Selection(after.cache) == Dial(r)
    case WithCache(store) => Selection(after.cache) == if store.Some? then Use(store) else Rejected
    case WithRedisCacheClient(pool, prefix) =>
      Selection(after.cache) == if pool.Some? then Use(Some(Redis(pool.value, prefix))) else Rejected
    case WithMemoryCache => Selection(after.cache) == Use(Some(SharedMemory))
    case _ => after.cache == before.cache && after.http == before.http
  }

  lemma LastWord(opts: seq<Setting>, o: Setting)
    ensures HasLastWord(After(opts), o, After(opts + [o]))
    ensures IsCache(o) ==> After(opts + [o]).plain == After(opts).plain && After(opts + [o]).http == After(opts).http
  {
    assert (opts + [o])[..|opts|] == opts;
    hide After;
  }

  /** It can fail to hold: here the timeout is discarded, and the supplied client keeps its own. */
  lemma TimeoutCanBeDiscarded(timeout: Int64, client: HttpClient)
    ensures
      var opts := [WithTimeout(timeout), WithHTTPClient(Some(client))];
      After(opts).http == Borrowed(client) && TimeoutOf(After(opts).http) == None
  {
    var opts := [WithTimeout(timeout), WithHTTPClient(Some(client))];
    assert opts[..1] == [WithTimeout(timeout)];
    assert After(opts) == Applied(After(opts[..1]), opts[1]);
  }
}
