/**
 * Construction and Close (client/client.go, client/default_cache.go): the option closures run on the
 * client's own fields, and only what construction itself created is ever modified, dialed or closed.
 */
module Construction {
  import opened Wrappers
  import opened MachineWords
  import opened Options
  import Throttle
  import TokenBucket

  datatype Backend = MemoryBackend | AutoBackend | RedisBackend | UnknownBackend

  /** FPL_CACHE_BACKEND; the Redis variables, None when they do not parse; which servers answer a ping. */
  datatype Environment = Environment(backend: Backend, redis: Option<RedisOptions>, answers: RedisOptions -> bool)

  const DEFAULT_ADDR := "localhost:6379"

  function Target(r: RedisOptions): RedisOptions {
    if r.addr == "" then r.(addr := DEFAULT_ADDR) else r
  }

  /** Every pool the SDK has opened. */
  class Network {
    var dialed: seq<Pool>

    /** A pool whose ping fails is closed again and not returned. */
    method NewRedisCache(r: RedisOptions, environment: Environment) returns (store: Option<Store>)
      modifies this
      ensures |dialed| == |old(dialed)| + 1 && old(dialed) <= dialed
      ensures var pool := dialed[|dialed| - 1];
        && fresh(pool) && pool.options == Target(r)
        && pool.open == environment.answers(Target(r))
        && store == if pool.open then Some(Redis(pool, r.keyPrefix)) else None
    {
      var pool := new Pool(Target(r));
      dialed := dialed + [pool];
      if !environment.answers(Target(r)) {
        var _ := pool.Close(false);
        return None;
      }
      return Some(Redis(pool, r.keyPrefix));
    }

    /** The store of a client without a cache option; no store is an error. owned only for a pool dialed here. */
    method ConfigureDefaultCache(environment: Environment) returns (store: Option<Store>, owned: bool)
      modifies this
      ensures old(dialed) <= dialed
      ensures |dialed| == |old(dialed)| + if EnvironmentDials(environment).Some? then 1 else 0
      ensures store == None <==> Unavailable(FromEnvironment, environment)
      ensures
        match environment.backend
        case MemoryBackend => store == Some(SharedMemory) && !owned && dialed == old(dialed)
        case UnknownBackend => store == None && !owned && dialed == old(dialed)
        case _ =>
          if environment.redis == None then store == None && !owned && dialed == old(dialed)
          else
            && |dialed| == |old(dialed)| + 1
            && if environment.answers(Target(environment.redis.value)) then owned && store.Some? && store.value.Redis?
               else !owned && store == if environment.backend == AutoBackend then Some(SharedMemory) else None
      ensures owned <==> EnvironmentDials(environment).Some? && environment.answers(EnvironmentDials(environment).value)
      ensures store.Some? && !owned ==> store.value == SharedMemory
      ensures EnvironmentDials(environment).Some? ==>
        var pool := dialed[|dialed| - 1];
        && fresh(pool) && pool.options == EnvironmentDials(environment).value && pool.open == owned
        && (owned ==> store == Some(Redis(pool, environment.redis.value.keyPrefix)))
    {
      match environment.backend
      case MemoryBackend => return Some(SharedMemory), false;
      case UnknownBackend => return None, false;
      case _ =>
        if environment.redis == None {
          return None, false;
        }
        store := NewRedisCache(environment.redis.value, environment);
        if store == None {
          return if environment.backend == RedisBackend then None else Some(SharedMemory), false;
        }
        return store, true;
    }
  }

  /** The pool construction opens for a client without a cache option. */
  function EnvironmentDials(e: Environment): Option<RedisOptions> {
    if e.backend in {AutoBackend, RedisBackend} && e.redis.Some? then Some(Target(e.redis.value)) else None
  }

  /** Whether the chosen cache cannot be had. Only the automatic backend falls back to memory. */
  predicate Unavailable(choice: CacheChoice, e: Environment) {
    match choice
    case Dial(r) => !e.answers(Target(r))
    case FromEnvironment =>
      || e.backend == UnknownBackend
      || (e.backend in {AutoBackend, RedisBackend} && e.redis == None)
      || (e.backend == RedisBackend && !e.answers(Target(e.redis.value)))
    case _ => false
  }

  datatype SetupError = BadCacheOption | BadRate | CacheSetupFailed

  /** The error of a construction: a bad cache option first, then a bad rate, then the cache itself. */
  function Verdict(opts: seq<Setting>, e: Environment): Option<SetupError> {
    if CacheChosen(opts) == Rejected then Some(BadCacheOption)
    else if RateChosen(opts) == None then Some(BadRate)
    else if Unavailable(CacheChosen(opts), e) then Some(CacheSetupFailed)
    else None
  }

  /** The pool a construction opens, if any: none before both option errors are clear. */
  function Dials(opts: seq<Setting>, e: Environment): Option<RedisOptions> {
    if RateChosen(opts) == None then None else PoolFor(CacheChosen(opts), e)
  }

  /**
   * A rejected cache option is reported before a rejected rate, and neither opens a pool. With both clear the
   * only further error is a cache that was asked for and cannot be had, and only the automatic backend does
   * without an answering server.
   */
  lemma VerdictMeaning(opts: seq<Setting>, e: Environment)
    ensures CacheChosen(opts) == Rejected ==> Verdict(opts, e) == Some(BadCacheOption) && Dials(opts, e) == None
    ensures CacheChosen(opts) != Rejected && RateChosen(opts) == None ==>
      Verdict(opts, e) == Some(BadRate) && Dials(opts, e) == None
    ensures CacheChosen(opts) != Rejected && RateChosen(opts).Some? ==>
      match CacheChosen(opts)
      case Use(_) => Verdict(opts, e) == None && Dials(opts, e) == None
      case Dial(r) =>
        && Dials(opts, e) == Some(Target(r))
        && Verdict(opts, e) == if e.answers(Target(r)) then None else Some(CacheSetupFailed)
      case FromEnvironment =>
        && (Dials(opts, e).Some? <==> e.redis.Some? && (e.backend == AutoBackend || e.backend == RedisBackend))
        && (Verdict(opts, e) == None <==>
              || e.backend == MemoryBackend
              || (e.redis.Some? && e.backend == AutoBackend)
              || (e.redis.Some? && e.backend == RedisBackend && e.answers(Target(e.redis.value))))
      case Rejected => true
  {
    hide CacheChosen, RateChosen;
  }

  class Client {
    var httpClient: HttpClient?
    var ownsHTTPTransport: bool
    var baseURL: string
    var rateLimit: TokenBucket.RateLimiter
    var rateLimitErr: bool
    var throttle: Throttle.Policy
    var observer: Option<nat>
    var cacheErrorHandler: Option<nat>
    var cacheErr: bool
    var cacheSet: bool
    var cache: Option<Store>
    var redisOptions: Option<RedisOptions>
    var ownedCache: bool
    var closed: bool
    var closeOk: bool
    ghost var settings: Settings
    /** The http.Clients, transports and pools this client created. */
    ghost var own: set<object>

    ghost predicate PlainMatch(s: Plain)
      reads this`baseURL, this`throttle, this`observer, this`cacheErrorHandler, this`rateLimitErr, this`rateLimit, rateLimit
    {
      && baseURL == s.baseURL && throttle == s.policy && observer == s.observer && cacheErrorHandler == s.handler
      && rateLimitErr == s.rateInvalid
      && rateLimit.Valid() && rateLimit.tokens == rateLimit.maxTokens == s.requests && rateLimit.interval == s.interval
    }

    ghost predicate CacheMatch(s: CacheFields)
      reads this`cacheErr, this`cacheSet, this`redisOptions, this`cache
    {
      cacheErr == s.invalid && cacheSet == s.selected && redisOptions == s.redis && cache == s.store
    }

    /** The http.Client on the heap is what the options say, and what the SDK put a timeout on is its own. */
    ghost predicate HttpMatch(h: Http)
      reads this`httpClient, this`ownsHTTPTransport, this`own, httpClient, if h.Copied? then {h.client} else {}
    {
      && ownsHTTPTransport == (h.Bare? || h.BuiltIn?)
      && match h
         case Absent => httpClient == null
         case Borrowed(c) => httpClient == c && c !in own
         case Copied(c, t) =>
           && httpClient != null && httpClient in own && c !in own
           && httpClient.timeout == t && httpClient.transport == c.transport
         case Bare(t) =>
           httpClient != null && httpClient in own && httpClient.timeout == t && httpClient.transport == Unset
         case BuiltIn(t) =>
           && httpClient != null && httpClient in own && httpClient.timeout == t
           && httpClient.transport.Standard? && httpClient.transport.transport in own
    }

    /** What Close may touch is this client's own; a client that owns its cache holds a pool it dialed. */
    ghost predicate Owns()
      reads this, httpClient
    {
      && (ownsHTTPTransport ==> httpClient != null)
      && (ownsHTTPTransport && httpClient.transport.Standard? ==> httpClient.transport.transport in own)
      && (ownedCache ==> cache.Some? && cache.value.Redis? && cache.value.pool in own)
    }

    /** While the options run. */
    ghost predicate Configuring()
      reads this, rateLimit, httpClient, if settings.http.Copied? then {settings.http.client} else {}
    {
      PlainMatch(settings.plain) && CacheMatch(settings.cache) && HttpMatch(settings.http) && !ownedCache && !closed && closeOk
    }

    constructor (now: int)
      ensures Configuring() && settings == INITIAL
      ensures fresh(own) && fresh(rateLimit)
    {
      var transport := new Transport();
      var http := new HttpClient(DEFAULT_TIMEOUT, Standard(transport));
      httpClient, ownsHTTPTransport, baseURL := http, true, BASE_URL;
      var limiter := new TokenBucket.RateLimiter(DEFAULT_REQUESTS, DEFAULT_INTERVAL, now);
      rateLimit, rateLimitErr := limiter, false;
      throttle, observer, cacheErrorHandler := Throttle.DEFAULT_POLICY, None, None;
      cacheErr, cacheSet, cache, redisOptions := false, false, None, None;
      ownedCache, closed, closeOk := false, false, true;
      settings, own := INITIAL, {http, transport};
    }

    /** WithHTTPClient and WithTimeout. A borrowed http.Client is copied, never written. */
    method ApplyHttp(o: Setting, ghost h: Http)
      requires HttpMatch(h) && (IsHttp(o) || IsTimeout(o))
      requires o.WithHTTPClient? && o.client.Some? ==> o.client.value !in own
      modifies this`httpClient, this`ownsHTTPTransport, this`own, if ownsHTTPTransport then {httpClient} else {}
      ensures HttpMatch(AppliedHttp(h, o))
      ensures old(own) <= own && fresh(own - old(own))
    {
      if o.WithHTTPClient? {
        httpClient := if o.client.Some? then o.client.value else null;
        ownsHTTPTransport := false;
        return;
      }
      if httpClient == null {
        httpClient := new HttpClient(0, Unset);
        own := own + {httpClient};
        ownsHTTPTransport := true;
      }
      if !ownsHTTPTransport {
        httpClient := new HttpClient(httpClient.timeout, httpClient.transport);
        own := own + {httpClient};
      }
      httpClient.timeout := o.timeout;
    }

    /** The cache options. What is assigned, and in which branch, is what the source assigns. */
    method ApplyCache(o: Setting, ghost f: CacheFields)
      requires CacheMatch(f) && IsCache(o)
      modifies this`redisOptions, this`cacheErr, this`cacheSet, this`cache
      ensures CacheMatch(AppliedCache(f, o))
    {
      cacheErr, cacheSet := false, true;
      redisOptions := None;
      match o
      case WithRedisCache(r) =>
        cache := None;
        redisOptions := Some(r);
      case WithCache(c) =>
        if c == None {
          cacheErr := true;
          return;
        }
        cache := c;
      case WithRedisCacheClient(p, prefix) =>
        if p == None {
          cacheErr := true;
          return;
        }
        cache := Some(Redis(p.value, prefix));
      case WithMemoryCache =>
        cache := Some(SharedMemory);
    }

    /** The remaining options. */
    method ApplyPlain(o: Setting, ghost p: Plain, now: int)
      requires PlainMatch(p) && !IsHttp(o) && !IsTimeout(o) && !IsCache(o)
      modifies this`baseURL, this`rateLimit, this`rateLimitErr, this`throttle, this`observer, this`cacheErrorHandler
      ensures PlainMatch(AppliedPlain(p, o))
      ensures rateLimit == old(rateLimit) || fresh(rateLimit)
    {
      match o
      case WithBaseURL(url) => baseURL := url;
      case WithRateLimit(n, i) =>
        if n <= 0 || i <= 0 {
          rateLimitErr := true;
          return;
        }
        rateLimitErr := false;
        rateLimit := new TokenBucket.RateLimiter(n, i, now);
      case WithThrottlePolicy(p) => throttle := p;
      case WithThrottleObserver(f) => observer := f;
      case WithCacheErrorHandler(f) => cacheErrorHandler := f;
    }

    method Apply(o: Setting, now: int)
      requires Configuring()
      requires o.WithHTTPClient? && o.client.Some? ==> o.client.value !in own
      modifies this, if ownsHTTPTransport then {httpClient} else {}
      ensures Configuring() && settings == Applied(old(settings), o)
      ensures old(own) <= own && fresh(own - old(own)) && (rateLimit == old(rateLimit) || fresh(rateLimit))
    {
      hide PlainMatch, CacheMatch, HttpMatch, AppliedPlain, AppliedCache, AppliedHttp;
      KindsAreSeparate(settings, o);
      if IsHttp(o) || IsTimeout(o) {
        ApplyHttp(o, settings.http);
      } else if IsCache(o) {
        ApplyCache(o, settings.cache);
      } else {
        ApplyPlain(o, settings.plain, now);
      }
      settings := Applied(settings, o);
    }

    /**
     * Closes the pool this client dialed and the idle connections of the transport it built, once, and
     * answers the same ever after. By the modifies clause nothing supplied by a caller is touched.
     */
    method Close(poolFails: bool) returns (ok: bool)
      requires Owns()
      modifies this`closed, this`closeOk
      modifies if ownedCache && !closed then {cache.value.pool} else {}
      modifies if ownsHTTPTransport && !closed && httpClient.transport.Standard? then {httpClient.transport.transport} else {}
      ensures closed && ok == closeOk && Owns()
      ensures old(closed) ==> closeOk == old(closeOk)
      ensures !old(closed) && ownedCache ==> !cache.value.pool.open && ok == (old(cache.value.pool.open) && !poolFails)
      ensures !old(closed) && !ownedCache ==> ok == old(closeOk)
      ensures !old(closed) && ownsHTTPTransport && httpClient.transport.Standard? ==>
        httpClient.transport.transport.idleCloses == old(httpClient.transport.transport.idleCloses) + 1
    {
      if !closed {
        closed := true;
        if ownedCache && cache.value.Redis? {
          closeOk := cache.value.pool.Close(poolFails);
        }
        if ownsHTTPTransport && httpClient.transport.Standard? {
          var transport := httpClient.transport.transport;
          transport.idleCloses := transport.idleCloses + 1;
        }
      }
      return closeOk;
    }
  }

  /** The options, run in order on a new client. */
  method Configured(opts: seq<Setting>, now: int) returns (c: Client)
    ensures fresh(c) && fresh(c.own) && c.Configuring() && c.settings == After(opts)
  {
    hide Applied;
    c := new Client(now);
    var i := 0;
    assert opts[..0] == [];
    while i < |opts|
      invariant 0 <= i <= |opts|
      invariant c.Configuring() && c.settings == After(opts[..i])
      invariant fresh(c) && fresh(c.own)
      invariant c.ownsHTTPTransport ==> c.httpClient in c.own
    {
      assert opts[..i + 1][..i] == opts[..i];
      c.Apply(opts[i], now);
      i := i + 1;
    }
    assert opts[..|opts|] == opts;
  }

  /**
   * An owned http.Client has a standard transport if and only if no option replaced the default client,
   * not even by nil; otherwise it has none at all.
   */
  lemma OwnedTransportIff(c: Client, opts: seq<Setting>)
    requires c.HttpMatch(HttpChosen(opts)) && c.ownsHTTPTransport
    ensures c.httpClient != null && (c.httpClient.transport.Standard? || c.httpClient.transport == Unset)
    ensures c.httpClient.transport.Standard? <==> forall k :: 0 <= k < |opts| ==> !opts[k].WithHTTPClient?
  {
    var last := LastOf(opts, IsHttp);
    if last < 0 {
      assert forall k :: 0 <= k < |opts| ==> !IsHttp(opts[k]);
    } else {
      assert IsHttp(opts[last]);
    }
  }

  /** A client can own an http.Client without a transport. */
  lemma OwnedWithoutTransport(c: Client, timeout: Int64)
    requires c.HttpMatch(HttpChosen([WithHTTPClient(None), WithTimeout(timeout)]))
    ensures c.ownsHTTPTransport && c.httpClient != null && c.httpClient.transport == Unset
  {
    var opts := [WithHTTPClient(None), WithTimeout(timeout)];
    assert LastOf(opts, IsTimeout) == 1;
    assert opts[..1] == [WithHTTPClient(None)];
    assert LastOf(opts, IsHttp) == 0;
  }

  /**
   * The pools opened since `before` are the one asked for, if one is, and it is left open only inside the
   * client that owns it.
   */
  ghost predicate Opened(network: Network, before: seq<Pool>, dials: Option<RedisOptions>, holder: Client?)
    reads network, network.dialed, holder
  {
    && before <= network.dialed
    && |network.dialed| == |before| + (if dials.Some? then 1 else 0)
    && (holder != null && holder.ownedCache ==> dials.Some?)
    && (dials.Some? ==>
          var pool := network.dialed[|before|];
          && pool.options == dials.value
          && (pool.open <==> holder != null && holder.ownedCache)
          && (pool.open ==> holder.cache.Some? && holder.cache.value.Redis? && holder.cache.value.pool == pool))
  }

  /** The store a client holds, by the choice it was built from. */
  ghost predicate Holds(c: Client, choice: CacheChoice)
    reads c
  {
    && c.cache.Some? && choice != Rejected
    && (choice.Use? ==> c.cache == choice.store && !c.ownedCache)
    && (choice.Dial? ==> c.ownedCache && c.cache.value.Redis? && c.cache.value.prefix == choice.redis.keyPrefix)
    && (choice.FromEnvironment? && !c.ownedCache ==> c.cache.value == SharedMemory)
  }

  function PoolFor(choice: CacheChoice, e: Environment): Option<RedisOptions> {
    match choice
    case Dial(r) => Some(Target(r))
    case FromEnvironment => EnvironmentDials(e)
    case _ => None
  }

  /** The last step of construction: no pool is opened before it. */
  method SelectCache(c: Client, environment: Environment, network: Network) returns (ok: bool)
    requires c.CacheMatch(c.settings.cache) && !c.cacheErr && Selection(c.settings.cache) != Use(None)
    requires !c.ownedCache && c.Owns()
    modifies c`cache, c`ownedCache, c`own, network
    ensures ok == !Unavailable(Selection(c.settings.cache), environment)
    ensures ok ==> Holds(c, Selection(c.settings.cache)) && c.Owns()
    ensures Opened(network, old(network.dialed), PoolFor(Selection(c.settings.cache), environment), if ok then c else null)
    ensures fresh(network.dialed[|old(network.dialed)|..])
    ensures old(c.own) <= c.own && fresh(c.own - old(c.own))
  {
    if !c.cacheSet {
      c.cache, c.ownedCache := network.ConfigureDefaultCache(environment);
    } else if c.redisOptions.Some? {
      c.cache := network.NewRedisCache(c.redisOptions.value, environment);
      c.ownedCache := true;
    }
    if c.cache == None {
      return false;
    }
    if c.ownedCache {
      c.own := c.own + {c.cache.value.pool};
    }
    return true;
  }

  /**
   * NewClient. Its error, the pools it opens and the store it binds are functions of the last option of each
   * kind and of the environment. Of what existed before, only the record of pools is modified.
   */
  method NewClient(opts: seq<Setting>, environment: Environment, network: Network, now: int)
    returns (result: Client?, error: Option<SetupError>)
    modifies network
    ensures error == Verdict(opts, environment)
    ensures result == null <==> error.Some?
    ensures Opened(network, old(network.dialed), Dials(opts, environment), result)
    ensures fresh(network.dialed[|old(network.dialed)|..])
    ensures result != null ==>
      && fresh(result) && fresh(result.own) && result.Owns() && !result.closed && result.closeOk
      && Holds(result, CacheChosen(opts))
      && result.HttpMatch(HttpChosen(opts))
      && result.PlainMatch(After(opts).plain)
      && RateChosen(opts) == Some((result.rateLimit.maxTokens, result.rateLimit.interval))
  {
    hide After, EnvironmentDials, Unavailable, HttpChosen;
    var c := Configured(opts, now);
    LastCacheOptionWins(opts);
    LastRateOptionWins(opts);
    LastHttpOptionsWin(opts);
    if c.cacheErr {
      return null, Some(BadCacheOption);
    }
    if c.rateLimitErr {
      return null, Some(BadRate);
    }
    var ok := SelectCache(c, environment, network);
    if !ok {
      return null, Some(CacheSetupFailed);
    }
    return c, None;
  }
}
