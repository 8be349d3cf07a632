# Verified model of the go-fantasy-pl SDK core

A Dafny model of the stateful core of the SDK and proofs about it. `dafny verify dfyconfig.toml` checks everything.

| module | what it models |
|---|---|
| `MachineWords`, `Counting`, `Wrappers`, `CachePolicy` | Go's 64-bit words, saturating time subtraction, `math/bits`; finite counting; how long each response is kept and the sections of a bootstrap response |
| `TokenBucket` | the rate limiter of one client, as the machine computes it and as one exact number, `tokens * interval + credit` |
| `Throttle` | throttle policy resolution, wrapping and jittered backoff, `Retry-After` |
| `RetryLoop` | `GetContext`: the retry loop, its event trace, its planned waits and its open response bodies |
| `LimiterRuns` | any number of concurrent calls, each running the retry loop, against one limiter |
| `BatchPool` | the batch worker pool: workers, closer, consumer and cancellation in every interleaving |
| `MemoryCache`, `CacheRuns` | the in-memory TTL store, method by method, and under every interleaving of readers and writers |
| `BootstrapGate` | concurrent bootstrap lookups: cached read, one-slot gate, second read, one fetch, warming of all sections |
| `Keys` | cache keys and Redis prefixes |
| `ReadThrough` | the services over one store and one upstream: how old, and of which resource, an answer is |
| `Options`, `Construction` | client options as a fold, `NewClient` and `Close` with ownership on the heap |

Code that works step by step is modelled by classes and loops (`TokenBucket.RateLimiter`, `RetryLoop.Client`,
`MemoryCache.Cache`, `ReadThrough.Service`, `Construction.Client`, the helpers of `Throttle`), each proved against
specification functions whose properties are separate lemmas. Concurrency is modelled by transition systems: a
state, labelled steps `Can`/`Do`, runs `Legal`/`Exec` over arbitrary step sequences, one invariant kept by every
step, and theorems about every reachable state. What the environment decides (clock readings, context checks,
replies, jitter, which ready arm of a `select` wins) is an input of the method or a label of the step, so every
theorem holds for all of it.

## Where code and comments differ

The model follows the code.

- client/throttle.go:141 says an overflowing shift goes negative. For a base above 2^34 ns it can wrap to a small
  positive delay. `Throttle.NominalIsIdeal` gives the bound, `Throttle.BoundOnBaseIsNeeded` the witness one
  nanosecond above it, and `Throttle.NominalIdealIff` the exact condition for an arbitrary base.
- client/throttle.go:145 converts a float to an integer, which Go leaves open out of range.
  `Throttle.ConversionInRangeIff` gives the exact range; beyond it the model lets the conversion return anything.
- client/throttle.go:80-108: resolving a policy twice is not the same as resolving it once when a retry class was
  switched off with a negative count (`Throttle.ResolvingTwice`, an if-and-only-if; `Throttle.ResolvingTwiceReenables`
  is the witness). `GetContext` resolves once.
- client/options.go:29-32 says the final timeout option wins. A `WithHTTPClient` that follows it discards it:
  `Options.TimeoutHoldsIff` gives the exact condition, `Options.TimeoutCanBeDiscarded` the witness.
- client/client.go:165-166 says an owned transport is always a non-nil standard one. After `WithHTTPClient(nil)` and
  `WithTimeout` the client owns an `http.Client` without a transport (`Construction.OwnedWithoutTransport`), and `Close`
  then closes nothing. It holds exactly when no option replaced the default client (`Construction.OwnedTransportIff`).
- internal/cache/cache.go:104-134: a read is not atomic. If its key is refreshed between the snapshot and the clock
  check it can miss although an unexpired entry was there at every moment (`CacheRuns.RefreshCanCauseMiss`). A miss
  agrees with the plain map at the clock check exactly when the last write of its key since the snapshot is not a
  set still unexpired by then (`CacheRuns.MissIsAtomicIff`).

## Model

| member | source | states |
|---|---|---|
| MachineWords.Mul64 | client/rate_limiter.go:45 | high and low words are exactly the 128-bit product |
| MachineWords.Add64 | client/rate_limiter.go:46 | sum and carry are exact, the carry is at most one |
| MachineWords.Div64 | client/rate_limiter.go:48 | needs a high word below the divisor (where Go panics); quotient and remainder are exact and fit |
| TokenBucket.RefillIsExact | client/rate_limiter.go:33-55 | a refill keeps the invariant and sets the potential to min(P + elapsed * N, N * interval), for every capacity and interval an int64 holds |
| TokenBucket.PotentialDetermines | client/rate_limiter.go:39-54 | tokens and credit are determined by the potential, and a bucket is full exactly when its potential is |
| TokenBucket.RefillTwice | client/rate_limiter.go:33-55 | refilling at t and then at u earns what refilling at u earns |
| TokenBucket.PollingIsInvisible | client/rate_limiter.go:31-55 | refilling at any nondecreasing instants leaves the same tokens, credit and time as one refill at the last: no fraction is lost or created |
| TokenBucket.HighWordFits | client/rate_limiter.go:43-48 | an elapsed time below the interval keeps the high word below the divisor, so the division cannot panic |
| TokenBucket.Earn | client/rate_limiter.go:45-48 | the 128-bit multiply, add and divide are exact and meet every precondition |
| TokenBucket.EarnedIsExact | client/rate_limiter.go:49-54 | both branches after the division give the exact rational bucket |
| TokenBucket.FillsUp | client/rate_limiter.go:39-42 | the shortcut that skips the arithmetic gives the exact rational bucket too |
| TokenBucket.CeilDivLeast | client/rate_limiter.go:61-65 | the rounded-up quotient is the least d with d * N >= a |
| TokenBucket.DelayIsLeast | client/rate_limiter.go:57-67 | the delay is between 1 and the interval, and an empty bucket has a token at an instant exactly if the delay has passed by then |
| TokenBucket.SectionKeepsValid | client/rate_limiter.go:74-86 | the critical section keeps the invariant and an admission costs exactly one interval of potential |
| TokenBucket.SectionMeaning | client/rate_limiter.go:74-86 | the locked section case by case: who is admitted, what is left, and that the sleep is the least sufficient delay of the bucket it leaves |
| TokenBucket.WaitTakesAtMostOneToken | client/rate_limiter.go:69-105 | over any turns: a wait that aborts or still waits leaves what time alone earned; an admitted one took its single token from such a bucket |
| TokenBucket.WaitEndsFirst | client/rate_limiter.go:72-105 | the wait ends on the first turn with a finished context, a token or an interrupted sleep, admitted if that turn has a token and an active context and aborted otherwise |
| TokenBucket.UncontendedWaiterSleepsAtMostOnce | client/rate_limiter.go:72-105 | alone and not cancelled, a waiter is admitted on its second turn at the latest |
| TokenBucket.RateLimiter.constructor | client/rate_limiter.go:24-29 | a new limiter is a full bucket |
| TokenBucket.RateLimiter.Refill | client/rate_limiter.go:33-55 | the machine refill computes the exact rational bucket |
| TokenBucket.RateLimiter.NextDelay | client/rate_limiter.go:60-67 | the computed delay is the least after which the empty bucket has a token |
| TokenBucket.RateLimiter.CheckIn | client/rate_limiter.go:74-86 | a cancelled caller changes nothing; a token is handed out exactly if the refilled bucket has one; a caller sent to sleep is told the least delay after which the bucket it leaves has one |
| TokenBucket.RateLimiter.Wait | client/rate_limiter.go:72-105 | the loop follows the specification run turn by turn |
| Throttle.Resolve | client/throttle.go:82-108 | nonnegative budgets, 0 < base <= max and a positive cap; the switch and every positive setting are kept, and a negative count means no retries |
| Throttle.ZeroPolicyIsDocumented | client/throttle.go:67-78 | unset fields get 1 and 2 retries, 500 ms, 8 s and 2 minutes, and the default policy resolves to itself |
| Throttle.ResolvingTwice | client/throttle.go:80-108 | resolving is idempotent if and only if neither count is negative |
| Throttle.ResolvingTwiceReenables | client/throttle.go:83-88 | a class switched off with -1 has its default budget again after a second resolution |
| Throttle.NominalIsIdeal | client/throttle.go:139-144 | with int64 wrap-around, for 0 < base <= max and base <= 2^34 ns the nominal delay is min(base * 2^min(n-1, 30), max) |
| Throttle.NominalDoubles | client/throttle.go:137-144 | the first delay is the base, each of the next thirty doubles up to the cap, and from then on it stays |
| Throttle.NominalNondecreasing | client/throttle.go:139-144 | under the same bound the nominal delay never falls with the retry number |
| Throttle.NominalIdealIff | client/throttle.go:140-144 | for any base, the delay is the documented one exactly if the shift needs no cap or its wrapped word fails the guard or equals the cap |
| Throttle.BoundOnBaseIsNeeded | client/throttle.go:141-144 | at 2^34 + 1 ns the 31st retry waits about a second instead of the cap, less than the first retry does |
| Throttle.JitterBounds | client/throttle.go:137-152 | the wait is never above the cap, and lies between half and one and a half times the nominal delay while 1.5 times it fits an int64 |
| Throttle.BackoffIsDocumented | client/throttle.go:137-152 | the wait lies between half and one and a half times the ideal delay, never above the cap, and is exactly the jittered ideal rounded down |
| Throttle.ConversionInRangeIff | client/throttle.go:145 | the float conversion is in range for every jitter if and only if three times the nominal delay is at most 2^64 |
| Throttle.Backoff | client/throttle.go:139-153 | the computed wait is the jittered ideal delay, rounded down and capped |
| Throttle.DecimalDigits | client/throttle.go:182-192 | true exactly for one or more ASCII digits |
| Throttle.LeadingZero | client/throttle.go:164-169 | leading zeros do not change what a header value denotes |
| Throttle.DelaySecondsAreExact | client/throttle.go:159-170 | digits of any length, as in section 10.2.3 of RFC 9110, parse to min(value * 10^9, 2^63 - 1) nanoseconds |
| Throttle.RetryAfter | client/throttle.go:159-176 | accepts exactly delay-seconds and, otherwise, HTTP-dates; the result is the saturated value or the time until the date, never negative, and zero when it rejects |
| RetryLoop.PlannedWaitBounds | client/client.go:346-354 | a planned wait is at most the larger cap, and at most the backoff cap unless the status is 429 |
| RetryLoop.PlannedWaitIsDocumented | client/client.go:343-354 | the planned wait and the reported header value said of the header's digits, its date, and the ideal delay |
| RetryLoop.RetryEventWaits | client/client.go:325-330 | every retry event is for a 429 or 403 and carries that wait, with the retries of its class counted |
| RetryLoop.MaintenanceIsNotThrottled | client/client.go:223-312 | the maintenance reply and the throttled statuses exclude each other |
| RetryLoop.TrimmedIsNotice | client/client.go:235 | trimming and comparing recognises exactly the notice with white space around it |
| RetryLoop.TurnFollowsStops | client/client.go:288-340 | a turn is retried exactly if it does not meet the stop condition stated on the replies alone, and then reports the planned wait |
| RetryLoop.LoopEndsWhereItStops | client/client.go:288-340 | the loop ends at the first turn that meets the stop condition and has reported every turn before it |
| RetryLoop.RetriesWithinBudget | client/client.go:281-325 | the retries are exactly the 429 and 403 replies seen, each within its own budget |
| RetryLoop.WaitsWithinBudget | client/client.go:325-330 | waits planned so far are bounded by the retries of each class times that class's cap |
| RetryLoop.CallMeaning | client/client.go:276-341 | at most 1 + Max429 + Max403 attempts, one when disabled; events numbered 1, 2, ...; only the last can say nobody retries, with zero wait and a delivered reply; a delivered throttled reply has used up its budget |
| RetryLoop.LastTurnMeaning | client/client.go:289-340 | result, last event and counts of the turn a call ends on, by what that turn met |
| RetryLoop.CallOutcome | client/client.go:276-341 | the result of a whole call by what its last turn met: which failure, a copied 503 body, or the reply itself with its budget used up; what the observer hears last, header value included; and the exact admissions, attempts and replies |
| RetryLoop.CallWaitBound | client/client.go:276-354 | total planned waiting is at most Max429 * max(RetryAfterCap, MaxBackoff) + Max403 * MaxBackoff |
| RetryLoop.Client.CheckMaintenance | client/client.go:223-239 | only a 503 body is read and closed; the notice, surrounded by any white space, becomes a typed failure, any other payload comes back as an equal copy |
| RetryLoop.Client.ThrottleWait | client/client.go:346-354 | a 429 that asks to wait gets its seconds or its date, up to the cap; every other reply its jittered exponential delay |
| RetryLoop.Client.Emit | client/client.go:363-367 | an installed observer hears the event, otherwise nothing happens |
| RetryLoop.Client.JudgeReply | client/client.go:303-340 | what follows a reply: decision, events, and a body left open only when it is the one delivered |
| RetryLoop.Client.TakeTurn | client/client.go:289-340 | one turn: admissions, attempts and bodies counted exactly, no body open unless delivered |
| RetryLoop.Client.GetContext | client/client.go:276-341 | the loop computes the specified trace, terminates, and leaves exactly one more open body if it delivers a connection and none otherwise |
| LimiterRuns.StepKeepsLedger | client/rate_limiter.go:74-86 | tokens taken since any admission plus what the bucket holds never exceed a full bucket plus what time earned |
| LimiterRuns.StepKeepsTickets | client/client.go:289-301 | every request sent carries its own token |
| LimiterRuns.StepKeepsSleepers | client/rate_limiter.go:85-103 | unless a token is handed out meanwhile, the bucket holds one by the instant a sleeper asked for |
| LimiterRuns.SleepsUntilEarliest | client/rate_limiter.go:85-88 | in every reachable state a caller sent to sleep wakes at the earliest instant at which the bucket it left holds a token |
| LimiterRuns.EveryRequestIsRecorded | client/client.go:297-301 | the attempts the rate bound counts are all the requests of all callers |
| LimiterRuns.StepKeepsInv | client/rate_limiter.go:72-105 | every step of any caller keeps the whole invariant |
| LimiterRuns.RateBound | client/rate_limiter.go:31-86 | for any callers, retries and cancellations: attempts admitted between readings s <= t satisfy attempts * interval <= N * interval + (t - s) * N |
| LimiterRuns.OneTokenPerAttempt | client/client.go:288-297 | attempts spend pairwise different tokens, so there are never more attempts than tokens taken |
| LimiterRuns.WokenToEmptyWasOvertaken | client/rate_limiter.go:69-104 | a waiter that wakes to an empty bucket was overtaken: another admission happened since it went to sleep |
| LimiterRuns.AttemptsPerCaller | client/client.go:280-325 | no interleaving makes a call send more than 1 + Max429 + Max403 requests, or more than one when disabled |
| LimiterRuns.SendFollowsRetryLoop | client/client.go:306-340 | a caller of the concurrent system goes round again exactly when the retry loop does, with the same counters |
| BatchPool.StepKeepsPlaces | endpoints/async.go:101-117 | after every step each claimed position is in exactly one place: received, buffered, or with one worker; unclaimed ones in none |
| BatchPool.StepKeepsConserved | endpoints/async.go:85-122 | positions are conserved: claimed = received + buffered + held |
| BatchPool.StepKeepsShape | endpoints/async.go:85-122 | the buffer stays within the worker bound, the wait group counts the running workers, items carry the ID and answer of their position |
| BatchPool.RunKeepsInv | endpoints/async.go:79-125 | the invariant holds after every run |
| BatchPool.WorkersStarted | endpoints/async.go:85-98 | empty input starts nothing and hands out a closed channel; otherwise four workers start, or one for each input |
| BatchPool.SamePositionsSameIds | endpoints/async.go:109-111 | two arrangements of the same positions read the same multiset of IDs |
| BatchPool.EveryOccurrenceDelivered | endpoints/async.go:67-69 | uncancelled, a closed and drained pool delivered each position once, and the IDs delivered are the input multiset, duplicates kept |
| BatchPool.NothingTwice | endpoints/async.go:105-111 | cancelled or not, no two workers hold the same position, none is delivered twice, and every result matches its position |
| BatchPool.ClaimsTrackReceipts | endpoints/async.go:70-77 | positions claimed never exceed results received plus twice the number of workers, which is at most four |
| BatchPool.ClosedForGood | endpoints/async.go:119-122 | after the close nothing is sent, claimed or closed again; only receives and cancellation remain |
| BatchPool.EveryStepWorks | endpoints/async.go:98-122 | every step lowers a measure of unclaimed positions, worker program counters and buffered results |
| BatchPool.RunsAreBounded | endpoints/async.go:79-125 | no run has more than 5 * len(ids) + 2 * workers + 2 steps |
| BatchPool.NeverStuck | endpoints/async.go:73-77 | until closed and drained some step other than cancelling is enabled; once cancelled the pool needs no consumer to close |
| BatchPool.RunsEndDelivered | endpoints/async.go:67-78 | a run that cannot go on is closed and drained, and if never cancelled it delivered the whole input |
| BatchPool.CancellationStopsDispatch | endpoints/async.go:92-106 | after a cancellation each worker claims at most one more position, and the counter grows by at most the number of workers |
| MemoryCache.SimulationReadsTheSame | internal/cache/cache.go:104-134 | a store that lacks only expired entries reads like the plain map, now and later |
| MemoryCache.Cache.SetContext | internal/cache/cache.go:74-95 | stores exactly the serialized entry with its expiry, or nothing on any of the three errors |
| MemoryCache.Cache.GetContext | internal/cache/cache.go:106-134 | the exact result for every combination of context checks, expiry and decoding, what is evicted, and that undisturbed it hits exactly what the plain map serves |
| MemoryCache.Cache.DeleteIfStillExpired | internal/cache/cache.go:141-150 | removes the entry if it is expired at the re-check, and changes nothing else |
| MemoryCache.Cache.Delete | internal/cache/cache.go:153-157 | removes the key and nothing else |
| MemoryCache.Cache.Clear | internal/cache/cache.go:160-164 | leaves nothing |
| MemoryCache.Cache.Cleanup | internal/cache/cache.go:167-177 | leaves exactly the unexpired entries, in whatever order the map is walked |
| CacheRuns.StepKeepsSimulation | internal/cache/cache.go:74-177 | every step of any interleaving keeps the simulation of a map changed only by set, delete and clear |
| CacheRuns.StepKeepsReaders | internal/cache/cache.go:106-134 | every step keeps the justification each reader carries |
| CacheRuns.EvictionIsInvisible | internal/cache/cache.go:121-177 | in every reachable state the store reads like the never-evicted map at every later instant |
| CacheRuns.LiveEntriesStay | internal/cache/cache.go:136-150 | no unexpired entry leaves except by a set, delete or clear naming it |
| CacheRuns.AnswersAreJustified | internal/cache/cache.go:111-133 | a hit is the entry served at the snapshot, unexpired at the check and decoded; a miss found nothing or an entry expired by the check; a failure found a live entry that did not decode |
| CacheRuns.CheckIsExact | internal/cache/cache.go:117-133 | what the clock check makes of a snapshot: a miss, an eviction, a hit only if the bytes decode, otherwise a decode failure |
| CacheRuns.ExpiredIsReclaimed | internal/cache/cache.go:141-177 | nothing expired survives a cleanup or the re-check of its key, and nothing else is removed |
| CacheRuns.LastWriteDecides | internal/cache/cache.go:74-164 | after any run the plain map holds for a key exactly what the last write of it left, and what it held before if there was none |
| CacheRuns.MissIsAtomicIff | internal/cache/cache.go:111-124 | when a read misses, the plain map serves nothing at the clock check if and only if the last write of the key since the snapshot is not a set still unexpired at the check |
| CacheRuns.MissWithoutSetIsAtomic | internal/cache/cache.go:111-124 | in particular, a read no set of its key overlaps misses only if the plain map serves nothing at that moment |
| CacheRuns.WithoutSetNothingNew | internal/cache/cache.go:90-93 | while nobody sets a key, the map keeps its entry or loses it |
| CacheRuns.RefreshCanCauseMiss | internal/cache/cache.go:111-124 | a concrete run in which the key is served throughout a read that misses |
| BootstrapGate.StepKeepsGate | endpoints/bootstrap.go:291-300 | every step keeps the gate's occupancy equal to the callers past acquisition, at most one |
| BootstrapGate.StepKeepsCells | endpoints/bootstrap.go:339-359 | every stored section comes from a response for its own store that contained it |
| BootstrapGate.StepKeepsCallers | endpoints/bootstrap.go:304-360 | the same of every value on its way to a caller |
| BootstrapGate.StepKeepsFlights | endpoints/bootstrap.go:302-310 | while a caller is about to fetch or fetching, nobody else can make its section served |
| BootstrapGate.GateHoldsOne | endpoints/bootstrap.go:291-300 | in every reachable state at most one caller is inside, the gate says so, and it is empty once all have returned |
| BootstrapGate.NeverStranded | endpoints/bootstrap.go:291-300 | with any cancellations, while a call is open some call can take a step |
| BootstrapGate.OwnStepsLowerRank | endpoints/bootstrap.go:282-361 | every step of a call's own lowers its rank, and no step of anybody raises it |
| BootstrapGate.CallsReturn | endpoints/bootstrap.go:291-361 | in every run a call takes at most eleven steps of its own, and once no call can take a step all have returned and the gate is empty |
| BootstrapGate.FetchesAreJustified | endpoints/bootstrap.go:302-310 | a fetch starts only with the gate held and its section absent, expired or just found unreadable |
| BootstrapGate.ValuesComeFromTheirStore | endpoints/bootstrap.go:320-360 | a returned value was in a response fetched for the caller's own store |
| BootstrapGate.CachedValuesAreUnexpired | endpoints/bootstrap.go:285-308 | a returned value read from the store was stored there after it was received and at most its section's lifetime before the read |
| BootstrapGate.ReadsAnswerExactly | endpoints/bootstrap.go:285-308 | in every reachable state an active caller's read answers from the store exactly if its section was stored at most its lifetime ago; otherwise the first read goes to the gate and the second to a fetch |
| BootstrapGate.FailuresHaveCauses | endpoints/bootstrap.go:285-359 | a call fails only because its own context is done, its fetch fails, or the response lacks its section; never for a store error or another caller |
| BootstrapGate.CancelledCallerStopsWarming | endpoints/bootstrap.go:353-358 | a cancelled caller warms no further than the write that finds out, and fails |
| BootstrapGate.CalmKeepsSingleFlight | endpoints/bootstrap.go:302-360 | while nothing expires or vanishes and no attempted read or write fails, every step keeps the single-flight invariant, with cancellations at any point |
| BootstrapGate.OneFetchPerStore | endpoints/bootstrap.go:278-361 | in such a run at most one fetch per store completes, every section is served afterwards, and nobody is fetching again; a caller cancelled before its warming writes is included |
| Keys.DigitsDenote | endpoints/fixtures.go:102 | decimal printing of a natural number is a nonempty digit string that denotes it |
| Keys.DecimalInjective | endpoints/manager.go:55 | no two integers, negatives included, print alike |
| Keys.KeyShowsItsKind | endpoints/bootstrap.go:344-347 | the kind of resource can be read off any key |
| Keys.KeyInjective | endpoints/manager.go:102 | distinct resources never share a key, for all integer IDs, pages and gameweeks |
| Keys.KeyHasNoColon | endpoints/leagues.go:76 | no key contains the prefix separator |
| Keys.StoredKeyInjective | internal/cache/redis_cache.go:98-103 | prefixed keys are distinct over all prefixes at once, the empty one and ones with colons included |
| ReadThrough.WriteKeepsSound | endpoints/cache_provider.go:48-65 | writing one resource leaves the provenance of every other entry intact |
| ReadThrough.DerivedIsFresh | endpoints/fixtures.go:115-117 | what is derived from a list is as fresh as the list |
| ReadThrough.FirstFixtureMatches | endpoints/fixtures.go:115-124 | the search finds exactly the first fixture with the ID, and nothing exactly if there is none |
| ReadThrough.FirstCurrentMatches | endpoints/bootstrap.go:157-163 | the search finds exactly the first week marked current, and nothing exactly if none is |
| ReadThrough.FirstNextMatches | endpoints/bootstrap.go:192-201 | the same of the first week marked next |
| ReadThrough.FindFixture | endpoints/fixtures.go:115-124 | the loop finds the first fixture with the ID, or there is none |
| ReadThrough.FindCurrent | endpoints/bootstrap.go:157-163 | the loop finds the first week marked current, or there is none |
| ReadThrough.FindNext | endpoints/bootstrap.go:192-201 | the loop finds the first week marked next, or there is none |
| ReadThrough.FreshMeaning | endpoints/cache_provider.go:27-65 | freshness in plain words: the value was answered for that very resource no earlier than stated, or read off such a list |
| ReadThrough.Lifetimes | endpoints/bootstrap.go:26-32 | the lifetime of every resource in plain numbers, and that the first three league pages are kept |
| ReadThrough.FreshFixtureHasId | endpoints/fixtures.go:102-108 | an entry under a fixture's key is that fixture |
| ReadThrough.ThroughAnswer | endpoints/cache_provider.go:38-63 | with an active context and a reply there is always an answer, whatever errors the store reports |
| ReadThrough.SectionAnswer | endpoints/bootstrap.go:353-357 | the same of a section lookup: failing reads and failing warming writes never cost the decoded answer |
| ReadThrough.ThroughMeaning | endpoints/leagues.go:66-109 | a fetch-through case by case, on the context checks, the entry's expiry and the store's errors |
| ReadThrough.SectionMeaning | endpoints/bootstrap.go:282-361 | a section lookup case by case, in the same way |
| ReadThrough.TeamMeaning | endpoints/manager.go:94-128 | the answer is the picks of the first week marked current, and an error if none is |
| ReadThrough.ArrivalsAreTheResponse | endpoints/bootstrap.go:331-348 | only sections the response contains are recorded as received, with their values |
| ReadThrough.WarmingStops | endpoints/bootstrap.go:353-358 | after a write that finds the context finished no later section is written |
| ReadThrough.WarmNext | endpoints/bootstrap.go:349-353 | one round of the warming loop writes its own section or nothing, and no other section |
| ReadThrough.OtherKeysUntouched | endpoints/bootstrap.go:339-359 | warming the sections never changes what is served for another resource |
| ReadThrough.Service.Forget | internal/cache/cache.go:153-177 | entries may vanish between operations without harm |
| ReadThrough.Service.CacheGet | endpoints/cache_provider.go:27-46 | a finished context is the only error; a store error is a miss, anything else the live entry or a miss |
| ReadThrough.Service.CacheSet | endpoints/cache_provider.go:48-65 | best effort; a finished context is an error even after a successful write |
| ReadThrough.Service.GetThrough | endpoints/live.go:57-89 | the fetch-through of live data, managers, histories, league pages and fixture lists: every answer is at most one TTL old and of that very resource; the answer, the store and the requests made are exact, so a live readable entry needs no request, a failing read falls through to the reply, a failing write still answers it, and league pages past the third are never stored |
| ReadThrough.Service.ReadDerived | endpoints/bootstrap.go:179-185 | a derived entry is at most twice the list's TTL old |
| ReadThrough.Service.GetFixture | endpoints/fixtures.go:96-125 | the first fixture with that ID in a list at most twenty minutes old, reported missing only if a list at most ten minutes old lacks it; answer, store and requests are exact, a store error counting as a miss or a lost write |
| ReadThrough.Service.Warm | endpoints/bootstrap.go:339-359 | every section present is stored with its own TTL unless its write fails, a failed write stops nothing, a finished context stops the rest, and absent sections keep the entries they had |
| ReadThrough.Service.GetSection | endpoints/bootstrap.go:282-361 | at most one TTL old; exact answer, store and requests: a live readable entry needs no request, a fetch warms every section present, a response without the section is an error and stores nothing, store errors never fail the call |
| ReadThrough.Service.GetNextGameweek | endpoints/bootstrap.go:173-202 | the first week marked next, in metadata at most six minutes old, and an error if none is; answer, store and requests are exact, a store error counting as a miss or a lost write |
| ReadThrough.Service.GetCurrentGameweek | endpoints/bootstrap.go:151-164 | the first week marked current, in metadata at most three minutes old; an error exactly if the section lookup fails or no week is marked current |
| ReadThrough.Service.GetCurrentTeam | endpoints/manager.go:88-129 | the picks of the first week the metadata, at most three minutes old, marks current, themselves at most five minutes old; answer, store and requests are exact |
| Options.LastCacheOptionWins | client/options.go:97-160 | the cache outcome is that of the last cache option alone, whatever earlier options left in the fields and whatever rate options fail |
| Options.LastRateOptionWins | client/options.go:54-70 | the rate outcome, error or limit, is that of the last rate option alone; cache options neither set nor clear it |
| Options.LastPlainOptionWins | client/options.go:47-95 | base URL, policy, observer and diagnostics handler are those of the last option of the kind |
| Options.LastHttpOptionsWin | client/options.go:19-45 | where the HTTP client comes from and its timeout, from the last WithHTTPClient and the last WithTimeout |
| Options.LastWord | client/options.go:22-160 | what each option does when it comes last, whatever came before it |
| Options.Defaults | client/client.go:23-97 | without options: 50 requests a minute, ten seconds, the store of the environment |
| Options.TimeoutHoldsIff | client/options.go:29-45 | the last timeout takes effect if and only if no WithHTTPClient follows it |
| Options.TimeoutCanBeDiscarded | client/options.go:22-45 | a timeout followed by a supplied client leaves that client's own timeout in force |
| Options.KindsAreSeparate | client/options.go:22-160 | options of one kind leave the fields of the others alone |
| Construction.Network.NewRedisCache | internal/cache/redis_cache.go:36-66 | one pool is opened and returned open, or closed again when its ping fails |
| Construction.Network.ConfigureDefaultCache | client/default_cache.go:38-59 | at most one pool; memory without ownership when told so or when the automatic backend's ping fails |
| Construction.Client.constructor | client/client.go:76-97 | the defaults, with an own transport, a full default limiter, and nothing closed or failed yet |
| Construction.Client.ApplyHttp | client/options.go:22-45 | a borrowed HTTP client is copied, never written; only objects the SDK made are modified |
| Construction.Client.ApplyCache | client/options.go:104-160 | the field assignments of the cache options carry out the fold |
| Construction.Client.ApplyPlain | client/options.go:48-95 | so do those of the remaining options; a rejected rate leaves the limiter alone |
| Construction.Configured | client/client.go:99-101 | running the options in order yields the fold, over fresh objects only |
| Construction.SelectCache | client/client.go:111-120 | opens the one pool the selection asks for and owns exactly a pool it opened |
| Construction.NewClient | client/client.go:75-134 | error, pools opened and store follow from the last option of each kind: cache errors first, then rate errors, a pool only after both are clear, at most one, left open only inside the client that owns it; no caller's object is modified |
| Construction.VerdictMeaning | client/client.go:103-120 | cache errors come before rate errors and neither opens a pool; otherwise only a cache that cannot be had fails, and only the automatic backend does without an answering server |
| Construction.OwnedTransportIff | client/client.go:165-171 | an owned transport is a standard one if and only if no WithHTTPClient occurs; otherwise there is none |
| Construction.OwnedWithoutTransport | client/client.go:165-171 | WithHTTPClient(nil) then WithTimeout gives a client that owns no transport at all |
| Construction.Client.Close | client/client.go:158-174 | closes the pool it dialed and the idle connections of its own transport once, answers the same ever after, and touches nothing a caller supplied |

## Left out

- HTTP transport, TLS, URL building, JSON and error-message text: a fetch is a nondeterministic outcome, a cached value an opaque immutable payload except for fixture lists and gameweek flags.
- Draining a bounded prefix of a body before closing it: it changes no state the model has.
- Redis reads, writes, deadlines and `Clear`: only the key prefixing is modelled. Clearing one prefix can match keys of a longer prefix that starts with it and a colon, so no isolation of nested prefixes is stated.
- Parsing of HTTP-dates, environment variables and decimal strings by Go's libraries: what they denote is an input.
- Floating-point rounding in the backoff: jitter and scaling are over the reals.
- Go's timers, mutexes and memory model: critical sections are atomic steps and the clock does not run backwards.
- LimiterRuns.RateBound: counts an attempt at the instant its token is taken, not when the request leaves the machine.
- LimiterRuns.AttemptsPerCaller: backoff sleeps have no duration in the concurrent model; their lengths are bounded in `RetryLoop`.
- BatchPool.EveryOccurrenceDelivered: what a position's fetch brings back is fixed before the run, which loses nothing as each position is fetched at most once; fetches themselves terminate.
- BatchPool.NeverStuck: progress means that some step is enabled and every run is finite; no scheduler fairness is modelled.
- BootstrapGate.CallsReturn: the same; the steps are bounded, when they happen is the scheduler's choice, and a fetch in flight can always fail.
- ReadThrough.Service.GetThrough: an unreadable entry is a plain miss. In the source `GetEventLive` (endpoints/live.go:64-76), `GetManager` and `GetManagerHistory` (endpoints/manager.go:56-67 and 144-155) decode the reply into the struct a failed cached read may have partly filled, so a field the reply omits could keep an older value; league, player-history and fixture lookups use a fresh one.
- ReadThrough.Service.GetCurrentTeam: the same holds of the picks (endpoints/manager.go:104-124).
- ReadThrough.Service.GetSection: the same holds of a second cached read that follows an unreadable first one (endpoints/bootstrap.go:284-307); the fetched response is decoded afresh.
- Operations of `ReadThrough` take no time, so a response counts as received when it is stored; concurrent callers of the bootstrap lookup are in `BootstrapGate`, concurrent readers and writers of the store in `CacheRuns`.
- Construction.NewClient: construction is sequential, so nobody changes a caller's HTTP client while the options run; the services it creates hold no state of their own.
- Construction.Client.Close: concurrent calls are serialised by the once guard, which is modelled as a flag.
- Custom stores: what a caller's own store does is limited to holding, losing and failing to hold entries.
- `cacheFor` and the process-wide legacy store: the store of an operation is captured once and given.
- `internal/conformance`, `models/`, `examples/`, `GetTotalPages`, `deliverAsync`, head-to-head leagues, simple lookups and getters: short code that would only add easy members.
