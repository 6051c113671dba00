# Verified control logic of the LLM gateway

The gateway sits between clients and several LLM providers. It decides whether
a provider may be called (circuit breaker), whether a tenant may spend (budget
ledger, prices), whether a key may call now (token bucket), whether an answer is
already known (caches), and how an answer is relayed (streams, hedged calls,
translation). Each of these components is small; what it promises only shows
over whole runs and interleavings. This project models them in Dafny and proves
those promises.

Conventions shared by all modules:

- Objects whose methods update fields are classes. Each method is proved
  against a function on the object's abstract value, and the theorems are about
  sequences of those functions.
- A lock-protected section is one step. Where the code reads something before
  it takes the lock, the read is a step of its own. A run is any sequence of
  steps; a step that is not ready changes nothing, so every interleaving is a
  sequence.
- Time is passed in. USD amounts, rates, vectors and bucket tokens are exact
  reals; counters are unbounded integers.
- Hashes, embedding vectors, similarity scores, JSON codecs and path globbing
  are arbitrary functions: what is proved holds for each of them.

| module | component | main results |
|---|---|---|
| `CircuitBreaker` | breaker | opens exactly on consecutive failures, leaves half-open and open exactly on the results and times it should, stays quiet for the timeout, bounded and attained probe count per episode |
| `BreakerCallers` | breaker with chat, stream and embedding requests | slots held never exceed calls in flight; an idle breaker admits; how a request moves through its providers |
| `Budget`, `BudgetRuns` | ledger, reservations | conservation, clamps never fire, settlement once, bound by the largest limit |
| `BudgetLimits` | changing limits | the exact conditions for staying within the limit in force, for lowered limits and for stale snapshots |
| `BudgetHandlers` | request handlers over the ledger | a handler that returned has settled, in every interleaving and through panics; what is committed is what the requests owe |
| `BudgetLua`, `BudgetRedis` | the two Redis scripts | step-for-step simulation of the ledger, exactly for windows of at most 35 days; conservation of the hashes |
| `Pricing`, `PricedBudget` | price catalog | the estimate dominates every known price; priced runs stay within the USD limit |
| `TokenBucket`, `LuaBucket` | rate limiters | forgetting is invisible exactly when burst <= 10 rpm; grants per window are bounded under exactly that condition; Redis and process decide alike under the same condition |
| `LruCache`, `ExactReads`, `SemanticCache` | caches | no Belady anomaly, hits return the last write; the index invariant, and best-answer lookup under concurrent writes with its exact condition |
| `StreamRelay`, `Hedge` | streaming hand-off, hedged race | body shape, when and which errors are reported, progress, result of every schedule |
| `RedisClients` | replaceable Redis connection | callbacks only see open clients; each client installed or closed once; the URL in force is the last one swapped in |
| `GlobRegex` | model patterns | the compiled expression is the glob |
| `AnthropicStream` | Anthropic translation | streamed and whole responses agree |

Where the code does less than its comments or tests suggest, the model follows the code:

- `DoHedge` does not hedge when the primary fails before the timer: it returns
  the primary's error even if the fallback would succeed
  (`Hedge.EarlyFailureIsNotHedged`, `Hedge.AlwaysSucceedsExactlyWhen`).
- A provider error that arrives after the last chunk can be lost, because the
  relay may see the chunk channel closed first and that branch returns at once:
  for every failing provider that sends a chunk some schedule loses the error.
  If it sends none, no stream ends on it and the error goes to the next provider
  or ends the request.  No chunk is ever lost silently
  (`StreamRelay.ErrorReportedExactlyWhen`, `StreamRelay.FinishedBodyShape`).
- A lowered limit does not reach back, and a reservation is checked against
  limits read before the lock, so usage can pass the limit in force
  (`BudgetLimits.CurrentLimitHoldsExactlyWhen`,
  `BudgetLimits.StaleAdmissionsWithinExactlyWhen`).
- A streaming handler that panics never settles its reservation: only the other
  handlers have a deferred cancel (`BudgetHandlers.PanickedStreamNeverSettles`,
  `BudgetHandlers.StreamsCanPanic`).
- A semantic lookup locks the index but not the exact cache, so it can return a
  value although a better one was set after it had been probed
  (`SemanticCache.ReturnsBestExactlyWhen`).
- The Anthropic stream says `stop` where the whole response says `tool_calls`
  (`AnthropicStream.EndAgrees`), and sends no arguments for a tool called with
  none where the whole response says `{}` (`AnthropicStream.ArgumentsAgree`).
- A wildcard in a compiled pattern does not match a newline
  (`GlobRegex.NewlinesBreakWildcards`).

## Model

| member | source | states |
|---|---|---|
| `CircuitBreaker.Normalize` | internal/resilience/circuit.go:37-70 | every setting of a new breaker is positive; valid settings are kept, others become 5 failures, 30 seconds and 1 probe |
| `CircuitBreaker.Breaker.constructor` | internal/resilience/circuit.go:58-70 | a new breaker is closed with all counters zero |
| `CircuitBreaker.Breaker.Allow` | internal/resilience/circuit.go:72-97 | answer and whole new state for each of the three states |
| `CircuitBreaker.Breaker.RecordSuccess` | internal/resilience/circuit.go:99-121 | whole new state, a late success on an open breaker included |
| `CircuitBreaker.Breaker.RecordFailure` | internal/resilience/circuit.go:123-144 | whole new state, a late failure on an open breaker included |
| `CircuitBreaker.Breaker.ReadState` | internal/resilience/circuit.go:146-157 | reading turns a timed-out open breaker half-open with no slot taken |
| `CircuitBreaker.Breaker.UpdateConfig` | internal/resilience/circuit.go:169-182 | only positive settings replace the old ones; state and counters stay |
| `CircuitBreaker.TrackKeepsTracked` | internal/resilience/circuit.go:72-157 | invariant of every run: the failure counter is the number of trailing failures since closing, slots and successes stay below the maximum, the episode count is covered by them |
| `CircuitBreaker.TrailingFailuresMeaning` | internal/resilience/circuit.go:123-133 | the last k results are failures if and only if k is at most the trailing count |
| `CircuitBreaker.OpensExactlyOnConsecutiveFailures` | internal/resilience/circuit.go:123-133 | after every run, the next event opens a closed breaker if and only if it is a failure and the last FailureThreshold results since closing are all failures |
| `CircuitBreaker.HalfOpenEndsExactlyOn` | internal/resilience/circuit.go:99-144 | after every run a half-open breaker opens again if and only if a failure is recorded, from that moment, and closes if and only if a success completes HalfOpenMax of them in the episode |
| `CircuitBreaker.OpenEndsExactlyOn` | internal/resilience/circuit.go:72-157 | after every run an open breaker changes only by turning half-open, exactly when asked or read once the timeout since the failure that opened it has run; a closed one never turns half-open |
| `CircuitBreaker.QuietAfterOpening` | internal/resilience/circuit.go:72-97 | after opening, from either state, no continuation with times before the timeout admits a call |
| `CircuitBreaker.EpisodeAdmissionBound` | internal/resilience/circuit.go:72-156 | no half-open episode of any run admits more than 2 HalfOpenMax - 1 calls |
| `CircuitBreaker.EpisodeBoundIsAttained` | internal/resilience/circuit.go:72-156 | every configuration has a run that reaches that bound |
| `CircuitBreaker.UnrecordedProbesBlock` | internal/resilience/circuit.go:72-97 | once the slots are held by calls that never record, time and reads alone admit nothing, which is why callers must record |
| `BreakerCallers.RunKeepsSlotsBacked` | internal/proxy/handler.go:592-734 | joint invariant of breakers and requests over every interleaving of chat, stream and embedding requests, state reads and reconfiguration |
| `BreakerCallers.SlotsNeverExceedCallsInFlight` | internal/proxy/handler.go:604-628 | a half-open breaker's pending slots never exceed the calls it admitted that have not recorded |
| `BreakerCallers.IdleBreakerAdmits` | internal/proxy/embeddings.go:363-413 | with none in flight and the open timeout passed, Allow answers true |
| `BreakerCallers.RequestStartsWith` | internal/proxy/handler.go:662-672 | a request starts with its primary, unless that cannot embed, and goes on with the usable part of the chain |
| `BreakerCallers.FallbacksAre` | internal/proxy/handler.go:592-601 | the providers after the primary are exactly the registered others of the chain, for embeddings those that embed |
| `BreakerCallers.FallbacksInOrder` | internal/proxy/handler.go:592-601 | in the order of the chain |
| `BreakerCallers.ProviderCalledExactlyWhen` | internal/proxy/handler.go:604-609 | after every run a provider is called if and only if its breaker admits, and otherwise passed over |
| `BreakerCallers.SkippedGoesOn` | internal/proxy/handler.go:670-712 | a chat request whose provider was skipped goes on with the next one |
| `BreakerCallers.CallEndsExactlyWhen` | internal/proxy/handler.go:670-734 | after every run an ended call is recorded with its own breaker only, and its request is over if and only if it succeeded, none is left, or the failure is final and came from the primary or a stream; otherwise the next provider is tried |
| `BreakerCallers.ReadsAndReloads` | internal/resilience/circuit.go:146-182 | metric reads and reloads touch one breaker, and only its state when timed out or only its settings |
| `Budget.MemKeyIdentifiesAccount` | internal/budget/budget.go:441-443 | the joined key is injective on tenant and month |
| `Budget.Manager.UpdateConfig` | internal/budget/budget.go:123-137 | settings change, usage does not |
| `Budget.Manager.Check` | internal/budget/budget.go:194-205 | refuses exactly when budgets apply and the account has reached a positive limit |
| `Budget.CheckPassesExactlyWhen` | internal/budget/budget.go:405-423 | a check passes if and only if some reservation of positive tokens and USD would still be admitted |
| `Budget.Manager.ReserveMem` | internal/budget/budget.go:300-316 | admits up to the limit, charges on admission, leaves an (empty) account on refusal |
| `Budget.Manager.Adjust` | internal/budget/budget.go:353-378 | new ledger with both clamps at zero, and whether it is over a limit |
| `Budget.Manager.Reserve` | internal/budget/budget.go:207-236 | a fresh unsettled reservation of the clamped amount exactly on admission; nothing when disabled or anonymous |
| `Budget.Manager.Record` | internal/budget/budget.go:345-351 | adjusts by the recorded usage unless disabled or anonymous |
| `Budget.Reservation.Commit` | internal/budget/budget.go:238-258 | the first settlement adjusts by the clamped actual minus the reserved amount; later calls change nothing and repeat the answer |
| `Budget.Reservation.Cancel` | internal/budget/budget.go:260-267 | the first settlement gives the reserved amount back; later calls change nothing |
| `Budget.Settle` | internal/proxy/handler.go:316-411 | each way a request ends settles its reservation exactly once, for the charge of that ending |
| `Budget.Serve` | internal/proxy/embeddings.go:254-313 | from reservation to return an admitted request leaves on its own account the actual usage if completed, the estimate if its stream started, nothing otherwise; a refused one leaves nothing |
| `Budget.ReserveThenSettle` | internal/budget/budget.go:300-378 | reserving and settling for an actual amount charges that amount and no other account |
| `BudgetRuns.LedgerConserved` | internal/budget/budget.go:207-267 | in every run each account equals unsettled reservations plus committed plus recorded usage |
| `BudgetRuns.RecordKeepsSumExactlyWhen` | internal/budget/budget.go:345-378 | after any such run the sum survives one more record, of any sign, if and only if that record does not overdraw the account |
| `BudgetRuns.ClampsNeverFire` | internal/budget/budget.go:353-378 | in every run a settlement changes its account by exactly actual minus reserved, so the clamps at zero have no effect |
| `BudgetRuns.SettlesOnce` | internal/budget/budget.go:238-267 | whatever happens in between, a second commit or cancel of a reservation changes nothing |
| `BudgetRuns.UsageBoundedByLargestLimit` | internal/budget/budget.go:185-233 | if all limits ever installed are positive, usage never exceeds the largest of them plus commit overruns plus recorded usage, for tokens and for USD, although limits are read before the lock |
| `BudgetLimits.CurrentLimitHoldsExactlyWhen` | internal/budget/budget.go:123-137 | for every history of positive limits, all runs stay within the limit in force plus overruns plus recorded usage if and only if the limits never go down, for tokens and for USD |
| `BudgetLimits.StaleAdmissionsWithinExactlyWhen` | internal/budget/budget.go:300-316 | over all runs, admissions under a limit read before the lock stay within the one in force if and only if the one read is not the larger |
| `BudgetHandlers.RunKeepsOk` | internal/proxy/handler.go:316-411 | in every interleaving each reservation belongs to one handler and its phase fits where that handler is |
| `BudgetHandlers.ReturnedHasSettled` | internal/proxy/handler.go:316-411 | in every interleaving a handler that returned was refused or has settled, panics included; one that is over still holds its reservation if and only if it is a stream that panicked |
| `BudgetHandlers.PanickedStreamNeverSettles` | internal/proxy/handler.go:322-334 | in any run, an admitted stream that panics keeps its reservation open and its amount on the ledger whatever happens afterwards |
| `BudgetHandlers.StreamsCanPanic` | internal/proxy/handler.go:316-334 | such streams exist for every estimate the limits admit, charged in full |
| `BudgetHandlers.RunProjects` | internal/proxy/embeddings.go:254-313 | every run of the handlers is a run of the ledger, so its laws apply |
| `BudgetHandlers.CommittedIsOwed` | internal/proxy/handler.go:316-411 | in every run what is committed to an account is the sum over its settled handlers of the actual usage if completed, the estimate if a stream started, and nothing if the call failed, never started or panicked before the commit |
| `BudgetHandlers.QuietLedgerHoldsOnlyActuals` | internal/proxy/embeddings.go:254-313 | once every handler has returned an account holds exactly that sum and the recorded usage |
| `BudgetHandlers.ServedToTheEnd` | internal/proxy/handler.go:322-411 | in any run a request being served can run to its end for every outcome, returning and being billed by it |
| `BudgetLua.RedisLedger.ReserveScript` | internal/budget/budget.go:450-467 | answer and new hash of the reserve script, with expiry |
| `BudgetLua.RedisLedger.AdjustScript` | internal/budget/budget.go:469-486 | answer and new hash of the adjust script, with expiry |
| `BudgetLua.FreshRunsAgree` | internal/budget/budget.go:450-486 | with fixed limits the scripts give the in-memory answers, and leave the same usage in every hash, in every run in which no account is used 35 days or more after its last write |
| `BudgetRedis.RunIsOperations` | internal/budget/budget.go:318-403 | every budget run under fixed limits is, for the ledger, the sequence of its reservations and adjustments |
| `BudgetRedis.HashesConserved` | internal/budget/budget.go:450-486 | in such runs each Redis hash equals the account's unsettled reservations plus committed plus recorded usage |
| `BudgetLua.ScriptsSimulateLedger` | internal/budget/budget.go:300-378 | in particular to every run whose operations fall within 35 days of their month's start |
| `BudgetLua.ExpiredAccountsDiffer` | internal/budget/budget.go:18-24 | for every limit and time, 35 days after it was filled an account is open to the script and closed to the ledger |
| `BudgetLua.WindowConditionIsExact` | internal/budget/budget.go:450-486 | both agree on all runs with each account's operations inside a window if and only if it has at most 35 days or nothing is limited |
| `Pricing.NewCatalog` | internal/pricing/catalog.go:47-82 | a catalog is built exactly from acceptable settings, with the same rules, sorted |
| `Pricing.SortStableSorts` | internal/pricing/catalog.go:75-80 | the rule order is by provider, then model |
| `Pricing.BestRule` | internal/pricing/catalog.go:146-182 | the chosen rule is eligible and no eligible rule beats it; one is chosen if any is eligible |
| `Pricing.FindBestRule` | internal/pricing/catalog.go:146-175 | the loop computes that rule |
| `Pricing.ExactRuleWins` | internal/pricing/catalog.go:146-182 | an eligible rule for exactly the model is never passed over for a pattern |
| `Pricing.KnownPriceIs` | internal/pricing/catalog.go:84-98 | a known price is prompt tokens times the input rate plus completion tokens times the output rate of one covering rule, per million, negative counts taken as none |
| `Pricing.PriceKnownExactlyWhen` | internal/pricing/catalog.go:84-144 | a price is known if and only if a chat rule covers the model; otherwise it is refused or the fallback per million, by policy |
| `Pricing.Dearest` | internal/pricing/catalog.go:105-127 | the chosen rule matches the model and no matching rule costs more |
| `Pricing.ComputeEstimate` | internal/pricing/catalog.go:105-127 | the loop computes the estimate from that rule, or the unknown-price answer |
| `Pricing.EstimateDominatesPrice` | internal/pricing/catalog.go:84-127 | whenever a provider's chat price is known, the estimate for counts at least as large is known and no cheaper |
| `Pricing.NegativeCountsUndercut` | internal/pricing/catalog.go:105-127 | for any negative count there is a catalog whose price is above the estimate, since only the price clamps counts |
| `Pricing.DominanceConditionIsExact` | internal/pricing/catalog.go:84-127 | an estimate dominates the prices of all smaller counts in all catalogs if and only if neither of its counts is negative |
| `PricedBudget.CommitWithinReservation` | internal/proxy/handler.go:395-450 | a request within its estimate at a known price commits at most what it reserved |
| `PricedBudget.PricedRunsStayWithinUsdLimit` | internal/proxy/handler.go:433-450 | runs of such requests never pass the positive monthly USD limit |
| `TokenBucket.Limiter.constructor` | internal/ratelimit/token_bucket.go:47-60 | sixteen empty shards and the configured rate and burst |
| `TokenBucket.Limiter.RefillLocked` | internal/ratelimit/token_bucket.go:169-186 | the refilled bucket is stored in its shard and nothing else changes |
| `TokenBucket.Limiter.AllowWithLimits` | internal/ratelimit/token_bucket.go:83-103 | decision and all shards after the call |
| `TokenBucket.Limiter.RetryAfterWithLimits` | internal/ratelimit/token_bucket.go:138-154 | waiting time and all shards after the call, which also refills |
| `TokenBucket.Limiter.ReadTokens` | internal/ratelimit/token_bucket.go:156-167 | level and all shards after the call, which also refills |
| `TokenBucket.Limiter.UpdateLimits` | internal/ratelimit/token_bucket.go:105-115 | only positive limits replace the old ones |
| `TokenBucket.Limiter.Cleanup` | internal/ratelimit/token_bucket.go:210-222 | every shard keeps exactly the buckets seen since the cutoff |
| `TokenBucket.ForgettingIsInvisible` | internal/ratelimit/token_bucket.go:83-221 | for every hash and every run, with sweeps at arbitrary moments, all answers equal those of one map that never forgets, if each call's burst is at most 10 times its rpm |
| `TokenBucket.TtlConditionIsExact` | internal/ratelimit/token_bucket.go:210-221 | for a fixed limit that holds for all runs if and only if burst is at most 10 times rpm |
| `TokenBucket.RetryAfterIsExact` | internal/ratelimit/token_bucket.go:138-154 | with no other call on the key one unit is granted after a delay if and only if the delay is at least the waiting time answered |
| `TokenBucket.TokensIsExact` | internal/ratelimit/token_bucket.go:156-167 | with no call in between a request is granted if and only if it fits in the level answered |
| `TokenBucket.OnlyGrants` | internal/ratelimit/token_bucket.go:62-103 | a key is granted the same whatever is called on other keys |
| `TokenBucket.WindowGrantBound` | internal/ratelimit/token_bucket.go:169-186 | in every window a key is granted at most the largest burst plus the largest rate times its length, limits changing call by call, if its own calls have burst at most 10 times rpm |
| `TokenBucket.WindowConditionIsExact` | internal/ratelimit/token_bucket.go:210-221 | for a fixed limit that bound holds in all runs and windows if and only if burst is at most 10 times rpm |
| `LuaBucket.RedisLimiter.Script` | internal/ratelimit/redis.go:27-58 | answer and new hash of the script, with expiry |
| `LuaBucket.RedisLimiter.AllowWithLimits` | internal/ratelimit/redis.go:98-136 | units of at least one, refusal of non-positive limits, then the script |
| `LuaBucket.LuaAgreesWithLimiter` | internal/ratelimit/redis.go:27-58 | for one fixed limit with burst at most 10 times rpm both limiters decide every Allow of every run alike |
| `LuaBucket.LuaDisagrees` | internal/ratelimit/redis.go:27-58 | for every larger burst there is a run on which they differ |
| `LuaBucket.LuaConditionIsExact` | internal/ratelimit/redis.go:27-58 | so they never differ if and only if burst is at most 10 times rpm |
| `LruCache.Memory.constructor` | internal/cache/memory.go:25-34 | an empty cache of positive capacity |
| `LruCache.Memory.Get` | internal/cache/memory.go:36-57 | value, recency order and counters; an expired entry is removed and missed |
| `LruCache.Memory.Set` | internal/cache/memory.go:59-80 | overwrites and moves to the front, or evicts the last entry of a full cache |
| `LruCache.Memory.Delete` | internal/cache/memory.go:82-89 | removes the key from list and map and nothing else |
| `LruCache.Memory.Stats` | internal/cache/memory.go:91-95 | counters and size |
| `LruCache.Perform` | internal/cache/memory.go:36-89 | the object carries out any sequence of operations as its abstract run |
| `LruCache.RunKeepsWellFormed` | internal/cache/memory.go:36-89 | every run keeps one entry per key and at most maxSize entries |
| `LruCache.NoBeladyAnomaly` | internal/cache/memory.go:36-89 | after the same run the smaller cache's list is an order-preserving subsequence of the larger's, the size gap is within the capacity gap, and every hit in the smaller is the same hit in the larger |
| `LruCache.HitReturnsLastWrite` | internal/cache/memory.go:36-89 | a hit returns the bytes of the last Set of that key, not deleted since and not expired |
| `LruCache.RecentlyUsedSurvives` | internal/cache/memory.go:59-80 | a just-used entry stays until it expires while fewer than maxSize other keys are used |
| `LruCache.WriteIsReadBack` | internal/cache/memory.go:36-80 | what was written is read back until it expires while fewer than maxSize other keys are used |
| `LruCache.CountersCount` | internal/cache/memory.go:36-57 | the counters count the reads that found a value and those that did not |
| `SemanticCache.Semantic.constructor` | internal/cache/semantic.go:53-71 | empty index; threshold 0.97, topK 3 and 1000 entries for non-positive settings |
| `SemanticCache.Semantic.Delete` | internal/cache/semantic.go:81-92 | the key leaves the exact cache and every namespace of the index |
| `SemanticCache.Semantic.Lookup` | internal/cache/semantic.go:98-138 | answer, exact cache and index after the call, with any operations of others on the exact cache between the probes: expired entries dropped, the best topK candidates probed in order, a hit marked used |
| `SemanticCache.Semantic.SetSemantic` | internal/cache/semantic.go:140-179 | the exact cache is always written; the index only when it is on and the query was embedded |
| `SemanticCache.Compact` | internal/cache/semantic.go:84-90 | filtering in place over the same array yields the filtered sequence |
| `SemanticCache.CompactAndCollect` | internal/cache/semantic.go:109-123 | one pass drops what has expired and collects exactly the candidates |
| `SemanticCache.EvictOldest` | internal/cache/semantic.go:170-178 | in-place removal of the least recently used until the maximum is kept |
| `SemanticCache.TouchEntry` | internal/cache/semantic.go:186-193 | the first entry of that key and namespace gets the clock, nothing else changes |
| `SemanticCache.KeptCounts` | internal/cache/semantic.go:81-92 | a filter keeps every copy of an accepted entry and none of a rejected one |
| `SemanticCache.KeptConcat` | internal/cache/semantic.go:110-123 | a filter keeps the order |
| `SemanticCache.IndexInvariant` | internal/cache/semantic.go:98-193 | after every run: at most maxEntries entries, one per namespace and key, distinct lastUsed values up to the clock |
| `SemanticCache.PutKeepsRecent` | internal/cache/semantic.go:154-178 | the new entry is present; an unrelated live entry is lost only when the index ends up full of entries used more recently |
| `SemanticCache.DropsExactly` | internal/cache/semantic.go:81-123 | in any run pruning leaves exactly the live entries and deleting a key exactly those of other keys |
| `SemanticCache.UsedIsMostRecent` | internal/cache/semantic.go:130-136 | in any run a hit makes its entry the most recently used and leaves the others as they are |
| `SemanticCache.RankedDescends` | internal/cache/semantic.go:124-126 | candidates are probed by descending score |
| `SemanticCache.RankedIsStable` | internal/cache/semantic.go:124-126 | candidates of equal score keep the order of the index |
| `SemanticCache.BestAreTheTopK` | internal/cache/semantic.go:106-129 | the candidates probed qualify by expiry, namespace, length and threshold and are at most topK; one that qualifies and is not probed scores no better than any of topK others |
| `SemanticCache.LookupReturnsBest` | internal/cache/semantic.go:106-138 | whatever others do meanwhile, a returned value belongs to a live entry of the namespace scoring at least the threshold, found within topK probes, and every live strictly better match was probed before and had no value; it has one at the return only if it was set after that probe |
| `SemanticCache.StaysAbsent` | internal/cache/semantic.go:130-136 | a value missing at one probe is missing at every later one unless its key was set in between |
| `SemanticCache.LookupMissesExactlyWhen` | internal/cache/semantic.go:127-137 | a lookup fails if and only if each of the best topK candidates has no value when it is probed |
| `SemanticCache.ReturnsBestExactlyWhen` | internal/cache/semantic.go:106-143 | for any keys others may set meanwhile: no lookup, over all exact caches and all schedules that probe after its clock reading, returns a value while something strictly better has one if and only if none of those keys is a probed candidate scoring above another |
| `ExactReads.GetIsTransparent` | internal/cache/memory.go:36-57 | a Get, hit or miss, changes no later answer for any key |
| `ExactReads.AbsencePersists` | internal/cache/memory.go:36-89 | only a Set of the key itself can bring a missing value back |
| `StreamRelay.FinishedBodyShape` | internal/proxy/handler.go:502-578 | every finished body is all chunks of one provider, or a nonempty prefix of them and that provider's error, then one end marker: a truncated body always announces its error |
| `StreamRelay.RelayedPrefix` | internal/proxy/handler.go:592-658 | at every moment what was written is a prefix of one provider's chunks |
| `StreamRelay.LateErrorMayBeDropped` | internal/proxy/handler.go:545-578 | for every list of providers, any of them with an error after some chunk has a schedule, closing its error channel first as providers do, that loses it |
| `StreamRelay.ErrorReportedExactlyWhen` | internal/proxy/handler.go:502-658 | every schedule ending on a failing provider reports its error if and only if that provider sends no chunk, and then none ends on it |
| `StreamRelay.MovesOnExactlyWhen` | internal/proxy/handler.go:604-633 | from any reachable state a failure before the first chunk leads to the next provider if and only if it is retryable and ends the request otherwise; beyond that only a refusing breaker moves on and only having no provider left gives up |
| `StreamRelay.FailureReportsLastTried` | internal/proxy/handler.go:603-633 | a failed request carries no error if and only if no provider was tried, and otherwise the error of the last one tried or the deadline that cut it short |
| `StreamRelay.NeverStuck` | internal/proxy/handler.go:502-658 | until the request is over some party can move, the deadline aside |
| `StreamRelay.StepsMakeProgress` | internal/proxy/handler.go:502-658 | every effective step lowers a measure of the remaining work |
| `StreamRelay.EffectiveRunsAreBounded` | internal/proxy/handler.go:502-658 | so every schedule ends |
| `Hedge.HedgeResult` | internal/resilience/hedge.go:17-86 | once the timer fired, success if and only if a call succeeds, with the value of a finished call that succeeded; an error only after both failed; without the timer the primary's own answer |
| `Hedge.EarlyFailureIsNotHedged` | internal/resilience/hedge.go:17-86 | for all calls some uncancelled schedule returns the primary's own result, whatever the fallback would do |
| `Hedge.AlwaysSucceedsExactlyWhen` | internal/resilience/hedge.go:17-86 | every uncancelled schedule succeeds if and only if the primary does |
| `Hedge.FallbackCanWin` | internal/resilience/hedge.go:44-74 | for every succeeding fallback some uncancelled schedule returns exactly its result |
| `Hedge.CanSucceedExactlyWhen` | internal/resilience/hedge.go:17-86 | some uncancelled schedule succeeds if and only if the primary or the fallback does |
| `Hedge.CancellationIsTheCallers` | internal/resilience/hedge.go:17-86 | a caller that gives up can be answered at once, and nobody else gets a cancellation |
| `Hedge.SendsNeverBlock` | internal/resilience/hedge.go:17-50 | in every run a goroutine with a result can send it at once |
| `Hedge.NeverStuck` | internal/resilience/hedge.go:17-86 | until it returns the race can move without the timer or the caller |
| `RedisClients.RunKeepsInvariants` | internal/redisstore/store.go:42-112 | in every interleaving each client is installed, owned by one call or closed, exactly once, and readers pin the installed client |
| `RedisClients.CallbacksSeeOpenClient` | internal/redisstore/store.go:42-49 | a running callback's client is the installed one and has not been closed |
| `RedisClients.OnlyIdleClientsAreClosed` | internal/redisstore/store.go:80-94 | whenever a client is about to be closed it is open, not installed and has no running callback; closing it changes neither client nor URL |
| `RedisClients.InstalledIsLastSwap` | internal/redisstore/store.go:54-112 | in every run a client is installed if and only if the last swap or disconnect that took effect was a swap; the URL in force is the one it asked for and the client was created for it |
| `RedisClients.GoodReplacementServes` | internal/redisstore/store.go:42-94 | from any reachable state without readers a replacement that parses and pings puts its URL in force, and a callback started then runs on a client created for it |
| `RedisClients.SameUrlKeepsClient` | internal/redisstore/store.go:80-85 | replacing a URL by itself keeps the installed client and closes the new one |
| `RedisClients.CallsCanMove` | internal/redisstore/store.go:42-112 | an unfinished call can take its next step unless it waits for a running callback, which can end |
| `RedisClients.EveryClientInstalledOrClosedOnce` | internal/redisstore/store.go:54-112 | no client is closed twice or while installed; it is installed or closed if and only if no call in flight owns it |
| `RedisClients.FailedReplacementNeverServes` | internal/redisstore/store.go:66-78 | a failed ping leaves client and URL in place; under any interleaving after it the new client is never installed or used, and that call changes nothing installed |
| `GlobRegex.FirstReplacement` | internal/proxy/router.go:144-145 | replacing the escaped star in quoted text acts on each pattern character alone |
| `GlobRegex.SecondReplacement` | internal/proxy/router.go:146 | so does replacing the escaped question mark |
| `GlobRegex.GlobExpressionParses` | internal/proxy/router.go:144-148 | the result always compiles, to one item per pattern character between the text anchors |
| `GlobRegex.CompiledMatchesGlob` | internal/proxy/router.go:136-153 | for every pattern and name it matches if and only if the name is the pattern with newline-free text for each wildcard |
| `GlobRegex.PatternMeansGlob` | internal/proxy/router.go:127-162 | a pattern not taken as a regular expression matches exactly the newline-free names its glob matches |
| `GlobRegex.SimpleIsNoRegex` | internal/proxy/router.go:131-134 | a pattern looks like a regular expression if and only if it has an anchor, a group, an alternative or a star right after a dot |
| `GlobRegex.SimplePatternMeansGlob` | internal/proxy/router.go:127-162 | so every pattern without those means its glob on newline-free names |
| `GlobRegex.NewlinesBreakWildcards` | internal/proxy/router.go:144-147 | with newlines in names the two agree on all names if and only if the pattern has no wildcard |
| `AnthropicStream.SendStream` | internal/provider/anthropic.go:191-329 | the loop over lines sends exactly the translation of the decoded events, and fails exactly on a read error before the end of the message |
| `AnthropicStream.FromAnthropic` | internal/translate/anthropic.go:157-202 | text, tool calls, finish reason and usage of a whole response |
| `AnthropicStream.UsageComesLast` | internal/provider/anthropic.go:175-190 | for every body a usage chunk is the last chunk, was asked for, is not empty and adds up |
| `AnthropicStream.BodyDecodes` | internal/provider/anthropic.go:191-204 | the lines of a body yield each frame's payload decoded under that frame's own event name, in order |
| `AnthropicStream.TextAgrees` | internal/provider/anthropic.go:246-271 | for the lines of every streamed message the text deltas join to the whole response's text if and only if every text block starts empty |
| `AnthropicStream.ToolsAgree` | internal/provider/anthropic.go:216-245 | for those lines the announced tool calls are those of the whole response, in order |
| `AnthropicStream.ArgumentsAgree` | internal/provider/anthropic.go:272-289 | with distinct tool ids the deltas under each tool's id and name join to its raw text, which decodes to the block's input if and only if there is some text |
| `AnthropicStream.EndAgrees` | internal/provider/anthropic.go:290-323 | the stream ends with its one finish reason and the requested usage; the reason is the whole response's if and only if the stop reason is not tool use |

## Left out

- Floating-point rounding, nanosecond truncation and wrap-around of clocks and counters: arithmetic is exact.
- Hedged dispatch (`dispatchHedge`): it takes breaker slots it may not record, so the slot invariant is stated with hedging off; `DoHedge` is modelled alone.
- Breaker deletion on reconfiguration of the embeddings handler, breaker `Reset`, and panics between Allow and record or inside Reserve: the set of breakers is fixed and callers always record.
- Switching between Redis and memory while a reservation is open, and the fallback of either Redis limiter when Redis is unreachable: the backend is fixed and reachable.
- Fallback prices of unknown models: the per-token and per-million fallbacks differ, so price claims are about known prices.
- The readers-writer swap, the stream hand-off, the hedged race and the dispatch loops are step systems over values rather than objects with locks and channels; a waiting writer also holds back new readers, which only removes interleavings.
- StreamRelay.FinishedBodyShape: client disconnects, write errors and retries inside one provider call are not modelled.
- Hedge.NeverStuck: the two calls are taken to return.
- The cosine formula, which needs square roots, and the word-frequency similarity helper: the score is an arbitrary function.
- AnthropicStream.SendStream: cancellation while sending, message ids, model names and time stamps are not modelled; lines come already split and trimmed.
- GlobRegex.PatternMeansGlob: invalid UTF-8 and the size limits of the regular-expression compiler are not modelled; patterns that look like regular expressions are outside the claim when they compile.
- Weighted routing, random choice among matching patterns and registry reload.
- Number formatting between Lua and Go in the Redis scripts, and Redis persistence or eviction.
- HTTP, JSON, YAML, SHA-256 cache keys, metrics, tracing, logging, CORS, health probes, the admin API, auth, config loading: I/O and library wrappers.
- Gemini and OpenAI providers, override resolution, retry backoff, embedding prices and cache-key construction.
