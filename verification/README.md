# arbstr: a verified model of its request path

arbstr is a proxy that routes chat-completion requests to the cheapest eligible LLM provider, keeps a
circuit breaker per provider, bills each request through a vault, and reads token usage out of the streams
it relays. This project models the stateful protocols that meet in that path and proves what they guarantee
over every input, every run and every interleaving. Code that changes things in place is a class or a method
here, proved against a function of its inputs; code made of expressions is a function.

| file | what it models |
|---|---|
| `Common.dfy` | results, and the wrapping machine integers |
| `Selector.dfy` | filtering, sorting and de-duplicating candidates; tiers |
| `CircuitBreaker.dfy` | one breaker, and every history of calls on it |
| `Registry.dfy` | the registry object, the probe guard, and what a handler's report does to a breaker |
| `ResolveCandidates.dfy` | the permit filter and the tier-escalation loop |
| `ProbeProtocol.dfy` | breakers, watch channels and many requests, from arrival to report, as one transition system |
| `ProbeTheorems.dfy` | wake-ups, probe permits, their spacing, and when nobody will give one back, over all its runs |
| `ProbeWaiting.dfy` | when requests cannot wait in a circle, and where a chain of waits ends |
| `ProbeProgress.dfy` | when a holder of a probe can give it back by itself |
| `ProbeScenarios.dfy` | reachable states that show what can go wrong |
| `ProbeWalks.dfy` | the walks of the protocol resolve as `resolve_candidates` is specified to |
| `Retry.dfy` | retries with one fallback, cancellation, the retries header |
| `SseObserver.dfy` | the line reassembler of streams |
| `Streaming.dfy` | the background task that relays a stream and decides its reservation |
| `Reserve.dfy`, `ReserveStep.dfy` | how much is reserved, and that it covers the cost |
| `Vault.dfy` | settle and release calls, the pending table, a reconciliation pass |
| `Billing.dfy` | all reservations of a process, over whole runs |
| `Ledger.dfy` | the vault calls, the reconciler and both request paths are steps of those runs |
| `Handlers.dfy` | the streaming and non-streaming request paths |
| `Outcomes.dfy` | breakers and money after a whole request |
| `EnvExpansion.dfy` | `${VAR}` references in the configuration |

`dafny verify dfyconfig.toml` checks everything.

## Where the code differs from what is said of it

These are results of the model, each with a proof.

- **A streaming reservation is never settled.** The background task reads the observer's result handle
  (`src/proxy/handlers.rs:1398`) while the pinned stream that owns the observer is still alive
  (`src/proxy/handlers.rs:1364`); the observer writes its result when it is dropped
  (`src/proxy/stream.rs:302`), which is at the end of the task. The task therefore always sees no result:
  it logs every stream as incomplete, sends a null cost and releases the reservation.
  `Streaming.ForwardStream` proves this, `Streaming.DecisionIsRightIff` says for which streams that is the
  right decision (those without a surviving `[DONE]`), `Streaming.SettledIffDone` what the decision would be
  if the result were read after the drop, and `Streaming.ReleasedThoughDone` gives the smallest stream decided wrongly.
- **The single probe permit** of a provider holds throughout a run exactly when no failure reported by a request
  that does not guard the probe opens the half-open breaker (`ProbeTheorems.SingleProbeIff`). `record_failure` is
  documented for closed breakers (`src/proxy/circuit_breaker.rs:183`), but handlers call it whatever the state
  (`src/proxy/handlers.rs:797`, `src/proxy/handlers.rs:958`). What the prober itself reports before it resolves its
  guard does no harm. A request that was let through while the breaker was closed and fails after somebody else got
  the probe does: a second permit is then granted 30 seconds later (`ProbeScenarios.TwoPermitsAtOnce`).
- **A permit is not always given back.** Its holder gives a probe back only if its guard is for it, and a walk keeps
  the name of the last probe it was granted alone (`src/proxy/handlers.rs:376`). So a probe is doomed from the moment
  that its half-open breaker has no holder left whose guard is, or as far as its walk has come will be, for it. That is
  so if and only if at some step the last such holder left before it had a guard, or was granted another probe, and no
  failure has opened the breaker since (`ProbeTheorems.DoomedIff`). Until then its channel is silent and its waiters
  stay parked (`ProbeTheorems.DoomedStaysDoomed`), even while the holder is still there and guards the other provider
  (`ProbeScenarios.GuardedElsewhere`). In the end all holders are gone, in one of three ways
  (`ProbeTheorems.OrphanedIff`, `ProbeTheorems.OrphanedStaysOrphaned`): with a guard for another probe
  (`ProbeScenarios.SecondProbeOrphansTheFirst`); refused by the vault between walk and guard, or left by the client
  while the vault is asked (`src/proxy/handlers.rs:597-739`, `ProbeScenarios.RefusalOrphans`); or left by the client
  during the walk, while another probe is waited for (`src/proxy/circuit_breaker.rs:368-376`,
  `ProbeScenarios.AbandonedWaiter`).
- **Deadlock.** With unique names there is no circular wait, yet a request can wait for a probe nobody will give back.
  Every chain of waits leads to a holder of the probe, with that probe to guard, that can take a step of its own; to
  a breaker that a failure has opened again, so that there will be a new probe; or to a doomed probe
  (`ProbeWaiting.EveryWaitEnds`). It is never the last exactly when no probe that is waited for is doomed
  (`ProbeWaiting.NobodyStuckIff`), as in runs in which no step dooms one (`ProbeWaiting.NoDeadlock`). A holder can
  give its probe back by steps of its own, and wake whoever waits for it, if and only if the probe is the one it will
  guard and the rest of its walk meets neither a probe nor a wait (`ProbeProgress.CanGiveBackIff`,
  `ProbeProgress.ReadyHolderWakes`); from the end of its walk on nothing is left to meet. Unique names are
  documented (`src/config.rs:263`) and not checked. What is needed of them is that all candidate lists agree on one
  order of the names (`ProbeWaiting.NoCircularWait`); where they do not, two requests can wait for each other
  (`ProbeScenarios.NamedTwiceDisagree`, `ProbeScenarios.DuplicateNamesDeadlock`).
- **Cheapest first fails when a cost overflows.** Candidates are sorted by output rate plus base fee in 64 bits
  (`src/router/selector.rs:130`). Where no admitted provider's sum overflows, the order is that of the sums
  (`Selector.CheapestFirst`); in general it is if and only if no entry that overflows comes before one that does not
  (`Selector.InOrderOfCostIff`), and the dearest provider there can be comes first when its fee overflows the sum
  (`Selector.DearestFirst`).
- **Chunking matters over the 64 KB cap**, and only there (`SseObserver.ChunkingIndependence`,
  `SseObserver.LostIffOverflow`). Over it a `[DONE]` can be lost, and one can be seen that no line of the stream says
  (`SseObserver.ChunkingMattersOverTheCap`).
- **The reservation is exact if and only if three products stay below 2^64** (`Reserve.ReserveExactIff`). Rates and
  fees up to 4,294,967 are safe for all token counts, the next rate is not. Arithmetic is that of the release build,
  which wraps. `estimate_reserve_msats` is documented as using the cheapest candidate's rates; it is called with the
  dearest.
- **A price ceiling is not escalated**: `NoPolicyMatch` is answered exactly when the policy allows the model and the
  ceiling leaves nobody at the first tier, from the requested one upwards, that has a provider of the model
  (`ResolveCandidates.PriceCeilingIsNotEscalated`). Candidates of a higher tier are missed exactly when, then, somebody
  at the top is below the ceiling (`ResolveCandidates.MissesIff`); the tier can be the requested one
  (`ResolveCandidates.CeilingExample`) or one reached by escalation (`ResolveCandidates.EscalatedCeilingExample`).
- **A provider that answers can be cut off**: failures are recorded after the run, success last, so failures that
  complete the three leave the breaker open although the provider answered (`Outcomes.TripsIff`,
  `Outcomes.AnsweredButOpen`). A request whose client leaves records none of its failures, three retryable ones
  of its primary included (`Outcomes.CancelledIsUnrecorded`).

## Model

| member | source | states |
|---|---|---|
| `Selector.SortIsStableAndSorted` | src/router/selector.rs:129-131 | sorting by routing cost leaves the list non-decreasing in cost, equal costs in configuration order |
| `Selector.SelectCharacterisation` | src/router/selector.rs:90-145 | a list is the answer if and only if it is non-empty, strictly sorted, name-distinct, contains eligible providers only, and represents every eligible provider's name by an entry that does not come after it |
| `Selector.SelectOkIff` | src/router/selector.rs:90-145 | selection succeeds exactly when the policy allows the model and somebody is eligible |
| `Selector.SelectErrors` | src/router/selector.rs:98-142 | which error is answered and exactly when; `NoPolicyMatch` never comes from the check after de-duplication |
| `Selector.CheapestFirst` | src/router/selector.rs:80-145 | in the fields of the configuration, where no sum of output rate and base fee overflows: when a list is answered, and that it names admitted entries only, each name once, by smaller sum or, the same sum, earlier entry first, and every admitted entry or a cheaper one of its name |
| `Selector.InOrderOfCostIff` | src/router/selector.rs:129-131 | the answered list is in the order of the sums if and only if no entry whose sum overflows comes before one whose sum does not |
| `Selector.DearestFirst` | src/router/selector.rs:129-131 | configurations whose dearest provider comes first |
| `Selector.NoTierMatchHasNextTier` | src/config.rs:178-184 | `NoTierMatch` cannot be answered at the top tier |
| `Selector.RaisingTheTier` | src/router/selector.rs:113-138 | raising the tier loses no name and never raises the head's cost |
| `Selector.DedupByName` | src/router/selector.rs:133-138 | the in-place filter with its `seen` set keeps the first entry of each name |
| `Selector.SelectCandidates` | src/router/selector.rs:90-145 | the procedure computes the specified answer, a valid candidate list on success |
| `Selector.SelectOne` | src/router/selector.rs:68-78 | taking element 0 is safe and gives the eligible provider with the smallest sum of output rate and base fee, where none overflows, first in configuration order among equals |
| `CircuitBreaker.CircuitBreakerInner.CheckState` | src/proxy/circuit_breaker.rs:151-171 | new fields and answer of a check: allowed, probe after the timer, wait, or rejected |
| `CircuitBreaker.CircuitBreakerInner.TryAcquireProbe` | src/proxy/circuit_breaker.rs:174-181 | hands out the permit only when no probe is in flight |
| `CircuitBreaker.CircuitBreakerInner.RecordFailure` | src/proxy/circuit_breaker.rs:187-209 | the whole new state, in whatever state it is called |
| `CircuitBreaker.CircuitBreakerInner.RecordSuccess` | src/proxy/circuit_breaker.rs:212-220 | resets the count and leaves the state |
| `CircuitBreaker.CircuitBreakerInner.RecordProbeSuccess` | src/proxy/circuit_breaker.rs:225-236 | closes the breaker |
| `CircuitBreaker.CircuitBreakerInner.RecordProbeFailure` | src/proxy/circuit_breaker.rs:241-259 | opens it with a fresh timer |
| `CircuitBreaker.AlwaysSound` | src/proxy/circuit_breaker.rs:135-260 | after any calls at any times: closed means fewer than three failures and no probe, half-open means a probe in flight, open means opened_at is set |
| `CircuitBreaker.CheckAnswers` | src/proxy/circuit_breaker.rs:151-181 | in reachable states each of the four answers is equivalent to a condition on state and timer |
| `CircuitBreaker.FailureCountIsConsecutive` | src/proxy/circuit_breaker.rs:187-236 | failure_count is the number of record_failure calls since the last success, probe success or creation, modulo 2^32 |
| `CircuitBreaker.OpensOnTheThirdFailure` | src/proxy/circuit_breaker.rs:187-209 | a closed breaker opens on a failure exactly when it is the third since the last reset |
| `CircuitBreaker.EveryFailureFromTheThird` | src/proxy/circuit_breaker.rs:187-209 | for any calls: a failure that is at least the third since the last reset opens the breaker from its own moment, open or not before; any other leaves state and timer |
| `CircuitBreaker.QuietAfterFailure` | src/proxy/circuit_breaker.rs:151-209 | no probe is granted for 30 s after such a failure, whatever else is called |
| `CircuitBreaker.FieldsOfHistory` | src/proxy/circuit_breaker.rs:135-260 | for any calls: timer, trip count, last error, last failure and last success are what the history says |
| `CircuitBreaker.ProbeSpacing` | src/proxy/circuit_breaker.rs:151-260 | for any calls on a monotone clock, two permits are at least 30 s apart |
| `CircuitBreaker.ProbeSpacingIsTight` | src/proxy/circuit_breaker.rs:155-166 | exactly 30 s is reached |
| `ProbeProtocol.RunKeepsInv` | src/proxy/circuit_breaker.rs:330-455 | the protocol invariant holds in every state of every run: sound breakers, no `Pending` on a channel, a permit behind every probe in flight, waiters subscribed at a version not yet resolved |
| `ProbeTheorems.AskedFor` | src/proxy/handlers.rs:369-388 | in every run, what a request is answered about a candidate, by state and timer of its breaker, and where the candidate then stands in its list |
| `ProbeTheorems.NoLostWakeUp` | src/proxy/circuit_breaker.rs:341-398 | a parked waiter either has the latest later verdict to read, which ends its wait at once, or its probe is in flight and held by somebody |
| `ProbeTheorems.ResolutionWakesAll` | src/proxy/circuit_breaker.rs:434-455 | the report that resolves a guard wakes everyone waiting for that probe with its verdict, and no report wakes anybody else |
| `ProbeTheorems.SingleProbeIff` | src/proxy/handlers.rs:781-811 | for every provider: one outstanding permit in half-open and none otherwise, throughout a run, if and only if no failure reported by a request that does not guard the probe opens the half-open breaker |
| `ProbeTheorems.CellIsABreakerRun` | src/proxy/circuit_breaker.rs:307-455 | refinement: inside the concurrent system each breaker is a run of calls on a monotone clock |
| `ProbeTheorems.PermitsAreSpaced` | src/proxy/circuit_breaker.rs:330-341 | the 30 s spacing in every interleaving of requests |
| `ProbeTheorems.OrphanedIff` | src/proxy/handlers.rs:366-388 | a half-open breaker has only gone holders if and only if at some step its last live holder left without resolving the permit, by a refusal, a departure during the walk or a guard for another probe, and no failure has opened it since |
| `ProbeTheorems.OrphanedStaysOrphaned` | src/proxy/circuit_breaker.rs:368-396 | meanwhile its channel is silent, so its waiters stay parked |
| `ProbeTheorems.DoomedIff` | src/proxy/handlers.rs:366-388 | a half-open breaker has no holder whose guard is or will be for it if and only if at some step the last one left before it had a guard, or was granted another probe, and no failure has opened the breaker since |
| `ProbeTheorems.DoomedStaysDoomed` | src/proxy/circuit_breaker.rs:368-396 | until a failure opens it, that stays so and its channel is silent, whoever else is still there |
| `ProbeWaiting.UniqueNamesAgree` | src/router/selector.rs:129-138 | with unique names all candidate lists agree on one order of names |
| `ProbeWaiting.HolderWaitsFurtherOn` | src/proxy/handlers.rs:369-388 | a blocked holder waits for a name of strictly greater rank than any probe it holds |
| `ProbeWaiting.NoCircularWait` | src/proxy/handlers.rs:289-402 | if all lists agree on an order of the names, no chain of waits in a reachable state returns to its start |
| `ProbeWaiting.MovesIff` | src/proxy/handlers.rs:289-402 | a request can take a step of its own exactly when it is there and not parked |
| `ProbeWaiting.EveryWaitEnds` | src/proxy/handlers.rs:289-402 | from every parked request a chain of waits, each for somebody with the awaited probe to guard, leads to such a holder that can take a step of its own, to a breaker opened again, or to a doomed probe |
| `ProbeWaiting.NobodyStuckIff` | src/proxy/handlers.rs:366-388 | every wait leads to one of the first two if and only if no probe that is waited for is doomed |
| `ProbeWaiting.CanEndIff` | src/proxy/handlers.rs:366-388 | request by request, while no probe has two holders that can resolve it: a wait leads to one of the first two if and only if it does not lead to a doomed probe |
| `ProbeWaiting.SingleMeansOneAble` | src/proxy/handlers.rs:781-811 | while each provider has a single permit, no probe has two holders that can resolve it |
| `ProbeWaiting.NoDeadlock` | src/proxy/handlers.rs:289-402 | in a run in which no step dooms a probe, every wait leads to one of the first two |
| `ProbeProgress.ReadyHolderWakes` | src/proxy/circuit_breaker.rs:434-455 | a holder with the probe to guard and nothing in the way of the rest of its walk can give the probe back by steps of its own, with either verdict, and whoever waits for it is woken with that verdict |
| `ProbeProgress.CanGiveBackIff` | src/proxy/handlers.rs:366-388 | and no other holder can, by steps of its own |
| `ProbeWalks.WalksResolve` | src/proxy/handlers.rs:288-436 | refinement: in every run of many requests, what a request goes on with is the specified resolution for the permits it was given |
| `ProbeWalks.WalksRefuse` | src/proxy/handlers.rs:288-436 | and a request that is refused is refused as specified: by an open circuit after the answers it was given, or by the router before any |
| `ProbeScenarios.SecondProbeOrphansTheFirst` | src/proxy/handlers.rs:374-378 | two probes in one walk: a reachable state with the first permit lost |
| `ProbeScenarios.RefusalOrphans` | src/proxy/handlers.rs:597-739 | a refusal before the guard: reachable states with either permit lost |
| `ProbeScenarios.AbandonedWaiter` | src/proxy/circuit_breaker.rs:368-376 | a client that leaves during the walk: a reachable state with its permit lost and another request parked on it |
| `ProbeScenarios.GuardedElsewhere` | src/proxy/handlers.rs:374-378 | two probes in one walk: a reachable state where a request waits for the first in vain while its holder guards the second |
| `ProbeScenarios.TwoPermitsAtOnce` | src/proxy/handlers.rs:795-801 | a late failure of a request let through before: a reachable state with two permits of one provider |
| `ProbeScenarios.NamedTwiceDisagree` | src/config.rs:263-264 | a configuration with two names alike whose lists agree on no order |
| `ProbeScenarios.DuplicateNamesDeadlock` | src/config.rs:263-264 | in it, a reachable state where two requests wait for each other |
| `ResolveCandidates.FilteredIsThePermitted` | src/proxy/handlers.rs:366-388 | with the denied ones the filtered list is a permutation of the candidates, its members are exactly those permitted, the normal ones still cheapest first |
| `ResolveCandidates.NamesStayDistinct` | src/proxy/handlers.rs:366-388 | the filtered list names each provider once |
| `ResolveCandidates.LastProbeIsFirst` | src/proxy/handlers.rs:374-378 | the provider the guard is for is at index 0 |
| `ResolveCandidates.FilterByPermits` | src/proxy/handlers.rs:366-388 | the loop computes that list and that name |
| `ResolveCandidates.Resolve` | src/proxy/handlers.rs:288-436 | the escalation loop terminates and answers from the first tier, from the requested one upwards, that is not passed over: list, routing error, or circuit-open when all are |
| `ResolveCandidates.ResolutionIsUnique` | src/proxy/handlers.rs:288-436 | that specification determines the answer |
| `ResolveCandidates.ResolvedAreEligible` | src/proxy/handlers.rs:369-436 | everyone returned is eligible at the reported tier, names distinct, the probed one first |
| `ResolveCandidates.PriceCeilingIsNotEscalated` | src/proxy/handlers.rs:336-363 | `NoPolicyMatch` is the answer if and only if the policy allows the model and its ceiling leaves nobody at the first tier, from the requested one upwards, with a provider of the model |
| `ResolveCandidates.MissesIff` | src/proxy/handlers.rs:336-363 | the router refuses although some tier within reach has candidates if and only if that is so and somebody at the top is within the ceiling |
| `ResolveCandidates.CeilingExample` | src/router/selector.rs:176-207 | configurations where the requested tier is the one |
| `ResolveCandidates.EscalatedCeilingExample` | src/router/selector.rs:176-207 | configurations where it is one reached by escalation |
| `Registry.EachOnItsOwn` | src/proxy/circuit_breaker.rs:303-455 | each breaker is changed by the calls made for its own name, in order, and by no other |
| `Registry.RegistryIsRuns` | src/proxy/circuit_breaker.rs:303-455 | each breaker object of a registry is the run of its logged calls, hence sound |
| `Registry.CircuitBreakerRegistry.CheckPermit` | src/proxy/circuit_breaker.rs:330-362 | the answer under the lock; unknown providers are allowed |
| `Registry.CircuitBreakerRegistry.RecordSuccess` | src/proxy/circuit_breaker.rs:403-412 | exactly one success call is recorded, for this name |
| `Registry.CircuitBreakerRegistry.RecordFailure` | src/proxy/circuit_breaker.rs:417-426 | exactly one failure call is recorded, for this name |
| `Registry.CircuitBreakerRegistry.RecordProbeSuccess` | src/proxy/circuit_breaker.rs:434-441 | exactly one probe success is recorded, for this name |
| `Registry.CircuitBreakerRegistry.RecordProbeFailure` | src/proxy/circuit_breaker.rs:448-455 | exactly one probe failure is recorded, for this name |
| `Registry.ProbeGuard.Success` | src/proxy/circuit_breaker.rs:539-542 | one probe success, and the drop that follows adds nothing |
| `Registry.ProbeGuard.Fail` | src/proxy/circuit_breaker.rs:545-549 | one probe failure, and the drop that follows adds nothing |
| `Registry.ProbeGuard.Drop` | src/proxy/circuit_breaker.rs:552-566 | a probe failure exactly when the guard was not resolved |
| `Retry.FullRunShape` | src/proxy/retry.rs:118-202 | one to three calls on the primary, another exactly after status 500, 502, 503 or 504, then at most one on the second candidate, made if and only if all three failed so |
| `Retry.AttemptsAreCalls` | src/proxy/retry.rs:146-196 | the recorded attempts are the calls, less the last if it succeeded, in order |
| `Retry.FailuresOfPrefix` | src/proxy/retry.rs:114-117 | what is recorded at any cancellation point is a prefix of the full run's record |
| `Retry.RetryWithFallback` | src/proxy/retry.rs:118-202 | finished, the calls are the full run; dropped at any await, a prefix; the shared vector holds exactly their failures |
| `Retry.FormatRetriesHeader` | src/proxy/retry.rs:78-101 | the counts sum to the attempts, one per provider, in order of first appearance; none for no attempts |
| `SseObserver.LinesSplit` | src/proxy/stream.rs:121-151 | the reference splits a stream at LF into LF-free pieces that join to it |
| `SseObserver.LinesOfJoin` | src/proxy/stream.rs:121-151 | and that split is the only one |
| `SseObserver.Observer.ProcessChunk` | src/proxy/stream.rs:111-151 | the in-place loop folds the complete lines and keeps the partial one, or clears everything over the cap; afterwards the buffer is LF-free and at most 64 KB |
| `SseObserver.Observer.FlushBuffer` | src/proxy/stream.rs:157-176 | the partial line counts as a line, the buffer is empty afterwards |
| `SseObserver.Observer.ProcessLine` | src/proxy/stream.rs:184-210 | dispatch on the field name |
| `SseObserver.Observer.ProcessData` | src/proxy/stream.rs:217-258 | `[DONE]`, or the last finish reason and usage win |
| `SseObserver.Observer.IntoResult` | src/proxy/stream.rs:269-284 | the result of the flushed observer |
| `SseObserver.Observer.Drop` | src/proxy/stream.rs:302-315 | writes the same result to the handle, once |
| `SseObserver.ObservedIsReference` | src/proxy/stream.rs:111-176 | for any chunks the outcome is the fold over the lines of the surviving bytes |
| `SseObserver.LostIffOverflow` | src/proxy/stream.rs:114-119 | bytes are lost exactly when an append exceeds the cap |
| `SseObserver.ChunkingIndependence` | src/proxy/stream.rs:104-176 | two chunkings of one stream within the cap give the same usage, finish reason and done flag, those of the whole stream split at LF |
| `SseObserver.ChunkingMattersOverTheCap` | src/proxy/stream.rs:114-119 | beyond it they need not, and a `[DONE]` can be seen that no line of the stream says |
| `SseObserver.FlushIsOneMoreNewline` | src/proxy/stream.rs:153-176 | flushing is processing one more LF when it fits, and not otherwise |
| `SseObserver.ResultNeedsDone` | src/proxy/stream.rs:286-299 | the result is empty unless the payload of some surviving `data:` line, found by its bytes, is `[DONE]`; then usage and finish reason are those reported last |
| `SseObserver.LastInIsLast` | src/proxy/stream.rs:236-257 | reported last: by a line after which none reports anything; nothing if no line does |
| `Streaming.ForwardStream` | src/proxy/handlers.rs:1362-1557 | the client gets every item up to the first failed send, and the trailing event, without a cost, if none failed; the observer gets all; the decision is always taken without the result, which arrives afterwards |
| `Streaming.SettledIffDone` | src/proxy/handlers.rs:1425-1466 | decided on the result, a reservation is settled if and only if `[DONE]` was seen, at the price and with the tokens of the last usage reported, and otherwise released |
| `Streaming.DecisionIsRightIff` | src/proxy/handlers.rs:1397-1434 | the decision and the log entry taken are the due ones exactly for streams that do not say `[DONE]` |
| `Streaming.ReleasedThoughDone` | src/proxy/handlers.rs:1397-1401 | a stream that is released although it says `[DONE]` |
| `Reserve.ReserveExactIff` | src/proxy/vault.rs:310-322 | the reservation is in·rate + out·rate + 1000·fee if and only if no product or sum overflows |
| `Reserve.RateLimitIsSafeAndTight` | src/proxy/vault.rs:310-322 | rates and fee up to 4,294,967 are safe for every token count; the next rate is not |
| `Reserve.ActualCostIsPrice` | src/router/selector.rs:244-254 | the charge in msats is the exact price, saturating at the width of a u64 |
| `Reserve.FrontierIsDearest` | src/router/selector.rs:216-229 | the frontier rates are the least no provider of the model exceeds, each charged by one; they exist exactly when the model is served |
| `Reserve.ReservationCoversCost` | src/proxy/handlers.rs:664-686 | for every provider selection can return, under any policy and tier, tokens within the estimates cost at most the reservation, unless it overflowed |
| `Reserve.OverflowUnderReserves` | src/proxy/vault.rs:317-321 | an overflowing reservation is less than what the estimate itself costs |
| `ReserveStep.ReserveFunds` | src/proxy/handlers.rs:595-739 | when the vault is asked, for how much (a quarter token a character, at least one, and the token limit, at the dearest rates), what the request is refused with for which reply; the fallback rates are never used and a token limit always goes along |
| `Vault.VaultClient.CallWithRetry` | src/proxy/vault.rs:239-302 | one to three identical posts, another exactly after a status 500 to 599 or no answer; good if and only if the last reply has status 200 to 299 and a JSON body |
| `Vault.VaultClient.Call` | src/proxy/vault.rs:204-236 | the same, and a settle also needs the fields of its response |
| `Vault.RowRoundTrip` | src/proxy/vault.rs:345-445 | an order survives the table, amounts from 2^63 included |
| `Vault.PendingTable.Insert` | src/proxy/vault.rs:345-361 | `INSERT OR IGNORE` with unique reservation ids |
| `Vault.PendingTable.Fetch` | src/proxy/vault.rs:374-398 | every row once |
| `Vault.SpawnVaultCall` | src/proxy/handlers.rs:443-534 | posts, and unless the last reply carries the order out leaves a fresh row for it, with no attempts, if the write works and no row has its id |
| `Vault.ReplayOne` | src/proxy/vault.rs:419-445 | posts what the row stands for, or nothing if it cannot be read back |
| `Vault.ReconcileOnce` | src/proxy/vault.rs:495-588 | every row gets one fate, explained by the replies to the posts made for it; counters, table, posts and backpressure flag follow from the fates, also when writes fail; when the table cannot be counted nothing changes, when it cannot be fetched only the flag |
| `Vault.PassConserves` | src/proxy/vault.rs:488-588 | with working writes, rows before = replayed + failed + evicted, and evicted are exactly the stale ones |
| `Vault.PassSurvivors` | src/proxy/vault.rs:529-588 | survivors are exactly the failed rows, one attempt older |
| `Vault.CountersMean` | src/proxy/vault.rs:525-588 | the counters in terms of the table, working writes or not |
| `Vault.PassReplays` | src/proxy/vault.rs:529-588 | with working writes, a pass posts for an order whose row has fewer than ten attempts, and deletes the row exactly if the last reply carries it out; otherwise the row is one attempt older |
| `Vault.PassEvicts` | src/proxy/vault.rs:531-546 | with ten it deletes the row and posts nothing for it |
| `Vault.TenReplaysThenEvicted` | src/proxy/vault.rs:339-588 | an order as the spawned call stores it, never carried out, is posted for in each of the next ten passes and evicted in the eleventh, not before, whatever is inserted in between |
| `Vault.ElevenPassesEmptyTheTable` | src/proxy/vault.rs:339-339 | without inserts the table is empty after eleven passes, whatever the vault answers |
| `Vault.TenPassesAreNotEnough` | src/proxy/vault.rs:339-339 | ten do not suffice for an order as it is stored |
| `Billing.RunKeepsInv` | src/proxy/vault.rs:204-588 | the invariant of the books over every interleaving of requests, inserts and replays |
| `Billing.OneDisposition` | src/proxy/handlers.rs:443-534 | all posts ever made for a reservation are identical: none is both settled and released, or settled at two amounts |
| `Billing.NoRowIsIgnored` | migrations/20260402000000_pending_settlements.sql:9 | `INSERT OR IGNORE` never ignores, and the row written stands for the failed order |
| `Billing.PendingMatchesRows` | src/proxy/vault.rs:345-416 | pending reservations and rows correspond one to one at every moment |
| `Billing.AtMostThirtyThreePosts` | src/proxy/vault.rs:239-339 | at most 33 posts per reservation, and three more for every replay whose outcome could not be written to its row |
| `Ledger.CallInBooks` | src/proxy/handlers.rs:443-534 | the call of a request is a sequence of steps of the books that decides on its order once |
| `Ledger.ReconcileInBooks` | src/proxy/vault.rs:495-588 | a pass is a sequence of steps of the books that decides on nothing, failed reads and writes included |
| `Ledger.ServeNonStreaming` | src/proxy/handlers.rs:894-1138 | a non-streaming request, vault call included, decides at most once and only for its own reservation, exactly if its client stays; it settles exactly if a provider answered |
| `Ledger.ServeStreaming` | src/proxy/handlers.rs:749-888 | a streaming request and its task together decide at most once and only for their own reservation |
| `Ledger.LeadsProlongsRun` | src/proxy/vault.rs:495-588 | such steps prolong a run of the books, so the theorems about runs hold after them |
| `Handlers.HandleNonStreamingPath` | src/proxy/handlers.rs:894-1138 | exactly which breaker calls, in which order, and which order to the vault, with which price, tokens and reason, for an answer, a failure, the deadline and a departed client |
| `Handlers.HandleStreamingPath` | src/proxy/handlers.rs:749-888 | the same for streams, event by event; handler and task together give one order, or none if the client left |
| `Handlers.EveryServerErrorIsRecorded` | src/proxy/handlers.rs:955-964 | one failure for every attempt with status 500 to 599, with its provider, status and time, in order, and no other |
| `Handlers.ThenTheGuard` | src/proxy/handlers.rs:966-995 | after them the success of the provider that answered, unless it is the probed one, and the call of the guard with its reason; after a departure that call alone |
| `Handlers.NonStreamingGuard` | src/proxy/handlers.rs:966-995 | the guard makes exactly one call on every path, successful exactly when the probed provider answered |
| `Outcomes.ProbedBreakerAfter` | src/proxy/handlers.rs:955-995 | from any state, the probed breaker ends closed with count 0 if its provider answered, otherwise open since the guard's call, for the reason given; no probe stays in flight |
| `Outcomes.ProbedBreakerAfterStreaming` | src/proxy/handlers.rs:781-811 | the same for streams |
| `Outcomes.StreamTripsIff` | src/proxy/handlers.rs:781-811 | a closed breaker without a probe after a stream: opened clears the count, a status 500 to 599 counts one and opens it if it is the third, anything else leaves no trace |
| `Outcomes.TripsIff` | src/proxy/handlers.rs:955-995 | a closed breaker without a probe ends open exactly when the circuit failures recorded for it complete the three |
| `Outcomes.ExhaustedPrimaryEndsOpen` | src/proxy/handlers.rs:955-987 | three retryable failures of the primary leave its breaker open, fallback or not, deadline or not |
| `Outcomes.AnsweredButOpen` | src/proxy/handlers.rs:955-995 | a run whose provider answers and whose breaker ends open |
| `Outcomes.CancelledIsUnrecorded` | src/proxy/handlers.rs:917-964 | a run of three retryable failures of the primary that, its client gone, leaves every breaker as it was |
| `Outcomes.ResolvedStreamGuard` | src/proxy/handlers.rs:764-811 | for every resolution: the guard of the stream makes exactly one call on every path, successful exactly when the stream was opened, and "different provider succeeded" is never recorded |
| `Outcomes.ResolvedProbeAnswers` | src/proxy/handlers.rs:966-983 | for every resolution with a probe: an answered request was answered by another provider if and only if the probed one had failed three times, retryably |
| `Outcomes.SettlementIsCovered` | src/proxy/handlers.rs:1059-1074 | from resolution to settlement: the amount settled is the price at the answering provider's rates and at most the amount reserved, and its tokens are those of the answer |
| `EnvExpansion.PrintOfParse` | src/config.rs:512-561 | every value has a normal reading as literals and references, which prints back to it |
| `EnvExpansion.ParseOfPrint` | src/config.rs:512-561 | and only one |
| `EnvExpansion.MeaningSpec` | src/config.rs:500-511 | literals and values in order if every reference is closed, named and set, otherwise the error of the first that is not |
| `EnvExpansion.ExpandEnvVarsWith` | src/config.rs:512-561 | the scanner terminates and computes that meaning; values are never scanned again |
| `EnvExpansion.ExpansionRoundTrip` | src/config.rs:512-561 | printing a normal list and expanding it gives literals and values |

## Assumptions

- The clock is monotone. A call of `acquire_permit` up to its wait is one step of the protocol; so is all that a handler
  tells the breakers after its provider calls, which it does without an await, at one time.
- A watch channel accepts a value only while a receiver is alive; whether one outside the model is alive is left open.
- Settle metadata decodes to what was encoded. Reservation ids are distinct.
- Building a response from constant headers does not fail, so no path gives two orders for one reservation.
- Integers have the source's widths and wrap as in the release build: routing cost, reservation, failure and trip counts.
- Costs are exact reals where the source computes in `f64`.

## Left out

- HTTP, response bodies and headers, logging, the request log writer and statistics: plumbing without guarantees of its own.
- The UTF-8 check, `str::trim` and JSON extraction of stream lines are parameters; splitting, CR trimming, prefixes and the cap are concrete.
- Complexity scoring and policy lookup by name or keyword: the requested tier and the policy found are inputs.
- Rounding of `f64` costs.
- The panic isolation of the stream wrapper: the observer of the model does not panic.
- Truncation of oversized token counts in a provider's answer to 32 bits: token counts are 32-bit inputs.
- Restart and crash: the pending table survives them in the source; the model has one process run.
- Rows with equal creation time: a pass replays rows in some order; the order does not matter to what is proved.
- ProbeWaiting.NoCircularWait: that the lists agree on an order is sufficient; that some run waits in a circle whenever they do not is shown for one configuration, not for all.
- ProbeTheorems.NoLostWakeUp: a sender dropped while somebody waits is not modelled; the registry owns every sender for the life of the process.
- Handlers.HandleNonStreamingPath: the lookup of a candidate by name inside the retry closure is not modelled; names of a resolved list are distinct, so it finds the candidate itself.
- Eventual disposition of a reservation whose client leaves during the provider call, and eventual resolution of a permit for which no guard was made: the source does not establish them.
