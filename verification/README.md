# Verified model of the request library's shared plugin state

The library sends HTTP requests through plugins that keep state shared between concurrent requests: a cache that
coalesces requests and is invalidated while they run, a rolling-window rate limiter, a concurrency limiter, a circuit
breaker, a token refresh, a retry loop, and decoders that work chunk by chunk. This project models that state in
Dafny and proves what it promises over every run.

## How the model is built

- Every plugin is specified as a state machine. A step is one synchronous stretch between two awaits; hooks, timers,
  aborts and store completions are the events. `Inv` (or `CacheInv`) is kept by every step, and the results named
  below are about every reachable state or every run.
- Beside each specification stands a class with the plugin's fields and loops (`...Plugin.Plugin`,
  `CachePlugin.CacheState`, `LruCache.MemoryCacheStore`, `IndexedDbStore.Store`, `ResponseStream.LimitedStream`,
  `Lifecycle.Context`). Its hooks are proved to make exactly the specified step, loops and early returns included, and
  to keep the invariant. `CachePlugin.CacheState` requires and keeps that its state is reachable (`Valid`), which gives
  `CacheInv` (`CacheGuarantees.RunFromEmpty`); what each of its hooks promises a caller is proved in `CacheContracts`.
  The intrusive queue of the two limiters is a heap of linked nodes in `LinkedQueue`; elsewhere a queue is the sequence
  of tickets that structure is proved to represent.
- What an operation answers and what it changes is stated on what a caller can see, apart from how the step computes
  it: `PlainConcurrency` is a limiter without records and counters that the real one is proved to follow;
  `RateLimitAnswers` and `RateLimitRests` speak of the log of admissions, `CircuitBreakerProperties` and
  `CircuitBreakerKeys` of admissions and keys, `CacheEffects` of records in the store, `CacheAnswers` and `CacheHits` of
  the answers to requests, `SentEvents` of messages sent and received.
- Files: `StreamingLines`, `ServerSentEvents`, `SentEvents`, `ResponseStream` (decoders and streams); `LinkedQueue`,
  `Fifo`, `Concurrency*`, `PlainConcurrency`, `RollingWindow`, `RateLimit*` (limiters); `CircuitBreaker*`; `Cache*`
  (cache plugin); `LruCache`, `IndexedDb*` (stores); `RetryDecision`, `Lifecycle`, `AuthRefresh`; `Collections`,
  `InsertionMap` (shared vocabulary).
- Assumptions: the clock does not go back, and in `RateLimitRests` does not start before zero; a store applies calls in
  call order; hooks of a removed installation do not run any more; callbacks may answer anything but do not re-enter.
  Times are real numbers, object identity is a number, keys and tags are numbered because they are only compared.

### How the cache argument goes

Requests, explicit operations and tokens share one numbering: a request is numbered when it takes its token, an
operation when it is issued. `CacheOperations` proves that the promises an operation waits for cover, directly or
through later operations, everything it has to follow. `CacheFence` proves that whoever holds a current token asked
after everything issued that concerns it. `CacheFreshness` lifts this to the store and to the log of writes, and
`CacheFlights` handles leaders and followers. `CacheGuarantees` states the results over runs, `CacheReturns` shows which
operations can be carried through, and what of them survives a `clear`, and `CacheLimits` shows where the results end.
`CacheEffects` says what each operation makes of the store, and `CacheHits` follows a record from the read to the answer.

### What turned out not to hold, and exactly when it does

- *A tag that reaches a token late does not fence it.* Requests without a current token never write again
  (`DeadNeverWrites`), and a request loses its token exactly when a mutation concerns its key or a tag the token
  carries at that moment (`TokenDiesExactly`). A tag that a later request adds to the same token comes too late for an
  earlier invalidation: the older answer is then stored, under that tag, although the invalidation is younger than its
  request and has been applied (`LateTagSlipsThrough`, from every reachable state with such a request; `LateTagExample`,
  a run of a new plugin). For the tags a request itself carries the fence always holds (`NoStaleWrite`).
- *`clear()` does not wait.* Of the operations issued before a `clear` that works, exactly those can put a record into
  the emptied store that are a `set` whose store call is still to come, an `update` that has read a record and not
  written it back, or an `update` that waits behind one of these on its key (`OutlivesClearExactly`). No other explicit
  record is older than an applied mutation that concerns it (`StoredIsFresh`).
- *Followers and tokens with several installations.* A request that joins a leader shares its token if and only if the
  leader's token is current at that moment (`JoinSharesExactly`). It is, unless the leader was in flight when an
  installation other than its own was removed (`FollowersAreServed`, `OrphansArise`); such a removal does split them
  (`RemovalSplitsTokens`).
- *Probe counts of the breaker.* `finishAdmission` gives a probe back without comparing generations, so a half-open
  generation keeps an exact count in every continuation if and only if it was entered without a probe left over from
  an older one (`ExactIffEnteredClean`).
- *Byte totals.* The running total is the true sum if and only if that is a safe integer (`TotalExact`). Beyond that,
  the records that stay exceed `maxBytes` if and only if some sum of sizes from the front of the eviction order lies in
  [MAX_SAFE_INTEGER - maxBytes, total - maxBytes) (`OverflowExactly`, and `EvictionsExact` for both limits together);
  two records of the largest size are an example (`OverflowExceedsLimit`).
- *Comparing the global generation.* It never matters: the token alone decides (`TokenDecides`).
- *Reconnection times.* The SSE decoder ignores a `retry` above the largest safe integer, where section 9.2.6 of the
  WHATWG HTML Living Standard sets no limit. Data, types and IDs of all events are the standard's in any case; the
  events agree in full, from an initial time that is none or safe, if and only if no event is dispatched while the last
  digits-only `retry` before it is larger (`FullEventsExactly`); `OversizedRetryIgnored` is the smallest input.

## Model

| member | source | states |
|---|---|---|
| `StreamingLines.DecodeLines` | src/utils/parseStreamingResponse.ts:223-356 | However a text is cut into chunks (empty ones, a cut inside CR LF), the lines delivered and the failure are those of splitting the whole text at once under the byte budgets |
| `StreamingLines.FirstViolation` | src/utils/parseStreamingResponse.ts:367-378 | Decoding fails if and only if some line exceeds the line budget or some event's lines exceed the event budget, and delivers exactly the lines before the first such line |
| `StreamingLines.SplitJoined` | src/utils/parseStreamingResponse.ts:278-331 | Round trip: break-free lines, each ended by LF, CR or CR LF, and an unfinished last line are split back into the same lines if and only if no line end CR is followed by an empty line ended by LF; otherwise lines are lost, never added |
| `StreamingLines.WidthIsUtf8` | src/utils/parseStreamingResponse.ts:263-276 | The width counted for a character is the length of its one UTF-8 form (RFC 3629), lead byte, continuation bytes and shortest form included |
| `StreamingLines.SizeIsUtf8` | src/utils/parseStreamingResponse.ts:263-276 | The size counted for a text is the length of its UTF-8 form |
| `ServerSentEvents.DecodeServerSentEvents` | src/utils/parseStreamingResponse.ts:60-143 | For every chunking, the data, types and IDs of the events are those section 9.2.6 of the WHATWG HTML Living Standard gives the whole text; with the reconnection times they agree exactly under the condition of `FullEventsExactly` |
| `ServerSentEvents.FullEventsExactly` | src/utils/parseStreamingResponse.ts:130-140 | From a safe initial reconnection time or none: the events equal the standard's, reconnection times included, if and only if no event is dispatched while the last digits-only `retry` line before it exceeds the largest safe integer |
| `ServerSentEvents.OversizedRetryIgnored` | src/utils/parseStreamingResponse.ts:130-140 | For the text with `retry: 9007199254740992` and one data line, the standard's event carries that time and the decoder's none |
| `ServerSentEvents.JoinIsStrippedBuffer` | src/utils/parseStreamingResponse.ts:73-78 | Joining the list of data values is the standard's buffer without its final line feed |
| `ServerSentEvents.DispatchList` | src/utils/parseStreamingResponse.ts:73-100 | An event is dispatched from the list exactly when the standard dispatches one from its buffer, with the same data |
| `SentEvents.MessagesGivenBack` | src/utils/parseStreamingResponse.ts:60-143 | Round trip: any messages, with event types, IDs and lines of data, encoded as text with comments between them and any line ends that do not merge, are decoded to the same messages in order |
| `SentEvents.IgnoredField` | src/utils/parseStreamingResponse.ts:123-128 | An ID with a NUL, and a field of an unknown name, change nothing |
| `ResponseStream.CleanedUpOnce` | src/utils/parseResponse.ts:382-517 | In every interleaving of pull, read completion, cancel, abort and idle timeout the lock is released and the finalizer called exactly once when the stream leaves the open state, and not before; no timer is left |
| `ResponseStream.ForwardsPrefix` | src/utils/parseResponse.ts:425-469 | What is forwarded is a prefix of the source of at most `maxSize` bytes, and the whole source when the stream closes |
| `ResponseStream.NothingAfterSettling` | src/utils/parseResponse.ts:402-486 | After settling, no later completion forwards, cleans up or changes the outcome |
| `ResponseStream.RefusedExactly` | src/utils/parseResponse.ts:454-460 | A chunk fails the stream if and only if it takes the total of all delivered chunks over the limit |
| `ResponseStream.LeftExactly` | src/utils/parseResponse.ts:402-486 | How an open stream is left by each event: closed when the source ends, failed by a broken read, an abort, idling or the limit, cancelled by the consumer; chunks within the limit are forwarded as they come |
| `ResponseStream.WholeBodyArrives` | src/utils/parseResponse.ts:425-469 | Undisturbed, every source within the limit arrives whole and closes the stream |
| `ResponseStream.LimitedStream.OnChunk` | src/utils/parseResponse.ts:425-460 | A completed read is the specified step, pending failures and late completions included |
| `ResponseStream.ReadLimitedBody` | src/utils/parseResponse.ts:193-270 | The buffered body is the concatenation of all chunks; it fails at the first chunk over the limit, or at an abort seen before |
| `LinkedQueue.Queue.Append` | src/plugins/concurrencyPlugin.ts:380-396 | Appending to the linked nodes appends to the sequence they represent |
| `LinkedQueue.Queue.Shift` | src/plugins/concurrencyPlugin.ts:398-408 | Shifting removes and returns the first entry |
| `LinkedQueue.Queue.Remove` | src/plugins/concurrencyPlugin.ts:410-436 | Removing an entry anywhere removes exactly it, leaves the rest in order and well linked, and does nothing the second time |
| `LinkedQueue.Queue.RemoveOwned` | src/plugins/concurrencyPlugin.ts:177-187 | The walk that removes one owner's entries keeps all others in order and rejects exactly the owner's, in order |
| `LinkedQueue.UnlinkCancels` | src/plugins/concurrencyPlugin.ts:410-436 | In the limiters' view, unlinking an entry removes exactly its ticket from the queue |
| `LinkedQueue.RemovalCancels` | src/plugins/concurrencyPlugin.ts:177-187 | In the limiters' view, the walk removes exactly the tickets of the installation, in order |
| `Concurrency.PermitConservation` | src/plugins/concurrencyPlugin.ts:108-195 | In every run a record's `active` equals the admissions held for its key over all installations, never exceeds `maxConcurrent`, and waiters exist only while all permits are out |
| `Concurrency.SettleInv` | src/plugins/concurrencyPlugin.ts:310-327 | A settlement finds its record with a permit to give back, so the clamp at zero never acts |
| `Concurrency.GrantsAreFifo` | src/plugins/concurrencyPlugin.ts:199-308 | In every run, grants followed by the waiting queue are the arrivals without those that gave up |
| `Concurrency.NoOvertaking` | src/plugins/concurrencyPlugin.ts:120-155 | A request is admitted at once if and only if a permit is free, and then nobody was waiting |
| `PlainConcurrency.RunsAsPlain` | src/plugins/concurrencyPlugin.ts:108-327 | Refinement: after every run the permits held, the queues and the next answer are those of a limiter that has only holders and queues; records, counters and eviction are invisible |
| `PlainConcurrency.AnswersExactly` | src/plugins/concurrencyPlugin.ts:108-155 | One request: the answer and the new permits and queues are those of the plain limiter |
| `PlainConcurrency.QueuedExactly` | src/plugins/concurrencyPlugin.ts:136-150 | A request waits if and only if no permit of its key is free, it is not refused, and fewer than `maxQueue` wait; it is then last in the queue and in the arrivals; a rejected one changes no queue, permit or arrivals |
| `PlainConcurrency.TrimBounds` | src/plugins/concurrencyPlugin.ts:361-378 | Eviction leaves no idle record beyond the maximum, takes none within it, and never a busy one |
| `PlainConcurrency.LookupBounds` | src/plugins/concurrencyPlugin.ts:329-350 | A new key finds room among `maxKeys` records, or only busy ones |
| `PlainConcurrency.TrimOldestFirst` | src/plugins/concurrencyPlugin.ts:361-378 | Idle records are evicted oldest first |
| `PlainConcurrency.IdleIsNewest` | src/plugins/concurrencyPlugin.ts:310-327 | A key becomes the newest one when its last permit comes back |
| `ConcurrencyPlugin.Plugin.OnRequest` | src/plugins/concurrencyPlugin.ts:108-155 | The request hook with its record eviction makes the step whose answers `PlainConcurrency.QueuedExactly` and `Concurrency.NoOvertaking` determine, and keeps the invariant |
| `ConcurrencyPlugin.Plugin.Uninstall` | src/plugins/concurrencyPlugin.ts:173-195 | Removing an installation rejects its waiters, releases its permits one by one to others, and the last one drops all records |
| `RollingWindow.ScheduleOk` | src/plugins/rateLimitPlugin.ts:379-424 | Scheduling, with everything it triggers, keeps the log complete and spaced, serves from the front, logs each service, and leaves an armed timer that is not late exactly when somebody waits |
| `RollingWindow.DrainOk` | src/plugins/rateLimitPlugin.ts:426-464 | The same for draining; the mutual recursion ends because each round admits, clears a cooldown or arms a timer |
| `RollingWindow.DrainRests` | src/plugins/rateLimitPlugin.ts:426-464 | However scheduling and draining call each other, nobody is served before the cooldown is over |
| `RollingWindow.PruneLive` | src/plugins/rateLimitPlugin.ts:466-487 | Pruning and compaction drop exactly the expired front of the live log |
| `RollingWindow.AtMostPerWindow` | src/plugins/rateLimitPlugin.ts:134-144 | Admissions that are spaced leave at most `maxRequests` in any interval (t - interval, t] |
| `RateLimit.RollingWindowHolds` | src/plugins/rateLimitPlugin.ts:134-144 | In every run, while an installation remains, every interval (t - interval, t] holds at most `maxRequests` admissions of a key, whatever was pruned, evicted or re-created |
| `RateLimit.NoStall` | src/plugins/rateLimitPlugin.ts:379-464 | In every run a record has an armed timer if and only if somebody waits, due no later than max(now, cooldown, oldest live timestamp + interval) |
| `RateLimit.DueTimerServes` | src/plugins/rateLimitPlugin.ts:400-423 | A timer that fires when its queue is due, or later, admits the head of the queue |
| `RateLimitAnswers.FiredWakes` | src/plugins/rateLimitPlugin.ts:379-464 | After a timer has fired, whoever still waits is blocked by a cooldown or a full window, and the timer is armed for the very end of the block, or as far ahead as timers reach |
| `RateLimitAnswers.CooledWakes` | src/plugins/rateLimitPlugin.ts:223-235 | The same after a Retry-After answer that extends the cooldown |
| `RateLimitAnswers.LeftExactly` | src/plugins/rateLimitPlugin.ts:601-628 | Waiters that leave are gone from their queues, the others keep their order, no admission is forgotten |
| `RateLimit.AdmittedExactly` | src/plugins/rateLimitPlugin.ts:126-144 | A request is admitted at once if and only if nobody waits, no cooldown is on, and fewer than `maxRequests` admissions lie in the interval that ends now |
| `RateLimitRests.RetryAfterRests` | src/plugins/rateLimitPlugin.ts:182-235 | Over every continuation of a Retry-After answer for a key, while an installation remains: no admission of the key, at once or from the queue, is logged before now + min(delay, maxRetryAfter) |
| `RateLimitRests.AnsweredByHistory` | src/plugins/rateLimitPlugin.ts:112-144 | In every run a request is admitted at once if and only if nobody waits for its key, every Retry-After answer to it lies at least min(delay, maxRetryAfter) back, and the interval that ends now has room; cooldowns that end, are forgotten or evicted make no difference |
| `RateLimitAnswers.QueuedExactly` | src/plugins/rateLimitPlugin.ts:126-180 | A request waits if and only if it cannot be admitted at once, is not refused, and the queue has room; an admitted one is logged at its instant, a waiting one is last of the arrivals, a rejected one changes nothing |
| `RateLimit.GrantsAreFifo` | src/plugins/rateLimitPlugin.ts:601-628 | In every run, waiters are served in arrival order, skipping exactly those that gave up |
| `RateLimit.RemainingExact` | src/plugins/rateLimitPlugin.ts:493-524 | The remaining count reported is what the interval that ends now leaves, or zero during a cooldown |
| `RateLimit.TrimOk` | src/plugins/rateLimitPlugin.ts:552-574 | Evicting idle records loses no admission that could still matter and no waiter |
| `RateLimitAnswers.TrimBounds` | src/plugins/rateLimitPlugin.ts:552-574 | Eviction leaves no idle record beyond the maximum and takes none within it |
| `RateLimitPlugin.Plugin.DrainRecord` | src/plugins/rateLimitPlugin.ts:426-464 | The draining loop with its shifts, pushes and re-scheduling is the specified draining |
| `RateLimitPlugin.Plugin.OnTransport` | src/plugins/rateLimitPlugin.ts:112-180 | The transport hook is the specified request and keeps the invariant |
| `RateLimitPlugin.Plugin.OnRetryAfter` | src/plugins/rateLimitPlugin.ts:182-235 | A Retry-After answer makes the step whose meaning `RateLimitRests.RetryAfterRests` states, re-arms the timer, and keeps the invariant |
| `RateLimitPlugin.Plugin.Uninstall` | src/plugins/rateLimitPlugin.ts:242-260 | Removal takes out one installation's waiters and leaves the others' queues and timers as they were |
| `CircuitBreakerProperties.ClosedOpensExactly` | src/plugins/circuitBreakerPlugin.ts:305-335 | A closed circuit opens exactly at the `failureThreshold`-th counted failure since the last success of its generation, and then carries that instant as its opening time |
| `CircuitBreakerProperties.HalfOpenMovesExactly` | src/plugins/circuitBreakerPlugin.ts:202-285 | A half-open circuit opens at its first counted failure, at that instant, closes at the `successThreshold`-th success, and otherwise keeps its generation |
| `CircuitBreakerProperties.OpenLeavesExactly` | src/plugins/circuitBreakerPlugin.ts:456-494 | An open circuit changes only when a request arrives after the reset timeout; it is never opened again, so that branch of the transition is unreachable |
| `CircuitBreakerProperties.OpenAdmitsNothing` | src/plugins/circuitBreakerPlugin.ts:171-199 | Over every run before the timeout, an open circuit still in the map admits nobody |
| `CircuitBreakerProperties.OpenedAdmitsNothing` | src/plugins/circuitBreakerPlugin.ts:171-199 | From the settlement at `now` that opens a circuit on, over every continuation, no request on its key before now + resetTimeout gains an admission while the record stays in the map |
| `CircuitBreakerProperties.AdmittedExactly` | src/plugins/circuitBreakerPlugin.ts:145-200 | A request is admitted if and only if its key has no circuit, a closed one, an open one whose reset timeout has passed, or a half-open one with a probe to spare; a rejected one adds no admission |
| `CircuitBreakerProperties.OutcomesExactly` | src/plugins/circuitBreakerPlugin.ts:202-335 | The outcomes counted in a generation: a success or a counted failure of a current admission adds one, a new generation starts with none, nothing else changes them |
| `CircuitBreaker.StaleSettlement` | src/plugins/circuitBreakerPlugin.ts:225-285 | A settlement of an older generation changes neither state, failures, successes nor opening time, even after delayed classification |
| `CircuitBreaker.StaleForever` | src/plugins/circuitBreakerPlugin.ts:225-285 | Over every continuation, an admission of an older generation stays one |
| `CircuitBreakerProperties.Accounting` | src/plugins/circuitBreakerPlugin.ts:434-454 | In every run activity equals unreleased admissions, probes stay within their maximum, and trimming never drops a busy circuit |
| `CircuitBreakerProperties.ExactIffEnteredClean` | src/plugins/circuitBreakerPlugin.ts:337-352 | A half-open generation counts exactly its live probes in every continuation if and only if it was entered without a left-over probe |
| `CircuitBreakerProperties.ShortcutIsExact` | src/plugins/circuitBreakerPlugin.ts:155-169 | Skipping the reordering for the latest record leaves the map as reordering would |
| `CircuitBreakerKeys.RequestOrders` | src/plugins/circuitBreakerPlugin.ts:152-169 | A request makes its key the newest; a new key costs the oldest idle circuits only, and no more than needed |
| `CircuitBreakerKeys.SettlementTrims` | src/plugins/circuitBreakerPlugin.ts:337-352 | Giving an admission back leaves no idle circuit beyond the maximum and costs the oldest idle ones only |
| `CircuitBreakerKeys.ResetForgets` | src/plugins/circuitBreakerPlugin.ts:127-139 | A reset makes one key unknown and touches no other circuit and no admission |
| `CircuitBreakerKeys.RemovalReleases` | src/plugins/circuitBreakerPlugin.ts:288-300 | Removing an installation releases exactly its admissions; the last one leaves no circuits |
| `CircuitBreakerPlugin.Plugin.OnRequest` | src/plugins/circuitBreakerPlugin.ts:145-200 | The request hook is the specified step and keeps the invariant |
| `CacheOperations.IssueInv` | src/plugins/cacheOperations.ts:18-76 | Issuing an operation keeps the wait graph sufficient: what it must follow and has not finished is covered by the promises it waits for |
| `CacheOperations.FinishInv` | src/plugins/cacheOperations.ts:29-36 | An operation leaving the maps never uncovers an unfinished earlier one |
| `CacheOperations.StartsExactly` | src/plugins/cacheOperations.ts:41-84 | An operation or read starts at once if and only if everything it must follow has finished, and waits only for what it must follow and has not finished |
| `CacheOperations.SerialPerKey` | src/plugins/cacheOperations.ts:41-76 | Operations on one key never overlap and run in issue order |
| `CacheOperations.InvalidationFollows` | src/plugins/cacheMutations.ts:185-201 | A tag invalidation starts only after every key operation and every same-tag invalidation issued before it |
| `CacheOperations.ConsultedFirst` | src/plugins/cacheRequestHandler.ts:164-188 | A tagged `set`, an `update` or a cached read starts only after the earlier invalidations it consults, a read also after earlier operations on its key |
| `CacheGuarantees.RunsKeepOrder` | src/plugins/cacheOperations.ts:18-122 | Every run keeps the invariant behind these orders |
| `CacheOperations.NoDeadlock` | src/plugins/cacheOperations.ts:41-62 | Every unfinished operation or read reaches, through its own waits, an unfinished one that is running or can start; everything on the way, but possibly itself, is a mutation |
| `CacheReturns.FinishQuietly` | src/plugins/cacheOperations.ts:41-76 | From every reachable state, every unfinished mutation can be carried through to its end, with no change of the store by itself or by those it waits for |
| `CacheFence.AcquireInv` | src/plugins/cacheShared.ts:17-40 | Taking a token keeps the fence, the counts and the tags; a new token is held by nobody else |
| `CacheFence.ReleaseInv` | src/plugins/cacheShared.ts:52-64 | Releasing one drops it from the map exactly with its last holder and keeps the fence |
| `CacheFence.OutdateInv` | src/plugins/cacheOperations.ts:86-97 | Issuing a mutation leaves no current token that it concerns |
| `CacheGuarantees.NoStaleWrite` | src/plugins/cacheResponseHandler.ts:93-206 | In every run, each mutation that concerns a write's key or its request's own tags and was issued before the write was issued before that request took its token, 304 rewrites and deletions included |
| `CacheGuarantees.StoredIsFresh` | src/plugins/cacheMutations.ts:45-217 | In every run a stored answer is younger than all applied mutations that concern it. A stored explicit record comes from the last applied operation, except for those that could still put a record when a `clear` ran; that of a `set` carries exactly the tags of the `set`, and for it the mutations of these tags count |
| `CacheGuarantees.InvalidatedIsGone` | src/plugins/cacheMutations.ts:75-109 | In every run: once an invalidation of one of its tags, issued after a `set`, has been applied, no record of the `set` is stored |
| `CacheEffects.UpdateKeepsTags` | src/plugins/cacheMutations.ts:111-160 | In every run the record of an `update` carries the tags of the record that the `update` found when it called the store |
| `CacheEffects.MutationMade` | src/plugins/cacheMutations.ts:54-217 | A mutation calls the store at once if and only if everything it must follow has finished; the call changes exactly the records it concerns, and a store that fails changes none |
| `CacheEffects.BeginMade` | src/plugins/cacheOperations.ts:55-62 | The same when an operation starts later; an `update` finds what the store holds then |
| `CacheEffects.UpdateWritesBack` | src/plugins/cacheMutations.ts:126-150 | Writing back keeps the tags of the record found, deletes it if the updater returns nothing, and changes no other record |
| `CacheEffects.ClearMade` | src/plugins/cacheMutations.ts:45-52 | A `clear` empties the store at once if that works, and puts all tokens and flights out of reach |
| `CacheReturns.OutlivesClearExactly` | src/plugins/cacheMutations.ts:45-52 | From every reachable state: of the operations issued before a `clear` that works, some continuation stores a record of exactly those that are a `set` yet to call the store, an `update` that has read a record, or an `update` waiting behind one of these |
| `CacheGuarantees.QuietWrite` | src/plugins/cacheRequestHandler.ts:164-188 | While a request may write, every mutation that concerns it was issued before it and has finished |
| `CacheHits.NoStaleHit` | src/plugins/cacheRecordHandler.ts:51-121 | In every run a record with which a request is answered from the store (not as a fallback after an error) is no older than any applied mutation of its key, or of a tag that the request names and the record carries |
| `CacheAnswers.AnsweredFromStore` | src/plugins/cacheRecordHandler.ts:51-190 | A request is answered from the store if and only if its token is current and it has found a record that may answer; without a current token it goes to the network; only an expired record is deleted |
| `CacheAnswers.LookFinds` | src/plugins/cacheRequestHandler.ts:164-188 | A read finds exactly what the store holds at that moment |
| `CacheGuarantees.TokenDiesExactly` | src/plugins/cacheMutations.ts:179-183 | An unsettled request loses a current token exactly through `clear`, a removal, or a mutation of its key or of a tag its token carries |
| `CacheGuarantees.DeadNeverWrites` | src/plugins/cacheShared.ts:42-50 | Over every continuation, a request whose token is not current never writes |
| `CacheGuarantees.AnswerIsKept` | src/plugins/cacheResponseHandler.ts:183-206 | A storable answer under a current token is stored under all tags of its request |
| `CacheAnswers.StoredTags` | src/plugins/cacheResponseHandler.ts:99-103 | A stored answer carries the tags its token has collected, or else those of the record it has revalidated |
| `CacheGuarantees.TokenDecides` | src/plugins/cacheShared.ts:42-50 | The token alone decides currency; the global generation adds nothing |
| `CacheGuarantees.TokensCountHolders` | src/plugins/cacheShared.ts:17-64 | In every run `activeRequests` equals the unsettled requests that hold the token, and no current token is without one |
| `CacheGuarantees.OneLeader` | src/plugins/cacheMissHandler.ts:153-166 | In every run at most one leader of a kind and key holds a current token |
| `CacheGuarantees.FollowersAreServed` | src/plugins/cacheMissHandler.ts:48-81 | In every run a follower's leader works on its key under its own token (unless the leader was in flight when another installation was removed), and its promise is unsettled while the leader acts and settled exactly once otherwise |
| `CacheFlights.JoinSharesExactly` | src/plugins/cacheMissHandler.ts:55-79 | A request that joins a leader shares its token if and only if the leader's token is current at that moment |
| `CacheFlights.OrphansArise` | src/plugins/cacheInstallation.ts:178-208 | Only the removal of another installation makes such a leader, and only of one in flight |
| `CacheGuarantees.SharedRecords` | src/plugins/cacheInstallation.ts:126-160 | In every run a record shared with followers is the leader's own |
| `CacheGuarantees.LeaderShares` | src/plugins/cacheInstallation.ts:105-160 | A leader that answers storably and succeeds settles the promise once, with its record |
| `CacheAnswers.LeaderLeaves` | src/plugins/cacheInstallation.ts:105-160 | What a leader leaves to its followers, by its answer and success: its record, nothing, or a failure, exactly once |
| `CacheGuarantees.RawLeaderWrites` | src/plugins/cacheMissHandler.ts:144-151 | Beside a raw leader, a data leader of the key leaves the store alone |
| `CacheLimits.LateTagSlipsThrough` | src/plugins/cacheShared.ts:33-37 | From every reachable state with a request on its way under a current token: after an invalidation of a tag its token lacks, and a request that adds the tag, its answer is stored under that tag, although the invalidation is younger and applied |
| `CacheLimits.LateTagExample` | src/plugins/cacheShared.ts:33-37 | A run of a new plugin in which that happens |
| `CacheLimits.PendingSetOutlivesClear` | src/plugins/cacheMutations.ts:45-52 | From every state: a `set` ready to start when `clear` runs leaves its entry behind |
| `CacheLimits.RemovalSplitsTokens` | src/plugins/cacheInstallation.ts:205-208 | From every state with another installation: a removal makes the next request find a leader that holds another token |
| `CachePlugin.CacheState.IssueOperation` | src/plugins/cacheOperations.ts:41-84 | Collecting waits, starting at once or tracking per key and per tag is the specified issue |
| `CachePlugin.CacheState.OnRequest` | src/plugins/cacheShared.ts:17-40 | The new request holds a current token that carries its tags, and nobody else has gained or lost one |
| `CachePlugin.CacheState.MutateKeys` | src/plugins/cacheMutations.ts:54-217 | The four mutations with their loop over the key generations make the specified step, and fence off exactly the requests they concern |
| `CacheContracts.MutateFacts` | src/plugins/cacheMutations.ts:179-183 | In every reachable state, a mutation takes a current token from exactly those unsettled requests whose token it concerns, and no request whose own key or tags it concerns keeps one |
| `CachePlugin.CacheState.ReadRecord` | src/plugins/cacheRequestHandler.ts:164-188 | A read starts with everything it must follow finished |
| `CachePlugin.CacheState.Clear` | src/plugins/cacheMutations.ts:45-52 | Afterwards nobody holds a current token, and a store that works is empty |
| `CachePlugin.CacheState.PrepareMiss` | src/plugins/cacheMissHandler.ts:41-183 | Following, leading and demanding raw on the plugin's maps make the specified step; a new leader leads alone, and a follower waits for an unsettled promise |
| `CacheContracts.MissFacts` | src/plugins/cacheMissHandler.ts:41-183 | In every reachable state, a miss that becomes a leader holds a current token and is the only leader of its kind and key that does; one that becomes a follower waits for an unsettled promise of its key, and shares its leader's token exactly when that is current |
| `CacheAnswers.MissExactly` | src/plugins/cacheMissHandler.ts:41-183 | With a current token and sharing on, a miss follows the leader of its key if there is one and leads otherwise; in all other cases it goes to the network on its own; whoever goes takes the stale record along |
| `CacheAnswers.WokenExactly` | src/plugins/cacheMissHandler.ts:61-79 | A follower is answered with its leader's record or failure, and goes to the network when the leader has nothing to share |
| `CachePlugin.CacheState.OnResponse` | src/plugins/cacheResponseHandler.ts:36-207 | Write-back, deletion and completion on the plugin's maps make the specified step, and change the store under a current token only and at the request's key only |
| `CacheContracts.RespondFacts` | src/plugins/cacheResponseHandler.ts:93-206 | In every reachable state, an answer changes the store under a current token only and at the request's key only; with one, an unstorable answer leaves no record of the key, and a storable one its own, with all its tags, unless a raw leader is to write |
| `CachePlugin.CacheState.OnSettled` | src/plugins/cacheInstallation.ts:77-160 | Releasing the generation and settling the flight on the plugin's maps make the specified step, with one outcome at most |
| `CacheContracts.SettleFacts` | src/plugins/cacheInstallation.ts:107-160 | In every reachable state, settling a leader settles its promise exactly once, if anybody asked for it; no other flight changes, and every other unsettled request keeps its token |
| `CachePlugin.CacheState.CleanUp` | src/plugins/cacheInstallation.ts:172-209 | The loop over owned leaders rejects exactly the installation's flights, each once and only if anybody asked for it, and nobody holds a current token afterwards |
| `AuthRefresh.SingleFlight` | src/plugins/authPlugin.ts:201-234 | In every run at most one unfinished refresh is wanted by any installation, and it is the shared one |
| `AuthRefresh.OnlyTheSharedOneStores` | src/plugins/authPlugin.ts:208-221 | Only the shared refresh starts a storage write, and only while an installed plugin wants it |
| `AuthRefresh.StepHappens` | src/plugins/authPlugin.ts:185-234 | What every event means: a request joins the refresh under way or starts one; a usable token that somebody wants is stored, for those who want it now, and no other one is; a refresh stays shared as long as another installation wants it |
| `AuthRefresh.LateCompletion` | src/plugins/authPlugin.ts:222-226 | An abandoned refresh that completes late leaves its successor shared and untouched |
| `AuthRefresh.AbandonedForGood` | src/plugins/authPlugin.ts:191-198 | Over every continuation an abandoned refresh is never joined and never stores its token |
| `AuthRefresh.Plugin.RefreshAccessToken` | src/plugins/authPlugin.ts:201-234 | Joining or starting a refresh makes the specified step; the refresh returned is the shared one, is wanted by the caller, and is new only if none was under way |
| `RetryDecision.GrantedExactly` | src/plugins/retryPlugin.ts:233-318 | Exactly when a retry is granted, and after which delay: the one within `maxDelay` closest to what server, configuration or jitter ask for, also for infinite and NaN delays; never beyond `maxElapsedTime` |
| `RetryDecision.ShortcutAgrees` | src/plugins/retryPlugin.ts:258-267 | The shortcut decides as the long way does |
| `Lifecycle.Terminates` | src/core/Pipeline.ts:206-308 | For every pattern of failures and either order of the two retry hooks: at most `retries + 2` transport attempts, every wait within `maxDelay`, every wait the retry hook grants over within `maxElapsedTime` of the start, and none before a refreshed attempt |
| `Lifecycle.WaitsWithinLimit` | src/plugins/retryPlugin.ts:291-318 | Over every run whose clock counts the waits already granted, all waits together stay within `maxElapsedTime` |
| `Lifecycle.BoundAttained` | src/core/Pipeline.ts:206-308 | Some pattern of failures attains that bound for every number of retries |
| `Lifecycle.LastRoundDecides` | src/core/Pipeline.ts:206-308 | Over every run: each round before the last fails and is tried again; the last one decides, by its processed response, an error hook, an aborted wait, the recovered fallback, or the failure |
| `Lifecycle.TriesAgainExactly` | src/core/Pipeline.ts:258-297 | A failed round is followed by another if and only if the retry plugin grants one within its retries or the token can be refreshed for the first time, and the wait is not aborted; the hook asked first decides |
| `Lifecycle.ThrowingHookFails` | src/core/Pipeline.ts:246-258 | What a retry hook throws when it is asked ends the request |
| `Lifecycle.RefreshedOnce` | src/plugins/authPlugin.ts:120-190 | A request asks for a new token once at most, whether that helps or not |
| `Lifecycle.Context.ExecuteLifecycle` | src/core/Pipeline.ts:143-321 | On every exit the settled hooks have run once; the context holds the returned response and no error or fallback, or the thrown error |
| `LruCache.Replay` | src/plugins/cacheStores.ts:59-137 | After any operations on an empty store its keys stand in the order of their last use, within `maxEntries` |
| `LruCache.FindsLatest` | src/plugins/cacheStores.ts:59-137 | After any operations, what is found under a key is what was last stored there and not removed or invalidated since; without a limit it is found |
| `LruCache.VictimsAreOldest` | src/plugins/cacheStores.ts:86-105 | Storing evicts only keys used before every key that stays, no more than needed, and never the key stored |
| `LruCache.PurgeKeeps` | src/plugins/cacheStores.ts:115-131 | An invalidation drops exactly the entries with one of its tags |
| `LruCache.MemoryCacheStore.Get` | src/plugins/cacheStores.ts:70-84 | With the newest-key shortcut a read returns and leaves what always moving the key to the end would |
| `LruCache.MemoryCacheStore.Set` | src/plugins/cacheStores.ts:86-105 | The eviction loop stores as the plain cache does |
| `LruCache.MemoryCacheStore.InvalidateTags` | src/plugins/cacheStores.ts:115-131 | Deleting while iterating leaves the plain result and counts what was deleted |
| `IndexedDbRecords.TotalExact` | src/plugins/indexedDBCacheRecords.ts:212-224 | The saturating total is the sum if and only if the sum is a safe integer |
| `IndexedDbRecords.EvictionsExact` | src/plugins/indexedDBCacheStore.ts:431-459 | No shorter prefix than what is evicted would have been enough; what stays fits both limits if and only if the running total is nowhere low enough while the bytes left are too many, which is so whenever the sum is a safe integer |
| `IndexedDbRecords.OverflowExactly` | src/plugins/indexedDBCacheStore.ts:431-459 | With a total above safe integers and no limit of the number: what stays exceeds `maxBytes` if and only if some sum of sizes from the front lies in [MAX_SAFE_INTEGER - maxBytes, total - maxBytes) |
| `IndexedDbRecords.OverflowExceedsLimit` | src/plugins/indexedDBCacheRecords.ts:212-224 | Beyond safe integers a byte limit can be exceeded without any eviction |
| `IndexedDbRecords.EntriesExactly` | src/plugins/indexedDBCacheStore.ts:431-459 | With a limit for the number of records only, exactly as many stay as it allows |
| `IndexedDbRecords.SortedUnique` | src/plugins/indexedDBCacheStore.ts:418-429 | The eviction order is determined by the records |
| `IndexedDbStore.WriteKeepsLimits` | src/plugins/indexedDBCacheStore.ts:365-464 | After writing a valid record that fits on its own, it is there whatever the sizes, the victims are the shortest least recently used prefix, and the current records respect both limits under the condition of `EvictionsExact` |
| `IndexedDbStore.WriteSparesOthers` | src/plugins/indexedDBCacheStore.ts:376-459 | Newer-schema records and other namespaces are untouched; with limits all junk goes; an evicted record was accessed no later than every current record that stays, other than the one written, and at the same instant has the smaller key |
| `IndexedDbStore.RecoveryHalves` | src/plugins/indexedDBCacheStore.ts:466-522 | Quota recovery leaves half of the current records, rounded down; each that goes was accessed no later than each that stays; all junk goes |
| `IndexedDbStore.RemovableExactly` | src/plugins/indexedDBCacheStore.ts:267-320 | A sweep deletes of its namespace the records without a version, with an older one or unreadable, and of the readable ones of this version those asked for |
| `IndexedDbStore.Store.Get` | src/plugins/indexedDBCacheStore.ts:81-124 | A record is found exactly when it is readable, of this namespace and of this very version; it is then marked as used, and otherwise deleted unless it is newer |
| `IndexedDbStore.Store.WriteRecord` | src/plugins/indexedDBCacheStore.ts:365-464 | The transaction with its sorting and eviction loops is the specified write and spares newer records |
| `IndexedDbStore.Store.RecoverQuota` | src/plugins/indexedDBCacheStore.ts:466-522 | Recovery reports success exactly when it deleted something |
| `IndexedDbStore.Store.Set` | src/plugins/indexedDBCacheStore.ts:127-189 | Exactly when a record is stored, over limits, admission, quota failures and a newer record under the key; what the database is after each failure; newer records are never overwritten |
| `IndexedDbStore.Store.Visit` | src/plugins/indexedDBCacheStore.ts:267-343 | A sweep deletes exactly the junk and matching records among those scanned, stops at the removal limit, and spares newer records |

## Left out

- Fetch, XHR, the real IndexedDB, BroadcastChannel, Web Locks and TextDecoder: foreign calls. Chunks are decoded text of whole code points, a transaction is one atomic map step, and a store that fails changes nothing.
- NDJSON decoding and JSON parsing, Standard Schema validation, cloning and header parsing: opaque values; NDJSON adds only a parse per line to the verified line decoder.
- The byte-order mark at the start of a stream: removed by the decoder of bytes, which is not part of this model.
- Which of the two budgets is named in a RESPONSE_TOO_LARGE error: it can depend on the chunking.
- The moment `onId` and `onRetry` fire: only emitted events are related to the standard.
- Cache keys, freshness, Vary and Cache-Control policies: the record handler's verdict and the kind of response are chosen by the environment.
- Refresh leases of the cache: modelled only as a second read of the store; their release is not.
- Background refreshes and automatic invalidations: they are further requests and mutations, which may come at any time.
- A store whose request writes fail: request writes and deletions always apply; failures of explicit operations are modelled.
- Admissions of the rate limiter after its last installation has gone: the records are cleared by design, so the history starts afresh.
- Record eviction order by `localeCompare`: keys are compared as numbers, a strict total order.
- Usage reports, byte counts of compaction, and the pruning of older schemas when a database is opened.
- Sizes estimated from structured values: a record's size is given.
- The tiered store's key tracking, the web storage store, the logger, OpenTelemetry, progress, statistics and observers: they would add only easy members.
- Error classes, option normalisers, URL joining, configuration merging, adapters and types: plumbing.
