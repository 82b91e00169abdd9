# Pulse: a verified model of the event pipeline's protocols

Pulse takes events from many tenants through Kafka into idempotent stores and webhooks. This project
models the stateful parts whose correctness spans whole runs, and proves what holds of every run:

- **Consumers** (`BatchConsumer`, `ConsumerLoop`, `OffsetCoverage`, `CoverageExactness`, `LossyLogs`,
  `Cancellation`, `PersistedEvents`, `DeadLettering`, `ConfusedKeys`, `SingleConsumer`, `EventTable`). A consumer is a machine over its external calls. Each call reads one
  reply from a tape, and a tape may hold any pattern of failures, cancellations and effects that landed
  although the call failed; a tape that ends early is a crash at that call. The loops of the source are
  methods proved to walk this machine reply by reply.
- **Webhook delivery** (`ClaimStore`, `LeaseProtocol`, `CircuitBreakers`, `Dispatcher`,
  `ConcurrentDeliveries`, `WedgedBreakers`, `WebhookHandling`, `SubscriptionTurns`, `BatchReports`,
  `DispatcherRuns`, `HandlerRuns`). Claims with leases shared by any number of workers, the
  retry schedule, the breaker, the bulkhead, and the handlers that drive them.
- **Rate limiting** (`TokenBucket`, `MemoryLimiter`, `RedisLimiter`). Token buckets in exact arithmetic,
  in memory and in expiring Redis keys.
- **Authentication** (`AuthCache`, `AuthStaleness`). The key cache over the tenant store, one call at a
  time and interleaved at lock granularity.

Clock readings, generated identifiers and keys, jitter, and the outcomes of network and database calls
are parameters of the operations or steps of the machines.

## Findings

Some properties one might expect are false of the code. For each, the model has the exact condition under
which it holds, and runs from the start that break it when it does not.

- Lease exclusion holds in every reachable state if and only if the whole retry schedule, with the time
  allowed for everything else, is shorter than the lease (`ExclusionIffScheduleFits`). The production
  settings meet this when all work other than sends and waits takes at most 946.8 s per claim.
- Composite string keys confuse identifiers that contain a NUL. Batch webhook handling equals one-by-one
  handling exactly for batches without such confusion (`BatchEqualsOneByOneIff`). Batch dead-lettering
  covers whatever is listed exactly for batches without it (`WritesCoverIff`). The batch consumer skips
  nothing, in any run, exactly on logs where no valid message can meet a confused one in a batch before
  an invalid record with its own identity has been dead-lettered (`NothingSkippedIffLossless`).
  Generated tenant identifiers hold no NUL, which rules all of this out.
- The one-message consumer moves past a message that failed, and the next commit covers it. It skips
  nothing, in any run, exactly on logs where nothing behind the first message of a partition can be
  processed at all (`SingleConsumer.CoverageIff`).
- A breaker never lets a delivery through again exactly when it is half-open and no delivery to its
  endpoint is under way (`WedgedIff`), which is exactly when a probe was cancelled while it queued for the
  bulkhead, or could not encode its event, and no send to the endpoint has ended since the probe started
  (`IdleHalfOpenIff`). Every endpoint can be brought there, under any settings (`WedgedFromTheStart`).
- A refused claim counts as handled. Handling that succeeds has delivered to every subscription exactly
  when no claim was completed or leased at the reading of its turn (`SuccessMeansDeliveredIff`); so
  retrying an event whose release failed succeeds without a delivery (`RetryAfterFailedReleaseSucceeds`).
- Some later call can still succeed with a revoked key exactly when the key is cached unexpired or an
  unexpired answer for it is about to be inserted (`RevokedKeyLivesIff`); an insert can outlive the
  rotation's purge (`StaleInsertFromTheStart`), but for less than the time to live (`RotatedKeyDies`).
- A refused rate-limit call shows to a later call of its tenant exactly when that call reads the clock
  earlier and the refill between the two readings completes a whole token (`RefusedCallShowsIff`).
- `docs/adr/ADR-006-rate-limiting.md` calls the Redis script a fixed-window counter. The script is a
  token bucket, and the model follows the script.

## Model

| member | source | states |
|---|---|---|
| Events.JoinedInjective | internal/kafka/producer.go:349 | a tenant and an identifier joined by a NUL determine both, when the tenant holds no NUL |
| Events.JoinedCollides | internal/kafka/producer.go:349 | every tenant that holds a NUL shares its joined keys with a different pair |
| OffsetCoverage.NoSkippedOffsets | internal/kafka/producer.go:185-250 | if no batch that occurs has a message at risk, then after any number of lives, under any failures, cancellations and crashes, each offset below a committed one was bad and dead-lettered, was in a batch whose handler call succeeded, or was in a batch settled by a terminal error that left it unlisted or whose dead letters hold its identity |
| OffsetCoverage.StepKeeps | internal/kafka/producer.go:185-301 | every external call keeps the coverage invariant: committed offsets are accounted for, and everything fetched is accounted for or still in hand |
| OffsetCoverage.RunKeeps | internal/kafka/producer.go:185-250 | the coverage invariant holds throughout every life of the consumer |
| OffsetCoverage.LivesKeep | internal/kafka/producer.go:185-250 | committed offsets stay accounted for through restarts from the committed offsets |
| OffsetCoverage.CommitWithin | internal/kafka/producer.go:374-383 | a commit never lowers an offset and never passes what was fetched |
| ConfusedKeys.LettersCoverListed | internal/kafka/producer.go:346-372 | when the batch dead-letter write goes ahead, every listed message whose tag is first carried by its own identity has a letter with its own tenant and event |
| ConfusedKeys.WritesCoverIff | internal/kafka/producer.go:346-372 | whatever is listed, the write covers every listed message of the batch, if and only if no two messages of the batch share a tag without sharing tenant and event |
| CoverageExactness.CleanTenantsUnambiguous | internal/auth/tenant.go:80-81 | tenants without a NUL leave no two messages of the log confused |
| CoverageExactness.UnambiguousIsSafe | internal/kafka/producer.go:346-372 | on a log without confused messages no batch that occurs has a message at risk |
| CoverageExactness.ConfusedMessagesSkip | internal/kafka/producer.go:346-372 | from every reachable batch with a message at risk, a handler error that lists it and a smooth write and commit leave its offset committed with nothing to account for it |
| CoverageExactness.CoverageIff | internal/kafka/producer.go:185-250 | every committed offset is accounted for in every run if and only if no batch that occurs has a message at risk |
| LossyLogs.NothingSkippedIffLossless | internal/kafka/producer.go:185-250 | every committed offset is accounted for in every run if and only if there is no dead-letter topic, batches hold one message, or no valid message of the log can meet a confused one ahead of it within the batch size with no invalid record of its own identity before them |
| LossyLogs.SafeIffLossless | internal/kafka/producer.go:252-276 | a batch with a message at risk occurs in some run if and only if the log and batch size are lossy |
| LossyLogs.AtRiskIsLossy | internal/kafka/producer.go:278-301 | a message at risk in a reachable batch gives two offsets of the log that make it lossy, close enough to share a batch |
| LossyLogs.ReachTidy | internal/kafka/producer.go:252-301 | in every reachable state the batch in hand is ordered and close-packed per partition and no larger than the batch size, and every bad message fetched is dead-lettered or in hand |
| PersistedEvents.TableIsFirstOccurrences | internal/kafka/producer.go:185-301 | after any number of lives, each partition has a frontier at or above its committed offset, and the events table is exactly the first-occurrence-wins map of the valid events below the frontiers |
| PersistedEvents.StepExact | internal/kafka/producer.go:185-301 | every external call keeps the table exact and the batch in hand a stretch of the log that starts at or below the frontier |
| PersistedEvents.EffectIsExact | internal/worker/handlers.go:42-59 | saving a batch, redelivered in part or in whole, moves each frontier to the cursor at least and keeps the table exact |
| PersistedEvents.OverlapExtends | internal/persistence/postgres.go:86-119 | first occurrences up to the frontier, then those of an overlapping stretch, are the first occurrences of the longer prefix |
| PersistedEvents.FirstIsOwn | internal/kafka/producer.go:70 | a tenant's first occurrence in a mixed batch comes from its own partition's messages, because messages are keyed by tenant |
| PersistedEvents.RunExact | internal/kafka/producer.go:185-250 | the table stays exact throughout every life of the consumer |
| PersistedEvents.LivesExact | internal/kafka/producer.go:185-250 | what is durable stays exact through crashes and redelivery |
| ConsumerLoop.Consumer.RunBatch | internal/kafka/producer.go:185-250 | on every tape the nested retry loops end in exactly the world the machine predicts |
| ConsumerLoop.Consumer.FetchBatch | internal/kafka/producer.go:252-276 | collects until the batch is full, the window closes or a fetch fails, as the machine does |
| ConsumerLoop.Consumer.DecodeBatch | internal/kafka/producer.go:278-301 | returns all the messages and the valid events in order, having dead-lettered each bad one, or stops where the machine stops |
| ConsumerLoop.Consumer.WriteDeadLetter | internal/kafka/producer.go:337-344 | dead-letters one bad message, or makes the batch wait when there is no dead-letter topic or the write fails |
| ConsumerLoop.Consumer.DeadLetterBatch | internal/kafka/producer.go:346-372 | the loop that fills and empties the map of failed tags selects exactly the letters the selection function selects |
| ConsumerLoop.Consumer.TryHandle | internal/kafka/producer.go:226-235 | one handler call with its dead-lettering leads to commit or to a retry, as in the machine |
| ConsumerLoop.Consumer.WriteLetters | internal/kafka/producer.go:371 | the one write of a batch's letters settles the batch, or may land in part and is retried |
| ConsumerLoop.Consumer.HandleBatch | internal/kafka/producer.go:225-241 | the handler is retried on the same messages until it succeeds or its verdict is dead-lettered |
| ConsumerLoop.Consumer.CommitMessages | internal/kafka/producer.go:374-383 | the commit is retried on the same messages until it succeeds or the consumer is cancelled |
| ConsumerLoop.Consumer.Wait | internal/kafka/producer.go:385-394 | a wait ends by itself or by cancellation |
| Cancellation.CancellationStops | internal/kafka/producer.go:189-241 | once a wait, or a fetch that brings nothing, is cancelled, the world stays as it is whatever later calls would have answered |
| Cancellation.StopsIffInterrupted | internal/kafka/producer.go:189-241 | the consumer stops if and only if that happens |
| Cancellation.BatchIsKept | internal/kafka/producer.go:202-248 | a collected batch stays in hand, message for message, through every failure until it is committed or the consumer is cancelled |
| Cancellation.FailureIsRetried | internal/kafka/producer.go:189-241 | after a failed call and a wait, exactly the fetch, the whole decoding, the handler or the commit is tried again; the handler also after a failed dead-letter write |
| Cancellation.CollectionCloses | internal/kafka/producer.go:259-274 | a failed fetch or the end of the window closes the batch with what was collected |
| Cancellation.BackoffChanges | internal/kafka/producer.go:196-198 | a wait that runs out doubles the backoff below thirty seconds, a commit resets it to one, and nothing else changes it |
| Cancellation.BackoffStaysSensible | internal/kafka/producer.go:186-248 | waits last 1, 2, 4, 8, 16 or 32 seconds in every run |
| DeadLettering.DeadLetterContract | internal/kafka/producer.go:346-372 | the write happens if and only if some event is listed and every listed tag is in the batch, and then it is, in batch order, the first decodable message of each listed tag |
| DeadLettering.SelectionIsFirsts | internal/kafka/producer.go:355-367 | selecting while deleting found tags picks the first message of each tag, and leaves exactly the tags not in the batch |
| DeadLettering.DistinctBatchWritesListed | internal/kafka/producer.go:355-367 | when no two decodable messages share a tag, the letters are exactly the listed events' messages |
| DeadLettering.LandedIff | internal/kafka/producer.go:371 | a write that fails may leave any of its letters in the topic, and only those |
| DeadLettering.BatchGetsCommitted | internal/kafka/producer.go:202-248 | from any phase with a batch in hand, a bounded number of calls that go well commits exactly that batch |
| SingleConsumer.AckedWereProcessed | internal/kafka/producer.go:138-183 | every message named in a commit was handled or dead-lettered, and every offset the commits cover was that or was moved past |
| SingleConsumer.CoverageIff | internal/kafka/producer.go:138-183 | every committed offset was handled or dead-lettered in every run if and only if nothing behind the first message of any partition can be processed: all of it bad, and no dead-letter topic |
| SingleConsumer.FailedMessageIsCovered | internal/kafka/producer.go:172-180 | from every point where a message is being processed, a failure of the handler or the dead-letter write and a smooth next message commit the failed offset too, although it was neither handled nor dead-lettered |
| SingleConsumer.GapFromTheStart | internal/kafka/producer.go:172-180 | a fresh consumer can commit any processable message behind the first with nothing before it processed |
| SingleConsumer.StepKeeps | internal/kafka/producer.go:138-183 | every external call keeps fetched messages processed, moved past or in hand |
| SingleConsumer.TerminalErrorIsDeadLettered | internal/kafka/producer.go:311-323 | a terminal handler error has the message dead-lettered and committed but not counted as handled, or moved past when there is no dead-letter topic |
| SingleConsumer.FailedMessage | internal/kafka/producer.go:172-180 | after a failed handler call, dead-letter write or commit the consumer waits and goes on with the next fetch |
| SingleConsumer.CancellationStops | internal/kafka/producer.go:143-148 | once a wait or an empty-handed fetch is cancelled, everything stays as it is |
| SingleConsumer.StopsIffInterrupted | internal/kafka/producer.go:143-174 | the consumer stops if and only if that happens |
| SingleConsumer.BackoffChanges | internal/kafka/producer.go:149-181 | the backoff doubles below thirty seconds and is reset by a commit |
| SingleConsumer.Consumer.RunSingle | internal/kafka/producer.go:138-183 | on every tape the loop ends in exactly the ledger the one-message machine predicts |
| SingleConsumer.Consumer.ProcessMessage | internal/kafka/producer.go:303-335 | one message is handled or dead-lettered and then committed, or the failure is reported at the call where the machine moves on |
| EventTable.SaveAllKeepsFirst | migrations/001_initial.sql:18 | one save after another keeps what the table holds, else the batch's first event of each identity |
| EventTable.ConflictsIff | migrations/001_initial.sql:18 | a copy conflicts if and only if the table has one of its rows or two of them share tenant and event |
| EventTable.CopyIsSaveAll | internal/persistence/postgres.go:90-96 | a copy without a unique violation leaves the table that single saves would leave |
| EventTable.InsertIsSaveAll | internal/persistence/postgres.go:104-119 | a multi-row insert whose placeholders line up leaves the table that single saves would leave, duplicates included |
| EventTable.BuildInsert | internal/persistence/postgres.go:107-115 | for every batch length, the numbered placeholders of each row bind to the five cells of that row's event |
| EventTable.Postgres.SaveEvent | internal/persistence/postgres.go:81-84 | inserts unless the identity is known, and reports whether it did |
| EventTable.Postgres.CopyFrom | internal/persistence/postgres.go:90-93 | all rows or none; a unique violation if and only if a row is known or occurs twice |
| EventTable.Postgres.SaveEvents | internal/persistence/postgres.go:86-102 | without error the table is that of single saves in order; with one it is that or unchanged; and exactly when there is an error |
| EventTable.Postgres.SaveEventsInsert | internal/persistence/postgres.go:104-119 | the built statement leaves the table of single saves in order |
| ClaimStore.StoresAgree | internal/persistence/postgres.go:154-178 | on every run of claims, completions and releases at any clock readings, the in-memory and SQL stores answer alike and stay related |
| ClaimStore.LeaseLastsAnHour | internal/webhook/subscription.go:63-100 | a granted claim that nobody ends, whatever else happens in the store, is refused for exactly 3600 seconds |
| ClaimStore.SqlLeaseLastsAnHour | internal/persistence/postgres.go:154-168 | so is one granted by the SQL statement with its interval of one hour |
| ClaimStore.EndingsDecide | internal/webhook/subscription.go:102-128 | a completion within the hour is final, a release within the hour frees the claim at once, and after the hour neither does anything |
| ClaimStore.CompletedIsFinal | internal/webhook/subscription.go:95-97 | no operations on the store ever make a completed claim grantable |
| ClaimStore.SqlRunKeepsRows | internal/persistence/postgres.go:156-176 | in every run, rows being processed were claimed one lease before it ends and exactly the completed rows have a completion time |
| ClaimStore.MemoryStore.ClaimDelivery | internal/webhook/subscription.go:87-100 | refuses a completed claim or a running lease, else starts an hour's lease |
| ClaimStore.MemoryStore.CompleteDelivery | internal/webhook/subscription.go:102-114 | completes a claim whose lease is running, else changes nothing |
| ClaimStore.MemoryStore.ReleaseDelivery | internal/webhook/subscription.go:116-128 | frees a claim whose lease is running, else changes nothing |
| LeaseProtocol.ExclusionIffScheduleFits | internal/webhook/subscription.go:62-63 | no two live workers ever hold the same delivery, in any interleaving with crashes and failed store calls, if and only if the whole schedule is shorter than the lease |
| LeaseProtocol.EndingsTakeEffect | internal/webhook/subscription.go:102-128 | a busy worker's completion or release always takes effect, and nobody else can claim meanwhile |
| LeaseProtocol.DeliveriesAreCounted | internal/worker/handlers.go:153-202 | per delivery, successful sends never exceed one plus the crashes and failed completions that followed a success |
| LeaseProtocol.CompletedIsForever | internal/webhook/subscription.go:95-97 | a claim completed at any point of a run stays completed to its end, on any schedule |
| LeaseProtocol.ProductionFits | internal/app/app.go:208 | six sends of 15 s, the five backoffs with jitter below a fifth, and 946.8 s for everything else stay below the hour's lease; with what is left of the schedule after each attempt |
| LeaseProtocol.LongScheduleBreaksExclusion | internal/webhook/resilience.go:137-177 | when the schedule outlasts the lease, some run gives one delivery to two workers at once |
| LeaseProtocol.SlowestRun | internal/webhook/resilience.go:156-177 | the schedule bound is attained: some run reaches each attempt as late as the bound allows |
| LeaseProtocol.HeldIsRefused | internal/webhook/subscription.go:95-97 | a job that is on schedule has a running lease |
| LeaseProtocol.StepKeepsInv | internal/worker/handlers.go:153-202 | every step of every worker keeps jobs on schedule, claims held and exclusive, and successes counted |
| LeaseProtocol.RunsKeepInv | internal/worker/handlers.go:153-202 | every reachable state satisfies the lease invariant |
| Dispatcher.AttemptsFitSchedule | internal/webhook/resilience.go:156-177 | however the sends go, the retry loop fits the schedule the lease is sized for, with at least one and at most one more than the maximum number of retries sends |
| Dispatcher.DeliveredIff | internal/webhook/resilience.go:156-177 | the loop delivers if and only if some attempt succeeds and no wait before it was cancelled, and a delivery leaves the breaker closed |
| Dispatcher.LoopEndsAt | internal/webhook/resilience.go:156-177 | the loop sends exactly up to the first attempt that succeeds, is cancelled in its wait or is the last, and that attempt tells the outcome |
| Dispatcher.NextDelivery | internal/webhook/resilience.go:119-177 | on a fresh endpoint, after a delivery that got through or failed fewer than three times the next is let through at any reading; else if and only if 60 seconds have passed since the last failure |
| Dispatcher.UndeliveredStrikes | internal/webhook/resilience.go:156-177 | from any breaker, a loop that does not deliver adds its sends to the failures and trips at three, stamped with the last |
| Dispatcher.EndpointRule | internal/webhook/resilience.go:119-126 | over every history of an endpoint, a call is let through if and only if there are fewer than three failures since the last success, or 60 seconds have passed since the latest and no probe is out |
| Dispatcher.EndpointDispatcher.constructor | internal/webhook/resilience.go:108-117 | no breakers or bulkheads yet, and at least one slot per endpoint |
| Dispatcher.EndpointDispatcher.Deliver | internal/webhook/resilience.go:137-177 | a delivery leaves the bulkheads as it found them and other endpoints' breakers alone, and reports what its loop reports or, when rejected after the breaker let it through, nothing |
| Dispatcher.EndpointDispatcher.SendWithRetries | internal/webhook/resilience.go:156-177 | the loop over attempts computes the outcome, sends, elapsed time and breaker of the recursive schedule |
| Dispatcher.EndpointDispatcher.Ask | internal/webhook/resilience.go:119-126 | asks the endpoint's breaker, made on first use |
| Dispatcher.EndpointDispatcher.Acquire | internal/webhook/resilience.go:83-90 | takes a slot of the endpoint's bulkhead only below the limit |
| Dispatcher.EndpointDispatcher.Release | internal/webhook/resilience.go:91 | gives the slot back |
| DispatcherRuns.DeliverIsARun | internal/webhook/resilience.go:137-177 | a delivery by the dispatcher is a run of the machine of concurrent deliveries that ends with the same breaker, slots and deliveries |
| DispatcherRuns.AttemptsAreARun | internal/webhook/resilience.go:156-177 | so is its retry loop from any attempt on, with one report per send |
| HandlerRuns.HandlingIsARun | internal/worker/handlers.go:153-202 | handling an event, with the dispatcher's retry loop inside, is a run of the lease protocol that ends with the same claims |
| HandlerRuns.AttemptsAreARun | internal/webhook/resilience.go:156-177 | the retry loop from any attempt on is a run of the lease protocol that takes the same time and ends the same way |
| CircuitBreakers.BreakerEqualsTrace | internal/webhook/resilience.go:44-72 | over every history the breaker is closed exactly when failures since the last success are below the threshold, half-open exactly when a probe is outstanding, and lets a call through exactly by the rule stated on the history |
| CircuitBreakers.AnswersFollowTheRule | internal/webhook/resilience.go:44-58 | each answer of a run is the one the history before it prescribes |
| CircuitBreakers.OneProbePerReport | internal/webhook/resilience.go:50-56 | once tripped, a breaker that let a call through refuses all others until the next report |
| CircuitBreakers.CircuitBreaker.constructor | internal/webhook/resilience.go:38-43 | closed, with threshold three when the given one is below one |
| CircuitBreakers.CircuitBreaker.Allow | internal/webhook/resilience.go:44-58 | one step of the breaker value the histories are about |
| CircuitBreakers.CircuitBreaker.Success | internal/webhook/resilience.go:59-63 | closes the breaker and forgets failures and probe |
| CircuitBreakers.CircuitBreaker.Failure | internal/webhook/resilience.go:64-72 | counts a failure, trips at the threshold, and clears the probe |
| ConcurrentDeliveries.BulkheadAndReports | internal/webhook/resilience.go:137-177 | in every reachable state of any number of deliveries, sends under way on an endpoint stay within its limit, freeing a slot never blocks, and every finished send has made exactly one breaker report |
| ConcurrentDeliveries.OthersUntouched | internal/webhook/resilience.go:119-135 | a step leaves every other endpoint's breaker, slots, counters and deliveries alone |
| WedgedBreakers.HalfOpenIff | internal/webhook/resilience.go:44-72 | in every run of any number of deliveries, a breaker is half-open if and only if a probe started and no send to its endpoint has ended since |
| WedgedBreakers.IdleHalfOpenIff | internal/webhook/resilience.go:144-155 | an endpoint without deliveries is half-open if and only if, in the run so far, a probe started, that same delivery then failed to get a slot or to encode its event, and no send to the endpoint has ended since the probe started |
| WedgedBreakers.IdleNeverHalfOpen | internal/webhook/resilience.go:137-177 | if no delivery that was let through gives up before sending, an endpoint without deliveries is never half-open |
| WedgedBreakers.AbortedProbeWedges | internal/webhook/resilience.go:148-155 | from every state with a tripped breaker past its cooldown, a probe that is cancelled while queueing leaves the idle endpoint half-open |
| WedgedBreakers.WedgedForever | internal/webhook/resilience.go:44-58 | an idle half-open endpoint stays idle and half-open, whatever happens |
| WedgedBreakers.WedgedIff | internal/webhook/resilience.go:137-177 | no future lets another delivery to an endpoint through if and only if the endpoint is idle and half-open |
| WedgedBreakers.WedgedFromTheStart | internal/webhook/resilience.go:148-155 | under any settings, some run from the start leaves a given endpoint with no such future |
| ConcurrentDeliveries.RunKeepsInv | internal/webhook/resilience.go:75-177 | slots equal holders, sends equal reports plus sends under way, and half-open means an unreported probe, in every reachable state |
| WebhookHandling.BatchEqualsOneByOneIff | internal/worker/handlers.go:117-151 | batch handling makes the same calls with the same verdict as one-by-one handling, for all directories, claims and outcomes, if and only if events that share a lookup key share tenant and type |
| WebhookHandling.MemoAgrees | internal/worker/handlers.go:117-151 | on such a batch, memoised lookups change nothing at any point of the loop |
| WebhookHandling.CleanTenantsUnambiguous | internal/persistence/postgres.go:45 | tenants without a NUL make every batch such a batch |
| WebhookHandling.FineIffAllWell | internal/worker/handlers.go:153-202 | handling an event succeeds if and only if none of the calls it made went wrong; a refused claim is not wrong |
| SubscriptionTurns.EveryTurnIsTaken | internal/worker/handlers.go:153-202 | whatever becomes of earlier deliveries, every subscription has its turn in order, on the claim of this tenant, event and subscription, up to the first claim error, which alone ends the handling |
| SubscriptionTurns.HandlingFollowsLookup | internal/worker/handlers.go:104-115 | a failed lookup ends the handling before any call, else the subscriptions of the event's tenant and type have their turns |
| SubscriptionTurns.DeadLetterIffFailed | internal/worker/handlers.go:182-201 | handling ends in an error if and only if a claim failed, and else in a dead-letter error if and only if some delivery, completion or release failed |
| SubscriptionTurns.TurnDecidesClaim | internal/worker/handlers.go:182-196 | after a turn that ends within the hour the claim is refused for ever if it delivered, and free at once if not |
| BatchReports.BatchReports | internal/worker/handlers.go:137-150 | a batch stops with the error of the first event that meets one, and else reports exactly the events whose own handling at their turn asks for dead-lettering, in order |
| SubscriptionTurns.SuccessMeansDeliveredIff | internal/worker/handlers.go:153-202 | successful handling has delivered to every subscription if and only if none of its calls was a refused claim, which is if and only if no subscription's claim was completed or leased beforehand at the reading of its turn |
| SubscriptionTurns.DeliveredUnlessTaken | internal/worker/handlers.go:160-197 | when handling succeeds, each subscription was delivered to or was refused because its claim was completed or leased, and never both |
| SubscriptionTurns.RetryAfterFailedReleaseSucceeds | internal/worker/handlers.go:165-167 | a failed delivery whose release fails too is handled successfully on retry while the lease runs, with nothing delivered |
| WebhookHandling.WebhookHandler.Deliver | internal/worker/handlers.go:153-202 | claims, delivers, and completes or releases each subscription in order, stopping only at a claim error |
| WebhookHandling.WebhookHandler.Handle | internal/worker/handlers.go:104-115 | a failed lookup is an error before any claim, else the event's subscriptions are worked through |
| WebhookHandling.WebhookHandler.HandleBatch | internal/worker/handlers.go:117-151 | memoised batch handling, and on batches without confused keys the calls, error and dead-letter list of handling each event in order |
| TokenBucket.WindowBound | internal/ratelimit/limiter.go:45-74 | over any contiguous stretch opened by a tenant's charging call, admitted amounts total at most the limit plus the rate times the advance of the running maximum of clock readings, even if the clock goes back |
| TokenBucket.AdmittedIffBoundAllows | internal/ratelimit/limiter.go:45-74 | with a clock that does not go back, a call is admitted if and only if its amount is within the limit and admitting it keeps the window bound over every stretch of its tenant's calls |
| TokenBucket.LevelIsTightest | internal/ratelimit/limiter.go:59-72 | a bucket's level is the least of the limit and what the window bound leaves over each stretch |
| TokenBucket.UndecidedCalls | internal/ratelimit/limiter.go:46-54 | amounts or limits that are not positive pass without touching a bucket, and an unset rate is reported as unavailable |
| TokenBucket.StampIsPeak | internal/ratelimit/limiter.go:59-66 | a bucket's stamp is the running maximum of its tenant's clock readings |
| TokenBucket.RunInRange | internal/ratelimit/limiter.go:45-74 | tokens stay between zero and the limit, and an amount above the limit is never admitted |
| TokenBucket.Isolation | internal/ratelimit/limiter.go:56-73 | a tenant's answers and bucket in any interleaved run equal those of its own calls alone |
| TokenBucket.LevelLater | internal/ratelimit/limiter.go:63-66 | refill-and-cap composes over a split interval |
| TokenBucket.RefusedCallsAreInvisible | internal/ratelimit/limiter.go:59-74 | deleting any refused call changes no other answer of any tenant, when its tenant's next charging call reads the clock no earlier; other readings are free |
| TokenBucket.MonotoneReadsFrom | internal/ratelimit/limiter.go:59-66 | a clock that does not go back meets that proviso |
| TokenBucket.RefusedCallShowsIff | internal/ratelimit/limiter.go:59-74 | a refused call changes the answer to some amount at a given reading if and only if that reading is earlier and the refill between the two completes a whole token |
| TokenBucket.RefusedCallVisibleWhenClockGoesBack | internal/ratelimit/limiter.go:63-66 | an instance: a refused call at a later reading turns a refusal at an earlier one into a grant |
| TokenBucket.RunAlike | internal/ratelimit/limiter.go:59-74 | limiters that show equal levels answer every later call alike |
| MemoryLimiter.Memory.constructor | internal/ratelimit/limiter.go:34-43 | no buckets, and the rate of the limit over the window, or none for a window that is not positive |
| MemoryLimiter.Memory.AllowN | internal/ratelimit/limiter.go:45-74 | one step of the exact bucket, including the cases that never consult it |
| RedisLimiter.ExpiryIsInvisible | internal/ratelimit/redis.go:11-41 | with a monotone clock, whichever expired keys Redis drops and whenever, every answer is that of a limiter that never forgets |
| RedisLimiter.RedisAgreesWithMemory | internal/ratelimit/redis.go:55-86 | for windows of whole microseconds, the expiring limiter answers exactly as the in-process one at the same instants |
| RedisLimiter.TtlCoversRefill | internal/ratelimit/redis.go:66-77 | the time to live in milliseconds covers the refill of a whole bucket |
| RedisLimiter.RoundingIsTight | internal/ratelimit/redis.go:66-76 | the script's window is the whole microseconds of the window and at least one; the time to live is the least number of whole milliseconds that covers it |
| RedisLimiter.KeyLivesForTheWindow | internal/ratelimit/redis.go:38-39 | each consulted key lives on for the window and less than a millisecond more, and no other key is touched |
| RedisLimiter.DroppingIsAlike | internal/ratelimit/redis.go:38-39 | dropping expired keys changes no tenant's level |
| RedisLimiter.RunRescaled | internal/ratelimit/redis.go:16-31 | buckets stamped in microseconds answer as buckets stamped in nanoseconds |
| RedisLimiter.Redis.AllowN | internal/ratelimit/redis.go:55-86 | the argument arithmetic and the script together are one step of the expiring bucket |
| RedisLimiter.Redis.Script | internal/ratelimit/redis.go:11-41 | one bucket step on the called key, stored with a renewed expiry |
| AuthCache.CacheAgrees | internal/auth/cache.go:31-88 | for every sequence of calls with fresh identifiers and keys, at any clock readings, the cached store answers exactly as the bare store |
| AuthCache.StepAgrees | internal/auth/cache.go:31-88 | each call answers alike and keeps every cached tenant current |
| AuthCache.AuthAgrees | internal/auth/cache.go:50-84 | a hit, a miss and an eviction all give the store's answer |
| AuthCache.CreatedTenantWorks | internal/auth/tenant.go:67-86 | a created tenant is authenticated by the key handed out and found by its identifier, as active and with its name, and no other key or identifier is affected |
| AuthCache.RotatedKeyWorks | internal/auth/tenant.go:88-102 | after a rotation the new key authenticates the tenant, otherwise unchanged, the old key nobody, and no other key is affected |
| AuthCache.InsertKeepsOthers | internal/auth/cache.go:70-81 | an insert keeps every unexpired entry below 4096 of them, drops exactly one otherwise, and adds its own for the time to live |
| AuthCache.MemoryStore.Create | internal/auth/tenant.go:67-86 | adds an active tenant unless the name is blank |
| AuthCache.MemoryStore.RotateKey | internal/auth/tenant.go:88-102 | replaces the key of a known tenant |
| AuthCache.MemoryStore.Authenticate | internal/auth/tenant.go:104-113 | the scan, in any order, finds an active tenant with the key's hash if and only if there is one |
| AuthCache.MemoryStore.Get | internal/auth/tenant.go:115-123 | the tenant, or not found |
| AuthCache.CachedStore.RotateKey | internal/auth/cache.go:35-48 | rotates, purges exactly that tenant's entries, and keeps the cache current and within its size |
| AuthCache.CachedStore.Authenticate | internal/auth/cache.go:50-84 | answers as the store would, and keeps the cache current and within 4096 entries |
| AuthCache.CachedStore.StoreFresh | internal/auth/cache.go:69-82 | drops exactly the expired entries, evicts one if the cache is still full, and inserts |
| AuthStaleness.StalenessIsBounded | internal/auth/cache.go:35-84 | under any interleaving, every success of a call is backed by the store's acceptance of that key for that tenant during the call or less than the time to live before it, and the cache never exceeds 4096 entries |
| AuthStaleness.RotatedKeyDies | internal/auth/cache.go:35-84 | no call that starts the time to live or more after a key's rotation succeeds with it |
| AuthStaleness.RevokedKeyLivesIff | internal/auth/cache.go:35-84 | in every reachable state, some call that starts at a given time or later can succeed with a revoked key if and only if the key is cached past that time or an answer for it that would be is about to be inserted |
| AuthStaleness.StaleInsertOutlivesPurge | internal/auth/cache.go:65-82 | an unexpired insert that lands after a completed rotation lets a later call succeed with the revoked key |
| AuthStaleness.StaleInsertFromTheStart | internal/auth/cache.go:65-82 | such a run exists from the empty store, for any active tenant and any positive time to live |
| AuthStaleness.AuthenticateIsARun | internal/auth/cache.go:50-84 | an uninterrupted authentication is a run of the interleaved machine with the same answer and cache |
| AuthStaleness.RotateIsARun | internal/auth/cache.go:35-48 | so is an uninterrupted rotation |
| AuthStaleness.RunKeeps | internal/auth/cache.go:35-84 | cached entries, pending inserts and successes stay backed, and revoked keys unaccepted, in every reachable state |

## Left out

- Floating-point rounding in the limiters: arithmetic is over the reals.
- Redis failures and unexpected script results, which the limiter reports as unavailable (`internal/ratelimit/redis.go:79-84`): they decide nothing.
- JSON decoding and event validation: each log record is undecodable, invalid or valid once and for all, although the future-timestamp check (`internal/events/event.go:39`) depends on the clock.
- Consumer-group rebalancing between live members: one consumer at a time over a fixed log, restarted from the committed offsets.
- Producer internals: that a tenant's events share a partition is an assumption on the log, from the message key (`internal/kafka/producer.go:70`).
- Message headers, tracing, metrics, HTTP routing, configuration, shutdown and the user interface: plumbing.
- ClickHouse analytics (`internal/worker/handlers.go:61-94`): a thin wrapper around a query engine.
- The one-by-one fallback of batch persistence for stores without batch saves (`internal/worker/handlers.go:43-51`): the production store has them.
- PostgreSQL's bound on the number of statement parameters, its foreign keys and its other constraints on the events table.
- SHA-256, HMAC, random keys and identifiers: digests are injective and generated values fresh.
- Endpoint address policy: an opaque yes or no before the breaker is asked.
- Subscriptions: lookups are a fixed function of tenant and event type that may fail; creating, listing and order are not modelled.
- PostgreSQL as the tenant store: the cache is proved over the in-memory store; the pass-through calls of the cache have no method of their own, and a time to live that is not positive, for which no cache is built, needs none.
- Several clocks: workers and the claim store share one clock that does not go back, and the time spent outside sends and waits is bounded by an overhead budget per claim.
- Dispatcher.EndpointDispatcher.Deliver: runs one delivery at a time, so that queueing for a slot is a flag rather than a wait, because interleavings are the subject of ConcurrentDeliveries; it takes a retry count within the list of backoffs, outside of which the source would fail.
- Dispatcher.EndpointDispatcher.Acquire: a full bulkhead or a cancelled caller is a refusal at once rather than a wait for a slot, because waiting only shows among concurrent deliveries; there, `ConcurrentDeliveries` lets a queued delivery wait.
- Progress under permanently failing dependencies: the retry loops are meant to run until cancelled; BatchGetsCommitted states progress once calls go well.
