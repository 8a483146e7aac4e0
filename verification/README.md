# Verified model of the message deduplication framework

This project models the deduplication protocol of the framework and proves what it guarantees over
whole runs: the record state machine of the two stores, the retry protocol of the three clients
(`DedupConsumer`, `@idempotent`, `IdempotencyGuard`), offset commits, and the transactional outbox.

Check it with `dafny verify dfyconfig.toml` (Dafny 4.11).

## How it is built

- **Stores.** `RedisStore.dfy` and `MemoryStore.dfy` hold one class per store. The Redis class runs the
  two Lua scripts over a keyspace whose keys have deadlines. The in-memory class mutates record objects
  held in a dictionary. Every method is proved against a function of the old contents. Time is the
  server clock in microseconds; Redis leases are cut to whole milliseconds, in-memory leases are not.
  A Redis key is readable up to and including its deadline.
- **Traces.** `StoreTrace.dfy` folds those functions over any sequence of operations on any ids.
  `Simulation.dfy`, `KeyHistory.dfy` and `Deadlines.dfy` prove laws of traces.
- **Clients.** `ClientMachine.dfy` is one machine for the three clients: where a delivery or a call
  stands, what it awaits next, and where each answer leads. `Clients.dfy` has the loops themselves. Each
  `await` goes through a `World` whose precondition is that the call is the one the machine makes next and
  whose answer is arbitrary, so the verified loops follow the machine under any interference. `Protocol.dfy` tells
  the same protocol from the log of exchanges alone, and the two agree on every log.
- **Deployments.** `Deployment.dfy` puts any number of clients over either store. One await is one step;
  processes crash, calls raise before or after they took effect, the clock moves, keys are deleted. A run is
  a list of steps and the state it reaches is a function of it. `RunsAreTraces` and `ClientsFollow` say that
  runs are traces for the store and machine logs for each client.
- **Results on runs.** `Exclusion.dfy`, `Conservation.dfy`, `Results.dfy`, `GivingUp.dfy`, `Transfer.dfy`,
  `Offsets.dfy`, `Ledger.dfy`, `ClientRuns.dfy` for any clients; `Deliveries.dfy`, `Losses.dfy`, `Serial.dfy`
  and `Repeats.dfy` for one consumer on its own, with and without crashes. They hold on both stores unless a
  row below names one.
- **Outbox.** `Outbox.dfy` has the writer and one relay as classes; `Relays.dfy` any number of relays and
  writers with overlapping transactions, `RelayHistory.dfy` what they leave; `EndToEnd.dfy` composes relays, topic and consumer.
- **Limits.** `Findings.dfy` (on the runs of `Witnesses.dfy`), `OutboxFindings.dfy` and parts of `Simulation.dfy`
  give concrete runs on which a guarantee one might expect fails; the condition that decides it is named below.

The lease contract for an id (`Exclusion.TimelyRun`) is the assumption documented for
`processing_timeout_seconds` (src/dedup/models.py:38-42): a client between a won claim of that id and its mark
is within its lease, on the clock its store reads, and on Redis within the key's TTL, and nobody deletes the
key meanwhile. Nothing is assumed of other ids.

## Where code and documentation differ

The model follows the code.

- The repository's README says an offset is committed only after the handler, so that a crash leads to a
  redelivery that is processed. It is processed exactly if no readable record blocks the claim
  (`RedeliveryHandledExactly`). A committed message has neither a success nor a drop exactly if every delivery or
  call that won it died empty-handed, raised to its caller, or is still at work, and at least one won it
  (`CommittedUnservedExactly`). Such runs: an owner died under a lease that still runs
  (`CommittedWithoutHandling`); an owner died between a mark_failed that leaves no retry and the DLQ, and the
  message is skipped as a duplicate (`LostDeadLetter`); nobody died, and a consumer skipped the message for a
  guard whose block then raised (`SkippedForAFailingGuard`). A consumer on its own loses messages only to
  deliveries that died: `UnservedExactly`, `RefusedUnservedExactly`.
- It also says that a FAILED message can be retried up to `max_retries` times. That bounds one delivery
  (`RetryArithmetic`): the local counter starts at 1 with each. Over all deliveries the handler is called at most
  once per claim won in the record's lifetime (`CallsPerLifetime`), which is any number that fits into the TTL:
  `CallsPastMaxRetries`.
- The repository's README calls COMPLETED terminal. In memory `mark_failed` has no status guard:
  `MemoryReopensCompleted`, decided by `MemoryCompletedSurvivesExactly`.
- The in-memory store's docstring says its lease matches Redis. It does outside one millisecond per lease,
  because Redis floors the clock: `StepAgreement`, reached by `ClaimSeparationIsTight`. An empty error text is stored in
  memory and not in Redis: `EmptyErrorTextDiffers`.
- The docstring of `claim` in src/dedup/store.py says the winner is the sole processor. That is so throughout a run
  exactly if no claim is granted while another client holds the id (`SoleProcessorExactly`), which the lease
  contract ensures (`TimelyIsSole`). A claim beside a holder is granted exactly if the key is missing or
  expired, its lease is over, or its record is FAILED with retries left (`OvertakenExactly`). The first two
  happen to an owner slower than its lease or key, and as marks carry no token its mark is accepted:
  `SlowOwnerRunsTwice`. The third happens when such an owner's mark_failed reopens the record of the next one;
  then both hold it with both leases running: `StaleFailureMakesRivals`.
- A message can be COMPLETED by one consumer and dead-lettered by another within the lease contract:
  `DeadLetteredThoughCompleted`. If its record is FAILED when a consumer gives up, it is never COMPLETED in that
  lifetime, and if it is COMPLETED it stays so (`GivenUpForGood`); if another client's lease runs, it is COMPLETED
  exactly if a client then marks a success (`DeadLetteredAndCompletedExactly`). One consumer on its own never
  does both, whatever crashes: `NeverDroppedAndCompleted`.
- The docstring of src/idempotency/outbox.py says Kafka dedup handles duplicate publishes. The relay puts the
  message id in the Kafka key, which the consumer does not read; what counts is the id in the payload (`DedupId`). A
  row is handled by a consumer on its own exactly if it is the first in the topic with that id
  (`PublishedRowsHaveOneOutcome`). With the
  row's own id in every payload that is once per row. A payload without an id is handled once per copy
  (`EveryCopyIsHandled`, `KeyAloneDoesNotDeduplicate`), and a row whose id an earlier payload carried is
  silently skipped (`LostToAnotherPayload`).
- The repository's README describes the claim as a single `SET NX PX`. It is a Lua script.

## Model

| member | source | states |
|---|---|---|
| RedisStore.RedisDeduplicationStore.Claim | src/dedup/redis_store.py:33-69 | the claim script wins exactly on a missing key, a retriable FAILED record or an expired lease, and writes the claimed record, keeping the TTL of an existing key |
| RedisStore.RedisDeduplicationStore.RunUpdateScript | src/dedup/redis_store.py:73-91 | the reply and the new keyspace of the update script: nothing changes unless the record is PROCESSING |
| RedisStore.RedisDeduplicationStore.MarkCompleted | src/dedup/redis_store.py:167-176 | completes a PROCESSING record, leaves anything else alone |
| RedisStore.RedisDeduplicationStore.MarkFailed | src/dedup/redis_store.py:178-186 | fails a PROCESSING record with error and attempts, leaves anything else alone |
| RedisStore.RedisDeduplicationStore.GetStatus | src/dedup/redis_store.py:188-196 | reads the record of an unexpired key and nothing else |
| RedisStore.RedisDeduplicationStore.Delete | src/dedup/redis_store.py:198-199 | removes the key and no other |
| RedisSpec.RefusalReasons | src/dedup/redis_store.py:54-61 | a claim is refused if and only if a COMPLETED record, a FAILED one out of retries, or a live lease is there |
| MemoryStore.InMemoryDeduplicationStore.Claim | src/dedup/memory_store.py:30-70 | the claim of the dictionary store; a won claim installs a fresh object and every other id keeps its object |
| MemoryStore.InMemoryDeduplicationStore.MarkCompleted | src/dedup/memory_store.py:75-86 | completes in place, guarded, and touches no other id |
| MemoryStore.InMemoryDeduplicationStore.MarkFailed | src/dedup/memory_store.py:88-98 | fails in place, in whatever state the record is, and touches no other id |
| MemoryStore.InMemoryDeduplicationStore.GetStatus | src/dedup/memory_store.py:100-101 | hands out the stored object itself |
| MemoryStore.InMemoryDeduplicationStore.Delete | src/dedup/memory_store.py:103-105 | removes the id and no other |
| StoreTrace.ReachableWellFormed | src/dedup/redis_store.py:62-67 | in every reachable keyspace only PROCESSING carries a lease, only FAILED an error, only COMPLETED a result |
| Simulation.StepAgreement | src/dedup/memory_store.py:30-98 | from equal stores one operation gives equal answers and stores if and only if it avoids the rounding gap and, for mark_failed, finds no record, a PROCESSING one with a non-empty error, or the same failure |
| Simulation.StoresAgreeExactly | src/dedup/memory_store.py:30-105 | within the TTL the two stores are indistinguishable on exactly the traces of such operations |
| Simulation.MillisecondClockHasNoGap | src/dedup/redis_store.py:41-42 | with whole-millisecond times no claim falls into the rounding gap |
| Simulation.RedisCompletedIsTerminal | src/dedup/redis_store.py:80-82 | a COMPLETED Redis record changes only by its delete, until its TTL |
| Simulation.MemoryCompletedSurvivesExactly | src/dedup/memory_store.py:88-98 | a COMPLETED in-memory record survives an operation if and only if that is not its own mark_failed or delete |
| Simulation.MemoryReopensCompleted | src/dedup/memory_store.py:94-97 | a trace after which the in-memory store lets a completed message be claimed again and Redis does not |
| Simulation.EmptyErrorTextDiffers | src/dedup/redis_store.py:86 | a claim and a mark_failed with an empty text leave different errors in the two stores |
| Deadlines.KeyLivesExactly | src/dedup/redis_store.py:41-50 | a key created by a claim at `us` and not deleted is readable exactly while the clock in whole milliseconds is at most us / 1000 + 1000 * ttl_seconds, whatever claims and marks come between |
| Deadlines.RedisLeaseBlocksExactly | src/dedup/redis_store.py:54-66 | an unmarked claim won at `us` blocks its key on Redis, within the TTL, exactly while the clock in whole milliseconds is below us / 1000 + 1000 * processing_timeout_seconds |
| Deadlines.MemLeaseBlocksExactly | src/dedup/memory_store.py:30-60 | in memory exactly while the clock is below us + 1000000 * processing_timeout_seconds |
| KeyHistory.ReachableHistory | src/dedup/redis_store.py:45-68 | in every reachable state deadline, attempts, claims, lease and failure of a record agree with the operations of its lifetime |
| KeyHistory.AttemptHistory | src/dedup/redis_store.py:63 | attempts equal the argument of the last accepted mark_failed plus the claims won since |
| KeyHistory.BoundedReclaims | src/dedup/redis_store.py:50 | the deadline is the creating claim's, and k expired-lease reclaims of one lifetime satisfy k * lease <= ttl |
| KeyHistory.ClaimSeparation | src/dedup/redis_store.py:54-66 | two consecutive won claims of one lifetime are separated by an accepted retriable mark_failed or by 1000 * lease - 999 microseconds |
| KeyHistory.ClaimSeparationIsTight | src/dedup/redis_store.py:41-42 | the bound is reached, at a time when the in-memory store still refuses the claim |
| KeyHistory.MemAttemptHistory | src/dedup/memory_store.py:48-68 | the attempt law of the in-memory store |
| RunHistory.RunLaws | src/dedup/redis_store.py:33-91 | attempt law, fixed deadline and reclaim bound in every run of any number of clients |
| Extraction.ExtractMessageId | src/consumer/dedup_consumer.py:33-58 | the first non-empty header decides, by its text or by an exception if it cannot be decoded, else the payload's id fields |
| Extraction.MessageId | src/consumer/dedup_consumer.py:33-58 | an extracted id is never empty, and only an undecodable header raises |
| Extraction.HeaderTextIsId | src/consumer/dedup_consumer.py:42-44 | the text of the first non-empty X-Message-Id header is the id, and an undecodable one raises |
| Extraction.PayloadFieldIsId | src/consumer/dedup_consumer.py:49-58 | without such a header the id is the payload's message_id, else its id, else there is none |
| ClientMachine.RetryArithmetic | src/consumer/dedup_consumer.py:195-236 | for all answers: at most max_retries handler calls, exactly backoff * n(n-1)/2 slept before attempt n, and a caught exception at hand on giving up if and only if max_retries >= 1 |
| ClientMachine.ExhaustedSleep | src/consumer/dedup_consumer.py:214-216 | a delivery that used all m attempts has slept backoff * m(m-1)/2 |
| ClientMachine.NoRerunAfterSuccess | src/consumer/dedup_consumer.py:226-253 | after a success only mark_completed and commit are called, even if mark_completed raises |
| ClientMachine.UnidentifiedDeliveryIsHandled | src/consumer/dedup_consumer.py:157-165 | a delivery without an id that ends unescaped has called the handler between 1 and max_retries times, and no store |
| ClientMachine.LoopsCoincide | src/idempotency/guard.py:151-189 | after the first claim consumer and decorator accept the same logs, so equal answers draw equal calls, and they leave the loop together |
| Protocol.MachineKeepsProtocol | src/consumer/dedup_consumer.py:154-264 | after every log the machine of each client makes exactly the call the protocol, told from the log alone, has follow, and ends with the verdict the log comes to |
| Protocol.FollowedAreLawful | src/idempotency/guard.py:64-189 | the logs a client accepts are exactly those in which each call is the one the protocol has follow |
| Protocol.CallsCarry | src/consumer/dedup_consumer.py:201-235 | mark_failed carries the last exception and the number of handler calls, the backoff as many units, mark_completed the value returned, the DLQ the last exception |
| Clients.World.Await | src/consumer/dedup_consumer.py:186-236 | the monitor: a call must be the machine's next one, and the log it grows is followed by the machine |
| Clients.DedupConsumer.Run | src/consumer/dedup_consumer.py:132-139 | delivers exactly the records up to the stop, in order, each under its own id; an exception that escapes ends it with the record that raised; else processed + duplicate + claim_lost + dlq = deliveries = commits, and handler calls + refused reclaims = processed + dlq + retries |
| Clients.DedupConsumer.ProcessRecord | src/consumer/dedup_consumer.py:154-184 | one delivery under the record's id follows the machine to an end and is counted under that outcome, a refused one also if its commit raises; an undecodable header raises before any call |
| Clients.DedupConsumer.ProcessIdentified | src/consumer/dedup_consumer.py:167-184 | the same from the claim on, for a record with an id |
| Clients.DedupConsumer.SkipDelivery | src/consumer/dedup_consumer.py:171-181 | a refused delivery is counted by what get_status found and then committed without handling |
| Clients.DedupConsumer.ExecuteAndCommit | src/consumer/dedup_consumer.py:186-236 | the retry loop follows the machine from its loop head to its end and terminates |
| Clients.DedupConsumer.FailedAttempt | src/consumer/dedup_consumer.py:201-224 | mark_failed, backoff and reclaim after a raised handler |
| Clients.DedupConsumer.DeadLetter | src/consumer/dedup_consumer.py:232-236 | giving up counts, sends and commits |
| Clients.DedupConsumer.CompleteDelivery | src/consumer/dedup_consumer.py:238-260 | an exception of mark_completed does not stop the commit |
| Clients.IdempotentCall | src/idempotency/guard.py:141-189 | a COMPLETED record ends the call and its result is returned; else the key is claimed, and a refused claim returns None; else the outcome of the loop |
| Clients.CallWithRetries | src/idempotency/guard.py:151-189 | the loop follows the machine and returns the success, raises the last exception, or lets one of the store out |
| Clients.IdempotencyGuard.Enter | src/idempotency/guard.py:64-79 | a COMPLETED record sets already_processed and previous_result to its result, without a claim; else the key is claimed, and already_processed is set exactly if that is refused, with no previous result |
| Clients.IdempotencyGuard.Exit | src/idempotency/guard.py:81-93 | exactly one mark, of the exception with attempts 1 or of the result; no store call when already processed |
| Deployment.RunsAreTraces | src/dedup/store.py:9-19 | a run of clients leaves in either store what its operations alone leave there, at nondecreasing times |
| ClientRuns.ClientsFollow | src/consumer/dedup_consumer.py:154-264 | in every run each client's exchanges are a log of the machine |
| ClientRuns.DeliveryLaws | src/consumer/dedup_consumer.py:195-253 | under any interference one delivery or call handles at most max_retries times and never after a success |
| Exclusion.SingleOwner | src/dedup/models.py:38-42 | under the lease contract for an id, on either store, with any clients, crashes and lost calls: at most one client holds it and its record is PROCESSING under that client's lease |
| Exclusion.SingleOwnerInMemory | src/dedup/memory_store.py:30-98 | the same spelled out for the in-memory store: no TTL is assumed, and the lease is the exact one |
| Exclusion.MarksAccepted | src/dedup/redis_store.py:76-90 | under the lease contract every mark a client is about to issue is accepted, on either store |
| Exclusion.MarksRecorded | src/dedup/redis_store.py:83-89 | under the lease contract a mark leaves exactly the result, or the error and attempt number, the client reports; Redis takes an empty error for none |
| Exclusion.OvertakenExactly | src/dedup/redis_store.py:54-61 | on Redis, whatever state a holder's record is in: the claim of another client makes two holders exactly if the key is missing or expired, the record FAILED with retries left, or its lease over |
| Exclusion.TwoHoldersExactly | src/dedup/store.py:20-27 | from a state with at most one holder of an id, a step makes two exactly if it is a claim granted beside a holder |
| Exclusion.SoleProcessorExactly | src/dedup/store.py:20-27 | with no timing assumption, a run has at most one holder of an id throughout exactly if no claim in it is granted beside a holder |
| Exclusion.TimelyIsSole | src/dedup/models.py:38-42 | the lease contract for an id ensures that |
| Conservation.SuccessesConserved | src/consumer/dedup_consumer.py:238-253 | with no timing assumption, on either store: handler successes = accepted completions + refused marks + lost marks + marks still to come |
| Conservation.OneCompletionPerLifetime | src/dedup/redis_store.py:76-90 | on Redis, with no timing assumption, one record lifetime accepts at most one completion |
| Conservation.CompletedIsFinal | src/dedup/redis_store.py:54-68 | on Redis, over any continuation without a delete, a COMPLETED record stays as it is and refuses claims until its TTL |
| Conservation.FinalStays | src/dedup/redis_store.py:54-68 | the same for a FAILED record that may not be retried |
| Conservation.OneSuccessUnlessMarksAreLost | src/consumer/dedup_consumer.py:168-236 | under the lease contract for an id, on either store, no mark of it is refused and its successes per lifetime are at most 1 plus the marks lost to crashes and store errors |
| Results.AllCallersSeeTheOneResult | src/idempotency/guard.py:64-93 | with get_status and claim as separate steps, on either store and whatever becomes of other ids: every value a guard, decorated call or consumer shows for an id is that of its one successful execution |
| Results.CompletedIsShown | src/idempotency/guard.py:67-74 | a guard or decorated call whose get_status finds a COMPLETED record ends with that record's result; after any other answer it goes on to its claim |
| Results.RecordedResultIsShown | src/idempotency/guard.py:141-144 | so on either store it shows the recorded result of a COMPLETED key within its TTL |
| Transfer.ClientOpsAgree | src/dedup/memory_store.py:88-98 | under single ownership a client's mark_failed finds its own PROCESSING record in memory too, so the two stores agree on it |
| Transfer.RunsCoincide | src/dedup/memory_store.py:30-105 | a run over Redis that meets the lease contract for every id, with the keys its clients use within their TTL, no claim in the rounding gap and no empty error, is step for step a run over the in-memory store |
| Transfer.OwnershipTransfers | src/dedup/memory_store.py:88-98 | on such a run a holder has the same PROCESSING record, and no rival, in memory too |
| Offsets.CommitsAreSettled | src/consumer/dedup_consumer.py:136-139 | over crashes and restarts, on either store, at most one delivery is uncommitted, and every committed offset was handled, given up after a failure, or refused by a blocking record |
| Offsets.OneCommitEach | src/consumer/dedup_consumer.py:262-264 | the commits the broker took from a consumer number its committed offset |
| Offsets.UnidentifiedIsHandled | src/consumer/dedup_consumer.py:157-165 | under any crashes and interference a committed record without an id has had its handler called at that very offset |
| Ledger.WonAreAccountedFor | src/consumer/dedup_consumer.py:168-236 | with any clients and no timing assumption: deliveries and calls that won an id = successes + drops + those that died empty-handed + those that raised to their caller + those still at work |
| Ledger.CommittedUnservedExactly | src/consumer/dedup_consumer.py:168-236 | with any clients and no timing assumption: a committed message was won, and has neither a success nor a drop exactly if all that won it are of the last three kinds |
| Ledger.UnservedAtRefusal | src/consumer/dedup_consumer.py:168-181 | the same of a message whose claim is refused, by a record that is then PROCESSING or FAILED |
| Ledger.CallsAreClaimed | src/consumer/dedup_consumer.py:195-222 | with no timing assumption: claims won for an id = handler calls + calls to come + claims that never come to one |
| Ledger.CallsPerLifetime | src/dedup/redis_store.py:54-66 | on Redis, under the lease contract: over all deliveries the handler calls in one lifetime are at most the claims won in it, one plus the expired-lease and the retried-failure reclaims, and k of the former satisfy k * lease <= ttl |
| Losses.UnservedExactly | src/consumer/dedup_consumer.py:168-236 | for one consumer on its own with any crashes and lost calls: a committed message has neither a success nor a drop exactly if its last delivery that won it died between its claim and its own success or drop and no earlier success went unmarked; the record tells where it died |
| Losses.RefusedUnservedExactly | src/consumer/dedup_consumer.py:168-181 | for one consumer on its own: such a message comes to its commit exactly by a claim refused by the record of an earlier delivery that died empty-handed, PROCESSING under its lease or FAILED with no retries left |
| Losses.LostMarkLeaves | src/consumer/dedup_consumer.py:238-253 | a mark_completed lost before it took effect leaves the offset to be committed, a success and a PROCESSING record |
| Losses.NeverDroppedAndCompleted | src/consumer/dedup_consumer.py:218-236 | for one consumer on its own with any crashes and lost calls: a message is dropped at most once, and a dropped one is FAILED with no retries left, never COMPLETED |
| Serial.ExactlyOneOutcome | src/consumer/dedup_consumer.py:154-264 | for any deliveries through one consumer on either store, lost replies of mark_completed included, each id ends COMPLETED with one success and no drop, or FAILED with one drop and no success, within max_retries handler calls |
| Serial.AllFit | src/consumer/dedup_consumer.py:198-224 | at the loop head the record is PROCESSING and its attempts equal the local counter |
| Serial.ReclaimRefusedOnlyWhenRetryOff | src/consumer/dedup_consumer.py:218-222 | without interference a reclaim is refused exactly when retry_failed is off |
| Repeats.HandledExactlyIfFirst | src/consumer/dedup_consumer.py:154-184 | for one consumer on its own without crashes, a delivered record calls its handler exactly if no earlier record of the log has its id; all calls and the one outcome of the id are those of that first record |
| Outbox.Database.Write | src/idempotency/outbox.py:80-93 | a new message id adds one PENDING row, a known one changes nothing, ids stay distinct |
| Outbox.OutboxRelay.ProcessBatch | src/idempotency/outbox.py:167-198 | a committed batch settles exactly its rows and sends each once in order, PUBLISHED rows being at the broker and all being PUBLISHED exactly if nothing raised; one that raises in its fetch, a mark or its commit leaves only its sends, unless the commit had taken effect |
| Outbox.OutboxRelay.DeliverAll | src/idempotency/outbox.py:171-197 | the rows of a batch are settled one by one, in order, up to the first whose mark of FAILED raises |
| Outbox.OutboxRelay.Deliver | src/idempotency/outbox.py:172-197 | one row is sent and then marked PUBLISHED, or FAILED exactly after an exception, or the transaction ends |
| Outbox.OutboxRelay.Loop | src/idempotency/outbox.py:157-165 | nothing but `stop` ends the loop, and it sleeps after exactly the rounds that raise or publish nothing; N PENDING rows are reduced by the batch size per committed batch, counts are conserved, returned counts sum to the newly PUBLISHED but for commits whose reply was lost, sends increase when nothing rolls back |
| Outbox.DrainedExactly | src/idempotency/outbox.py:116-123 | nothing is PENDING exactly from batch ceil(N/B) on |
| OutboxTable.Fetch | src/idempotency/outbox.py:116-123 | the batch query returns increasing, free, PENDING rows up to the limit |
| OutboxTable.FetchTakesLowest | src/idempotency/outbox.py:120-121 | a free row is left out only behind a full batch of lower rows |
| OutboxTable.FetchSize | src/idempotency/outbox.py:121 | without locks a batch takes as many PENDING rows as there are, up to the limit |
| OutboxTable.EveryRowCounted | scripts/init_db.sql:38 | PENDING + PUBLISHED + FAILED equals the rows |
| OutboxTable.RowsAreIds | scripts/init_db.sql:43-44 | the rows number the distinct message ids written |
| Relays.OutboxStaysGood | src/idempotency/outbox.py:116-133 | over any interleaving, crashes and rollbacks: rows of open transactions are disjoint and PENDING, PUBLISHED rows were sent, only committed rows were sent |
| Relays.LeavesPendingOnce | src/idempotency/outbox.py:125-133 | a row's committed status leaves PENDING at most once and never returns |
| Relays.SendsBounded | src/idempotency/outbox.py:167-198 | a row is sent at most once more than the batches holding it were rolled back |
| Relays.IdsStayUnique | scripts/init_db.sql:43-44 | message ids stay distinct over committed rows and open writer transactions |
| RelayHistory.RowsAreCommittedInserts | src/idempotency/outbox.py:80-93 | over any interleaving the table holds exactly the committed inserts, in order |
| RelayHistory.LeftPendingByOneBatch | src/idempotency/outbox.py:125-133 | a row has left PENDING exactly if one committed batch held it, and no second one ever does |
| RelayHistory.CopiesAreStoredSends | src/idempotency/outbox.py:176-180 | the copies of a row in the topic are its stored sends, told to the relay or not |
| RelayHistory.RollbackFreesRows | src/idempotency/outbox.py:168 | a rolled-back batch leaves its sends and nothing else, and its rows are free again |
| EndToEnd.PublishedRowsHaveOneOutcome | src/idempotency/outbox.py:167-198 | for any rollbacks and re-sends, once a consumer on its own has drained the topic: the id a PUBLISHED row is deduplicated under has exactly one outcome, and all its handler calls are made for copies of the row if the row is the first in the topic with that id, as when no other payload carries it, else none is |
| EndToEnd.OwnIdsAreSole | src/idempotency/outbox.py:80-84 | if every payload carries its own row's message id or none, no two rows are deduplicated under one id |
| EndToEnd.DedupId | src/idempotency/outbox.py:174-179 | the id a sent row is deduplicated under is its own exactly if its payload carries it, and none exactly if the payload has no id |
| EndToEnd.EveryCopyIsHandled | src/idempotency/outbox.py:13 | a row whose payload has no id is handled at least once per copy in the topic, under any crashes and interference |
| OutboxFindings.KeyAloneDoesNotDeduplicate | src/idempotency/outbox.py:173-179 | a run in which a rolled-back batch sends such a row twice under its key and the consumer handles both |
| OutboxFindings.LostToAnotherPayload | src/consumer/dedup_consumer.py:50-54 | a run without crash or loss in which a PUBLISHED row whose payload carries its own id is never handled, because an earlier row's payload carried that id too |
| Findings.RedeliveryHandledExactly | src/consumer/dedup_consumer.py:168-181 | in every run on either store, a consumer's claim leads to the handler exactly if no readable record blocks it: COMPLETED, FAILED with no retries left, or PROCESSING under a live lease; else the record is skipped |
| Findings.CommittedWithoutHandling | src/consumer/dedup_consumer.py:174-181 | a run within the lease contract that commits an offset nobody handled |
| Findings.LostDeadLetter | src/consumer/dedup_consumer.py:205-236 | a run within the lease contract that commits a message which failed its one attempt and was never dead-lettered |
| Findings.SkippedForAFailingGuard | src/consumer/dedup_consumer.py:174-181 | a run within the lease contract, without crash or loss, that commits a message for a guard whose block then raises |
| Findings.CallsPastMaxRetries | src/consumer/dedup_consumer.py:195 | for any n a run within the lease contract with n + 1 handler calls of one message, if n leases fit into the TTL |
| Findings.SlowOwnerRunsTwice | src/dedup/redis_store.py:80-90 | a run in which an owner outlasts its lease, two handlers succeed, and the stale result is kept |
| Findings.StaleFailureMakesRivals | src/dedup/redis_store.py:57-66 | a run in which a stale mark_failed reopens the record and its client reclaims it beside the present owner: two holders, both within their leases and the TTL |
| Findings.DeadLetteredThoughCompleted | src/consumer/dedup_consumer.py:218-236 | a run within the lease contract in which one message is completed and dead-lettered |
| GivingUp.GivesUpOnOthersRecordExactly | src/consumer/dedup_consumer.py:218-222 | a refused reclaim gives up on a record that is not FAILED exactly if it is COMPLETED or under a live lease |
| GivingUp.GivenUpForGood | src/consumer/dedup_consumer.py:218-236 | under the lease contract, on either store: a message given up while its record is FAILED, as after the last attempt, is never COMPLETED in that lifetime, and one given up while COMPLETED stays so |
| GivingUp.DeadLetteredAndCompletedExactly | src/consumer/dedup_consumer.py:218-236 | under the lease contract, on either store: a message given up is COMPLETED later in that lifetime exactly if a reclaim was refused by a COMPLETED record, or by a live lease under which a completion is then accepted, that is, while the contract goes on, a client whose handler returned marks it and the mark is not lost |

## Left out

- Conservation.OneCompletionPerLifetime: stated for the Redis store; in memory it fails with the unguarded mark_failed, as `Simulation.MemoryReopensCompleted` shows.
- Kafka, Redis and Postgres clients, connections and their failure modes: an offset log, an atomic keyspace and a transactional table whose calls may raise before or after taking effect.
- Consumer groups and rebalancing: every consumer keeps its partition log.
- End to end, one topic read by one consumer is modelled; several partitions would interleave the same records.
- JSON, ISO timestamps, `created_at` and `updated_at`: results and errors are opaque, a payload is reduced to its two id fields, a falsy field reads as empty.
- In deployments no record has an undecodable header: it raises out of the consumer before any await, at every delivery.
- Calls name no id and the handler no payload: each is made for the open delivery or call, whose id is kept beside the log.
- A mark_completed that fails to serialise its result is the case of a call that raises without taking effect.
- Cancellation of a task is a crash of its client.
- `max_retries` is a natural number; a negative one behaves as 0. `ttl_seconds` of 0, which Redis rejects, is not excluded and reads as a key living for one millisecond.
- `is_duplicate`, `size`, `clear`, `is_terminal`, `is_failed` and the status `SKIPPED`, which nothing writes: they would add only easy members.
- Ids of the outbox are handed out in commit order; gaps and out-of-order commits of the sequence are the database's.
- Prometheus objects, logging, FastAPI, settings and deployment files: only the consumer's counters are kept.
