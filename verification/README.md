# Delivery, rate limiting, audit and cache protocols of the notification system

A Dafny model of the concurrent core of the event-driven notification system, with proofs over
every run, every input or every interleaving. `dafny verify dfyconfig.toml` checks all of it.

**Delivery.** `Delivery.dfy` is one notification as a transition system: its Postgres row
(`Notifications.dfy`, one function per UPDATE, the `sent_at` CHECK included), its scheduler row and
outbox rows, the broker's copies of its message, the Redis in-flight lock, and every process at work
on it. One step is one SQL statement or transaction, one Redis command, one publish, one broker
event, or the passing of time. Processes crash between any two steps, replies get lost, a publish is
confirmed, fails, or fails although the broker kept the message; replay is split into its read and
its UPDATE, as in the code. `Carriers`, `Exclusion`, `Accounting`, `Redelivery`, `StatusGraph`,
`OutboxTruth` and `SchedulerOnce` prove what every run keeps; `Stranding` and `Limits` give the runs
that show each side condition is needed. `Processes.dfy` is the code in its own form, as methods
over shared state with arbitrary steps of everybody else in between, proved to be runs of that
system. `Broker.dfy` is the AMQP topology at the level of names and bindings.

**Rate limiting.** `TokenBucket.dfy` (the Lua script, as a function and in place), `Fleet.dfy` (any
number of reservoirs over one bucket), `SharedTake.dfy` (Take among other workers) and `Throttle.dfy`
(the worker's gate loop).

**The rest.** `AuditChain.dfy` (insert trigger and verifying query), `Pagination.dfy` (keyset walks
over a changing table), `Idempotency.dfy` (Redis slots and the unique index), `AuthCache.dfy`
(verified-key cache and revocation marker).

**What became a parameter.** Clock readings, crashes, lost replies, publish outcomes, the provider's
and the breaker's answers, lock and claim expiry, and client disconnects are chosen freely by the run
(in `Processes`, by a function from rounds to answers). Times are whole milliseconds. Token
arithmetic is over exact reals. SHA-256 is an injective digest of (previous hash, canonical text)
that never equals the genesis value; argon2 and the body hash are opaque. Channel names and owner ids
are texts without the separators `.` and `:`.

**Where code and documentation disagree** the model follows the code:

- ADR-0014 (docs/adr/0014-dlq-replay-reset-in-place.md:26-28) gives replay's UPDATE a status guard;
  the code (internal/api/admin.go:137-142) has none. `StatusGraph.SentIsFinal` needs the guard,
  `Limits.LateReplayReopensSent` shows the run without it.
- ADR-0022 (docs/adr/0022-rate-limit-reservoir-and-throttle-loop.md:104-112) adds a clock-skew term
  to its burst bound; `TokenBucket.SkewHasNoAdditiveBound` shows that no additive term is a bound,
  and `TokenBucket.GrantedWithinJumps` gives the true one.
- The query's comment calls any non-zero `broken_links` evidence of tampering
  (internal/store/queries/admin_audit.sql:20-22); `AuditChain.HonestBreaksCounted` says which honest
  inserts it also counts.
- ADR-0006 promises the stored response for 24 hours; `Idempotency.ResponseKeptExactly` says which
  steps take it away, `Idempotency.DisconnectForfeitsReplay` shows one before that time.
- The comment on the redelivery guard names the header x-attempts; the code reads x-redeliveries
  (internal/worker/pipeline.go:139-147).
- The lock comment says the other worker will deliver (internal/worker/pipeline.go:283);
  `Carriers.CarrierLostExactly` says when that is true.

The constraint tying `scheduled_at` to early statuses is dropped by migration 0010 and is not part of
the model.

## Model

| member | source | states |
|---|---|---|
| Carriers.CarrierLostExactly | internal/worker/pipeline.go:263-483 | A step of any process leaves every waiting notification with a carrier (an outbox row still owed, a message in a channel or wait queue, a delivery whose handler has settled neither on acking nor on dead-lettering it; for a scheduled one its scheduler row) if and only if it is not one of five: a lock-held revert, the redelivery cap, or a terminal fault with a lost write while nobody else carries; a revert by a handler that has lost its delivery; a terminal outbox failure whose dead-letter write was lost. A message in the dead-letter queue carries nothing. |
| Carriers.NoStrandedWork | internal/worker/pipeline.go:276-289 | In every run in which each worker that defers to the lock defers to a running holder that has not settled what becomes of its delivery, no message of a waiting notification reaches the redelivery cap, no broker connection breaks and no terminal write is lost, waiting work is always carried: crashes, duplicate and dropped publishes, lost statements, cancels and replays included. |
| Carriers.CarriedThroughoutExactly | internal/outbox/dispatcher.go:154-204 | With no condition at all on the run: work is carried at every point exactly when no step of the run is one of those five. |
| Carriers.LockRevertCarries | internal/worker/pipeline.go:282-288 | The lock-held branch keeps the notification carried exactly when somebody else carries it. |
| Carriers.CapCarries | internal/worker/pipeline.go:146-157 | The redelivery cap keeps the notification carried exactly when it does not wait or somebody else carries it. |
| Carriers.GiveUpCarries | internal/worker/pipeline.go:429-445 | A terminal fault keeps it carried exactly when its dead-letter write landed, it does not wait, or somebody else carries it. |
| Carriers.DeadLetterCarries | internal/outbox/dispatcher.go:175-204 | Giving up on an outbox row keeps the notification carried exactly when the dead-letter write landed or something else carries it. |
| Carriers.MessageCarries | internal/queue/consumer.go:176-190 | Settling a delivery as decided, wait-tier publishes with any outcome, crashes and lost connections never take the last carrier. |
| Carriers.DispatchCarries | internal/outbox/dispatcher.go:123-173 | Neither does any other dispatcher step, a crash between publish and mark included. |
| Carriers.FreshRowCarries | internal/sweeper/sending.go:84-123 | A sweep or replay requeues the row together with an outbox row that is still owed. |
| Carriers.DueCarries | internal/scheduler/dispatcher.go:116-156 | So does the scheduler's transaction, and losing it loses nothing. |
| Carriers.AllHoldStep | internal/queue/consumer.go:157-193 | While no connection breaks, every running handler keeps the delivery it was started for. |
| Stranding.CrashedHolderStrands | internal/worker/pipeline.go:282-288 | A run from creation: the holder crashes after its revert, the next delivery defers to the dead holder's lock, and the row is queued with nobody to carry it. |
| Stranding.SwallowedDelStrands | internal/worker/pipeline.go:289 | The same end when the deferred DEL fails and its error is dropped. |
| Stranding.RoutedHolderStrands | internal/worker/pipeline.go:276-289 | A live holder that has already published its retry copy is no carrier: the copy's own delivery defers to it and strands the row. |
| Stranding.LostConnectionStrands | internal/queue/consumer.go:157-193 | A handler whose connection broke reverts a row whose message another worker has meanwhile dropped. |
| Stranding.CapStrands | internal/worker/pipeline.go:146-157 | A message whose pickup fails twenty times is dead-lettered by the cap while its row stays queued: no replay, sweep or delivery ever takes it up again. |
| Stranding.AbandonedForever | internal/store/queries/notifications.sql:117-124 | From such an end, messages left in the dead-letter queue or not, no run whatever attempts the notification again: it stays queued until somebody cancels it, because replay wants dead_letter and the sweeper sending. |
| Stranding.DeferringAbandons | internal/worker/pipeline.go:282-288 | Whoever picks up the only message under a lock nobody is left to release abandons the notification. |
| Exclusion.ProviderCallsExclude | internal/worker/pipeline.go:124-162 | In every run in which no DEL takes effect under another handler that relies on the lock, two provider calls for one notification are never in progress together, even if sweeps, replays or duplicate publishes requeue the row meanwhile. |
| Exclusion.DelRemovesOwnLock | internal/worker/pipeline.go:276-289 | In such runs a handler younger than the lock TTL finds the lock there, live and its own when it runs its unconditional DEL. |
| Exclusion.SweepSparesOwners | internal/sweeper/sending.go:27-39 | In every run at all, a handler whose row a sweep reclaims has been running for more than 300 s, ten times its deadline, and is not in a provider call. |
| Exclusion.LockLostExactly | internal/worker/pipeline.go:277-289 | A step leaves each handler between its SETNX and its DEL, and younger than the TTL, the owner of an unexpired lock if and only if it is not a DEL that takes effect under such a handler. |
| Exclusion.GuardedThroughoutExactly | internal/worker/pipeline.go:277-289 | With no condition on the run: the lock protects its handlers at every point exactly when no step of the run is such a DEL. |
| Exclusion.TimelyCallsExclude | internal/worker/pipeline.go:124-289 | In particular exclusion holds if every DEL comes within 60 s of its handler's start, twice the deadline of everything else it does. |
| Limits.LateDelOverlaps | internal/worker/pipeline.go:289 | It does happen: a run in which a stalled handler's late DEL removes its successor's lock and two provider calls overlap. |
| Accounting.AttemptCount | internal/store/queries/notifications.sql:87-124 | In every run attempt_count equals the effective retry reverts, MarkSent-failure reverts and sweeps since creation or the last replay; breaker and throttle bounces do not show. |
| Accounting.RetryLadder | internal/worker/pipeline.go:396-445 | At most 9 retried faults find their row as picked up; with no displaced owner at most 9 faults are retried, and while only retries raised the counter they wait in 5s, 30s, then 5m. |
| Accounting.FaultDecision | internal/worker/pipeline.go:412-445 | In every run a handler whose row is as it picked it up may retry a fault exactly if the fault is retryable and fewer than 9 reverts and sweeps have raised the counter; otherwise, so after 9 retries, it gives up and its write takes every row but a sent one to dead_letter. |
| Accounting.SuccessesBalance | internal/worker/pipeline.go:448-482 | Every provider success is exactly one of: an effective MarkSent, a handler about to run it, a MarkSent that changed nothing, a crash in between; effective MarkSents are at most 1 plus the replays, and a sent row had a success. |
| Redelivery.RedeliveryTerminates | internal/worker/pipeline.go:146-157 | Over every run a message and all it was copied from are handed to workers at most 210 times, plus 21 per unproductive bounce and 189 per replay, although tier routing resets x-redeliveries. |
| Redelivery.CopyRanksLower | internal/worker/pipeline.go:553-576 | Without replays, the copy a handler leaves ranks strictly lower in (attempts left, redeliveries left) than the delivery that produced it if and only if it is a requeue or attempt_count has risen below its cap since the handler read it; a retry that paid has raised it. |
| Redelivery.ReHandlingDescends | internal/worker/pipeline.go:179-238 | In every run without replays: from the delivery of a message to the delivery of the copy its handler left, (attempts left, redeliveries left) strictly falls if and only if the copy is a requeue or fewer attempts are left than before; so after failed pickups, paid retries, and displaced ones whose row was raised. |
| Redelivery.WithinLocal | internal/worker/pipeline.go:396-445 | A handler's own steps keep every message and handler within that budget. |
| Redelivery.WithinRequeue | internal/worker/pipeline.go:218-238 | Requeueing through the 5s tier keeps it, whatever the publish outcome. |
| Redelivery.WithinRoute | internal/worker/pipeline.go:553-576 | Routing to a retry tier keeps it. |
| StatusGraph.StatusEdges | internal/store/queries/notifications.sql:34-124 | Every status change in the system is one of the listed edges; only MarkSent enters sent; a sent row is left untouched by a step if and only if it is not a replay's UPDATE (the CHECK refuses the unguarded MarkDeadLetter), a cancelled one if and only if it is neither that nor a MarkDeadLetter that takes effect. |
| StatusGraph.SentIsFinal | internal/store/migrations/0001_init.up.sql:47-49 | Once sent, a row is never written again in any run whose replay UPDATEs still find the row dead-lettered. |
| StatusGraph.SentThroughoutExactly | internal/api/admin.go:137-142 | As the code is, a sent row stays as it is throughout a run exactly when no replay's UPDATE occurs in it. |
| StatusGraph.CancelledThroughoutExactly | internal/store/queries/notifications.sql:81-85 | A cancelled row stays as it is throughout a run exactly when neither a replay's UPDATE nor an effective MarkDeadLetter occurs in it. |
| StatusGraph.CancelHolds | internal/store/queries/notifications.sql:34-67 | After a cancel and until a replay, every pickup CAS finds no row. |
| Limits.LateReplayReopensSent | internal/api/admin.go:122-145 | Without the guard of ADR-0014: a run in which the second of two replays turns a sent row back to pending. |
| Limits.CancelledBecomesDeadLetter | internal/store/queries/notifications.sql:81-85 | A run in which the unguarded MarkDeadLetter dead-letters a cancelled notification. |
| OutboxTruth.PublishedIsTruthful | internal/outbox/dispatcher.go:123-214 | With any dispatchers, expired claims, ambiguous confirms and crashes: a row has published_at only if the broker confirmed a publish of it, or at least 10 failed and its notification was dead-lettered or already sent, or that dead-letter write was lost. |
| OutboxTruth.HonestDispatch | internal/store/queries/outbox.sql:9-31 | Every dispatcher step keeps the attempts column plus the failures not yet recorded at or below the failed publishes, so ten attempts mean ten failures. |
| Limits.LostDeadLetterStrands | internal/outbox/dispatcher.go:184-204 | The third case happens: a run that ends with published_at set, no confirmed publish, and a pending row nobody carries. |
| SchedulerOnce.ScheduledOnce | internal/scheduler/dispatcher.go:96-158 | With any number of schedulers, expired claims and lost transactions, the scheduler writes at most one outbox row per notification, never before due_at, and a scheduler row exists only while the status is scheduled or cancelled. |
| SchedulerOnce.CancelledNeverFires | internal/store/queries/scheduled.sql:6-38 | If it was cancelled first, it writes none, whatever follows. |
| Processes.System.Handle | internal/worker/pipeline.go:133-195 | Handle with the consumer's ack policy, any answers from outside and any steps of others in between, a broken connection included: a run of the protocol that ends by settling the delivery, with at most one provider call, whose success is followed by MarkSent. |
| Processes.System.Inner | internal/worker/pipeline.go:247-289 | handle: pickup, lock, attempt and deferred DEL stay within the protocol and end outside the locked phases. |
| Processes.System.Attempt | internal/worker/pipeline.go:291-385 | Gate, breaker and provider call always reach the deferred DEL. |
| Processes.System.CallProviderOnce | internal/worker/pipeline.go:358-396 | A request past the deadline or refused on the way, and a fault, go on to retry or give up; a success goes on to MarkSent; in each case with the exit that belongs to it. |
| Processes.System.RetryOrGiveUp | internal/worker/pipeline.go:396-445 | Revert and route in the tier of the attempt that failed exactly if the fault is retryable and the budget allows, acked only if the broker confirmed the copy; otherwise MarkDeadLetter and a terminal exit. |
| Processes.System.RecordSuccess | internal/worker/pipeline.go:448-482 | Acked exactly if MarkSent answered and found the row sending, which is then sent; otherwise reverted and returned as an error. |
| Processes.System.RouteToRetryTier | internal/worker/pipeline.go:553-576 | A fresh copy without x-redeliveries waits in the chosen tier for its time unless the publish failed for good; nil is returned only if the broker confirmed it. |
| Processes.System.RequeueViaWaitTier | internal/worker/pipeline.go:179-238 | The infra-transient bounce: a fresh copy waits in the 5s tier with x-redeliveries one higher unless the publish failed for good; acked if confirmed, nacked otherwise. |
| Processes.System.PublishRow | internal/outbox/dispatcher.go:123-214 | publishRow with markFailure, others interleaving: one publish of a fresh message; a confirmed row is marked, and its notification queued exactly if the mark was answered; a failure is recorded below 10 attempts, and otherwise dead-letters the notification and closes the row. |
| Processes.SweepTick | internal/sweeper/sending.go:76-128 | One transaction: every stuck row is requeued with its own fresh outbox row or nothing changes, other rows are untouched, and a second sweep at that time finds nothing. |
| Processes.WorkerWaits | internal/worker/pipeline.go:247-483 | No run of everybody else changes a handler's own progress. |
| Processes.DispatcherWaits | internal/outbox/dispatcher.go:85-106 | No run of everybody else changes a dispatcher's own progress or removes its row. |
| Broker.AmqpBroker.DeclareTopology | internal/queue/topology.go:73-158 | The declaring loops leave exactly the listed queue arguments and bindings, in whatever order the channels come, on top of what was there. |
| Broker.AmqpBroker.DeclareTiers | internal/queue/topology.go:125-154 | The inner loop adds one queue and one binding per tier and nothing else. |
| Broker.BounceReturnsHome | internal/queue/topology.go:133-165 | A retry copy lands in exactly one queue, that of its channel and tier, waits 5s, 30s or 5m by attempt, and then reaches exactly its own channel's queue. |
| Broker.RejectionIsKept | internal/queue/topology.go:97-118 | What a channel's queue rejects reaches exactly that channel's dead-letter queue. |
| Broker.WaitKeyReaches | internal/queue/topology.go:160-165 | No other binding matches a wait-tier key. |
| Broker.MainKeyReaches | internal/queue/topology.go:36-39 | No other binding matches a channel's key. |
| TokenBucket.RedisBucket.AllowN | internal/ratelimit/lua.go:49-134 | The in-place script refuses non-positive arguments without touching the hash and otherwise refines the script's function of the stored hash, missing key included. |
| TokenBucket.GrantedWithinJumps | internal/ratelimit/lua.go:49-64 | For any caller readings, forwards or backwards, the tokens granted are at most capacity plus rate times the upward jumps between consecutive readings. |
| TokenBucket.JumpsOfMonotone | internal/ratelimit/lua.go:49-51 | For clocks that never run back those jumps are the elapsed time. |
| TokenBucket.SkewHasNoAdditiveBound | docs/adr/0022-rate-limit-reservoir-and-throttle-loop.md:104-112 | For every amount there are calls with readings within one second whose grants exceed capacity, one second's refill and that amount. |
| TokenBucket.RetryAfterIsExact | internal/ratelimit/lua.go:55-65 | For a take up to the capacity, waiting retry_after_ms undisturbed suffices and one millisecond less does not. |
| TokenBucket.OversizedRefused | internal/ratelimit/lua.go:55-65 | Above the capacity no wait ever suffices. |
| TokenBucket.SingleRetryShort | internal/ratelimit/lua.go:59-65 | At 100 per second a refused single token is 1 to 10 ms away. |
| TokenBucket.RefusalsCanBeDropped | internal/ratelimit/lua.go:49-64 | Under clocks that never run back, refused calls can be removed from a history without changing what the others are granted. |
| TokenBucket.ExpiryChangesNoGrant | internal/ratelimit/lua.go:66-67 | If capacity is at most 60 times rate, expiry of the key after 60 idle seconds changes no later decision. |
| TokenBucket.ExpiryHarmlessExactly | internal/ratelimit/lua.go:66-67 | No hash and no calls tell an expired key from a kept one if and only if capacity is at most 60 times rate. |
| Fleet.FleetRateBound | internal/ratelimit/reservoir.go:91-136 | However the workers of any number of replicas interleave, with readings that never go back, the Takes allowed in a window of T ms number at most capacity + rate·T/1000 + the sum over replicas of workers·(BatchSize−1), whatever happened before. |
| Fleet.TakesWithinClimb | internal/ratelimit/reservoir.go:91-136 | The same for arbitrary readings, with the climb of the readings in place of T. |
| Fleet.TakesAreCharged | internal/ratelimit/reservoir.go:100-118 | Conservation: no Take is allowed that the bucket was not charged for, now or earlier. |
| Fleet.PoolFitsKept | internal/ratelimit/reservoir.go:91-136 | Every step of a reservoir keeps local credit plus refills under way within workers·(BatchSize−1). |
| Fleet.LocalReservoir.Take | internal/ratelimit/reservoir.go:91-136 | An undisturbed Take is one of the fleet's runs, is allowed exactly when that run allows a Take, conserves tokens, and on refusal returns the fallback's wait. |
| SharedTake.Worker.Take | internal/ratelimit/reservoir.go:91-136 | Take with the mutex released across its network calls and anybody else's events in between, fellow workers' refills and credits, lost calls and answers included: what it adds to the fleet's run are its own events of its pool, one of the ways through the code, each in the state it found, the others' turns between them, and nothing else. |
| SharedTake.TakeBalances | internal/ratelimit/reservoir.go:91-136 | Such a Take returns Allowed exactly when one of its events lets a Take through, never two; a refusal is charged nothing, a fallback one token, a refill one batch. |
| SharedTake.TakeFreesPlace | internal/ratelimit/reservoir.go:91-136 | From any state the invariant holds in, a finished Take, failed ones included, leaves the invariant and room for the worker's next Take. |
| Throttle.PassGate | internal/worker/pipeline.go:291-352 | Among a fleet that acts as it likes before, during and between its Takes, the gate loop sleeps less than 5005 ms in all, between any two Takes as long as the first was told, never takes the branch for waits over a second, routes to the retry tier only when the next wait would exceed the budget, and passes or fails exactly as its last Take does. |
| Throttle.RefusedTakeIsShort | internal/ratelimit/reservoir.go:121-135 | Whatever others do before, during and between its calls, a refused Take at the configured limits names a wait of 1 to 10 ms. |
| AuditChain.EditsCounted | internal/store/queries/admin_audit.sql:23-47 | Editing content columns of an intact chain, ids apart, yields broken_links equal to the number of rows whose canonical text changed. |
| AuditChain.DeletionsCounted | internal/store/queries/admin_audit.sql:25-47 | Deleting any rows of an intact chain yields the number of survivors, the first apart, whose original predecessor was deleted. |
| AuditChain.DeletionUnseenExactly | internal/store/queries/admin_audit.sql:43-47 | So a deletion goes unseen if and only if the survivors are one contiguous stretch. |
| AuditChain.HonestBreaksCounted | internal/store/migrations/0012_audit_chain_content_verify.up.sql:55-80 | After any honest concurrent inserts broken_links equals the number of rows whose immediate predecessor by id was inserted after them. |
| AuditChain.HonestIntactExactly | internal/store/migrations/0004_admin_audit.up.sql:4 | It is zero if and only if the inserts got the lock in the order of their ids. |
| AuditChain.InsertsHonest | internal/store/migrations/0012_audit_chain_content_verify.up.sql:60-80 | Every insert order yields rows whose content matches their hash and whose link holds exactly when the predecessor came first. |
| AuditChain.CanonicalTellsIds | internal/store/migrations/0014_audit_canonical_id_type.up.sql:21-37 | Different rows never share a canonical text, whatever separators their columns contain. |
| AuditChain.EditUnseenExactly | internal/store/migrations/0014_audit_canonical_id_type.up.sql:21-37 | For columns without the separator, details excepted, two contents have the same canonical text if and only if they agree up to NULL against the empty text and, for details, NULL against the empty object. |
| Pagination.ListHandler | internal/api/notifications_list.go:65-206 | Limit parsing, row loop and lookahead slice return the page of the unlimited query for the effective limit, and reject limits below 1. |
| Pagination.Fetch | internal/api/notifications_list.go:171-191 | The row loop collects exactly the first rows of the filtered, cursor-bounded list. |
| Pagination.WalkNeverRepeats | internal/api/notifications_list.go:151-156 | Whatever happens to the table between pages, keys strictly descend across the whole walk. |
| Pagination.WalkReturnsOnce | internal/api/notifications_list.go:193-202 | A finished walk returns exactly once every row present and matching on every page, tied timestamps included. |
| Pagination.WalkMissesNothing | internal/api/notifications_list.go:151-202 | From any cursor, it misses no such row below it. |
| Pagination.WalkOfFixedTable | internal/api/notifications_list.go:69-80 | On a table that stays put, with any page sizes, a finished walk is the whole filtered list and enough pages finish it. |
| Pagination.CursorContinues | internal/api/notifications_list.go:151-156 | The cursor at the n-th row yields exactly the rows after it. |
| Idempotency.AnswersAgree | internal/api/notifications.go:173-243 | In every interleaving, with in-flight expiry, unconditional SET and DEL, lost replies, crashes and disconnects, all 201 answers for one key come from one committed notification, one owner and one request body, and carry the same body up to the first answer's newline. |
| Idempotency.AgreedStep | internal/store/migrations/0001_init.up.sql:55-58 | Every step keeps each finished slot, committed request and answer backed by the row the unique index holds, and never changes such a row. |
| Idempotency.SlotsSeparate | internal/idempotency/idempotency.go:124-129 | Slots of different owners or keys are different. |
| Idempotency.LegacySlotCollides | internal/idempotency/idempotency.go:124-129 | Without an owner that fails: the legacy format can name an owner's slot. |
| Idempotency.Store.BeginOrReplay | internal/idempotency/idempotency.go:145-185 | Undisturbed, it is the machine's SETNX, followed by its GET if the slot was taken: it owns the slot exactly when that run does, replays exactly the answer that run gives, and leaves its slots. |
| Idempotency.Store.Finalize | internal/idempotency/idempotency.go:190-197 | The machine's SET; afterwards the same body replays the stored response and every other body conflicts. |
| Idempotency.Store.Release | internal/idempotency/idempotency.go:201-203 | The machine's DEL; afterwards anybody can claim, whoever the slot belonged to. |
| Idempotency.ResponseKeptExactly | internal/api/notifications.go:173-243 | A stored response survives a step to the letter if and only if the step is not its expiry, the deferred release of a disconnected request on its slot, or the release of a failed one. |
| Idempotency.ResponseKeptThroughoutExactly | docs/adr/0006-idempotency-key-header.md:22-28 | Over whole runs it is there throughout exactly when none of those occurs. |
| Idempotency.RetryAnsweredExactly | internal/idempotency/idempotency.go:152-184 | In every run, a request whose key already has a notification is answered 201 if and only if its GET, sent when its SETNX found the slot taken, finds a finished response to the same body. |
| Idempotency.RetryReplays | internal/idempotency/idempotency.go:145-185 | A retry that arrives while the response is stored is answered with it verbatim, whatever others do between its SETNX and its GET short of forfeiting the slot. |
| Idempotency.DisconnectForfeitsReplay | internal/api/notifications.go:204-209 | It does happen, for every owner, key and body: a disconnect after the answer deletes the finished slot and the identical retry fails on the unique index. |
| AuthCache.RevocationHoldsExactly | internal/api/auth.go:136-189 | No request that starts after the revocation marker is set is ever let in by a cache hit if and only if storing after the Postgres read and checking the marker after a hit together take at most 240 s. |
| AuthCache.SoundStep | internal/api/auth_cache.go:39-91 | Every step within that pace keeps each entry and hit bounded by a Postgres read from before the revocation, the marker in place for 300 s, and every late request out of the cached path. |
| AuthCache.LatePaceLeaks | internal/api/auth_cache.go:153-173 | For every slower pace, a run that lets such a request in. |

## Left out

- Several notifications at once: each is a machine of its own; they share only the rate limiter, which is modelled separately.
- Exclusion.ProviderCallsExclude: assumes no DEL takes effect under another handler that relies on the lock, because the code bounds and guards no DEL; `Limits.LateDelOverlaps` shows it is needed.
- Carriers.NoStrandedWork: assumes careful runs; `Carriers.CarriedThroughoutExactly` is the statement without assumptions.
- OutboxTruth.PublishedIsTruthful: admits a lost dead-letter write as a third case, which the code allows.
- Fleet.LocalReservoir.Take: one worker alone, in place on the script's own fields; `SharedTake.Worker.Take` is the same code among others.
- Fleet.FleetRateBound: BatchSize is a whole number of at least 1 and capacity at most 60·rate, as configured; fractional batches are not modelled.
- Throttle.PassGate: time passes only in sleeps.
- Statements issued by a handler after its deadline may still take effect in the model; only the provider call is bound to it.
- The outbox and scheduler batch loops, the replay handler and AuthMiddleware appear as steps, not as methods.
- Broker.AmqpBroker.DeclareTopology: a queue redeclared with other arguments is overwritten, where a broker would refuse; connection errors are not modelled.
- Floating-point rounding in the Lua script and the reservoir.
- dead_letters and delivery_attempts rows, last_error, and status events.
- Malformed envelopes and unknown notification ids.
- Batch creation beyond its pending inserts; templates; validation; the WebSocket hub.
- HTTP routing, middleware, problem bodies, metrics, tracing, log redaction.
- The provider's HTTP client, AMQP dialling and reconnects, and the breaker's internals: only their outcomes.
- JSON canonicalisation of request bodies, cursor encoding, argon2.
- Redis errors in the authentication path, the failure lock, and re-activation of a revoked key.
- The 10 s and 24 h slot lifetimes: a slot may expire at any time.
