# A Dafny model of the webhook delivery engine

The engine's delivery queue and everything that feeds or drains it,
with proofs of what its documentation and tests promise.

- `LeaseMachine` is the abstract lease queue: ready, leased, done. `MemoryStore`,
  `RowTable` with `PgStore` and `MongoStore`, and `RedisStore` are the four physical
  stores, each a class with the fields the source keeps, each shown to take only steps of
  that machine.
- `Replicas` interleaves any number of engine replicas over the Postgres table: claims,
  reclaims, outcomes, quarantines, crashes and the clock; `Deadlines` says how late an
  outcome may be written before that goes wrong, and runs a single engine's loop.
- `Policy`, `Dispatcher` and `Engine` are the decision, one send, and one tick over the
  memory store; `Interleaving` shows that the order in which a batch's concurrent sends
  write does not matter; `Fairness` follows a waiting row over ticks without end.
- `Text` and `Signing` are the signature, its header and the two verifiers;
  `Subscriptions`, `Rotation` and `VersionedSecrets` are the subscription stores, a secret
  rotation from end to end, and the caching secret reader.
- `EventStore` and `Ingest` take an event from the producer to queued deliveries;
  `IngestRuns` and `IngestCrashes` follow that over runs, without and with crashes.
- `HostSemaphores` and `Bulkhead` are the per-host semaphores inside the worker gate;
  `Registry` is the discovery of event classes.

State that the source updates in place is a class; each method's contract ties the new
state to a specification function of the old one, and the lemmas are about those
functions; what those functions compute is also said without naming them, row by row, word
by word or number by number. Runs are sequences of such steps. Times are integers:
microseconds, and milliseconds in the Redis store. Delay arithmetic is over the reals. HMAC, SHA-256, a
cipher, HTTP dates and the target guard are functions the model is given; where a result
needs macs to be hexadecimal, or never to collide, it says so.

`dafny verify dfyconfig.toml` checks the whole project.

## Where the code and its documentation differ

The model follows the code.

- `webhook_engine/ingest/events.py:32-35` says deliveries are deduplicated by subscription
  and event. Fan-out mints a new delivery id each time and the stores compare delivery ids
  only; the Redis store writes an idempotency key that nothing reads.
  `IngestCrashes.CrashBeforeAckQueuesTwice` is a run that queues a pair twice,
  `IngestCrashes.QueuedExactlyPerReclaim` says how often it can happen, and
  `IngestCrashes.DeduplicatedExactlyWithoutReclaims` when the promise is kept.
- `webhook_engine/engine.py:214-218` says `append_attempt` has already counted the attempt.
  Only the Postgres store counts it, so the bound on unhandled failures is a Postgres result
  (`Replicas.LifeIsBounded`); on the memory store the quarantine reuses a number
  (`Engine.HandlingKeepsJournal`).
- `webhook_engine/service/pg_repos.py:415` calls a second attempt of one number a no-op. The
  table has no such key, so each append adds a line.
- `webhook_engine/service/subscription_pg.py:22-23` says pausing a missing subscription
  succeeds on Redis. It answers false there too.
- `webhook_engine/service/pg_repos.py:287,336` call SENT and DEAD_LETTERED terminal, but the
  marks check neither status nor lease. With several replicas, finished rows are final in every run
  exactly when no outcome is written after its lease's end
  (`Deadlines.FinalExactlyWithinLeases`); one microsecond is enough to send a SENT row back
  to retry (`Deadlines.LateReplicaUndoesASend`). With one engine they are final however
  late it writes (`Deadlines.OneEngineKeepsFinished`).

## Model

| member | source | states |
|---|---|---|
| `LeaseMachine.SecondClaimIsJustified` | webhook_engine/stores/memory.py:40-103 | With no assumption about who acts or when: between two claims of one delivery, in any run of any number of workers, lies a scheduled retry of it or a reclaim after the first lease ran out |
| `LeaseMachine.HeldUntilJustified` | webhook_engine/stores/memory.py:73-103 | Until such a step, the row stays leased to its first claim or is finished |
| `LeaseMachine.ClaimLoopsAreDisjoint` | webhook_engine/stores/mongo.py:213-255 | Interleaved claims with no retry and no reclaim among them hand out disjoint deliveries, so two workers never share one |
| `LeaseMachine.NothingIsLost` | webhook_engine/stores/memory.py:27-106 | No step of any worker makes a delivery disappear |
| `LeaseMachine.LeaseProtectsExactly` | webhook_engine/stores/redis.py:48-58 | A claim acted on at most `late` after its lease's end still owns its row, in every run, exactly when `late` <= 0 under a strict reclaim and `late` <= -1 under the inclusive one of Redis |
| `LeaseMachine.ClaimTimesAreUnique` | webhook_engine/stores/mongo.py:225-247 | Stores that break ties differently still take the same firing times, position by position |
| `LeaseMachine.SortedPrefixIsEarliest` | webhook_engine/stores/memory.py:77-86 | Sorting by firing time and slicing is a legal claim: nothing left behind fires before anything taken |
| `LeaseMachine.ExtractMinIsEarliest` | webhook_engine/stores/mongo.py:225-247 | So is taking a minimum of what is left, over and over |
| `LeaseMachine.TakeEarliest` | webhook_engine/service/pg_repos.py:193-202 | The answer of an ORDER BY fire_at LIMIT query: due, distinct, in order, as many as asked for, none skipped |
| `MemoryStore.MemoryWebhookDeliveryStore.EnqueueMany` | webhook_engine/stores/memory.py:27-32 | New rows join at the end of the dictionary with an empty log; a known delivery id is a no-op |
| `MemoryStore.MemoryWebhookDeliveryStore.MarkSent` | webhook_engine/stores/memory.py:34-38 | The row becomes SENT, its log grows by the attempt, its lease ends, `attempts` stays; an unknown id changes nothing |
| `MemoryStore.MemoryWebhookDeliveryStore.ScheduleRetry` | webhook_engine/stores/memory.py:40-55 | FAILED_RETRY at the given time with one attempt more, log grown, lease ended |
| `MemoryStore.MemoryWebhookDeliveryStore.MarkDead` | webhook_engine/stores/memory.py:57-61 | DEAD_LETTERED with the log grown and the lease ended; `attempts` stays |
| `MemoryStore.MemoryWebhookDeliveryStore.AppendAttempt` | webhook_engine/stores/memory.py:63-65 | Only the log changes, even for an unknown id |
| `MemoryStore.MemoryWebhookDeliveryStore.ClaimBatch` | webhook_engine/stores/memory.py:73-91 | Returns the stable sort of the due rows cut at the batch size, as they were, and leases exactly those until now + ttl |
| `MemoryStore.MemoryWebhookDeliveryStore.ReclaimStale` | webhook_engine/stores/memory.py:93-103 | Exactly the in-flight rows whose lease ended strictly before now go back to PENDING at their old firing time; their number is returned |
| `MemoryStore.SortRanks` | webhook_engine/stores/memory.py:77-85 | Due rows are served by firing time and, within one time, by age in the dictionary |
| `MemoryStore.BatchMeetsClaim` | webhook_engine/stores/memory.py:73-91 | The sort and slice takes the earliest due rows of the abstract queue, no more and no fewer than asked for |
| `MemoryStore.RefinesLeaseQueue` | webhook_engine/stores/memory.py:27-106 | Every operation of the memory store is the step of the lease machine it names |
| `MemoryStore.RunRefines` | webhook_engine/stores/memory.py:27-106 | So every run of the store is a run of the lease machine |
| `MemoryStore.SecondClaimHasACause` | webhook_engine/stores/memory.py:40-103 | Concretely: two claims of one row have a `schedule_retry` of it between them, or a reclaim later than the first expiry |
| `MemoryStore.KeepsValid` | webhook_engine/stores/memory.py:27-106 | Every operation keeps the dictionaries consistent and forgets no row |
| `MemoryStore.RowsKeepTheirPayload` | webhook_engine/stores/memory.py:27-106 | Row by row, what each operation makes of status, firing time, attempts, lease and log, with the lease counted in seconds; nothing else about a record ever changes |
| `MemoryStore.NewRowsWereEnqueued` | webhook_engine/stores/memory.py:27-32 | A row appears by an enqueue of its id only, at the end, as it was handed in, with an empty log |
| `MemoryStore.LeaseAgreementIsKept` | webhook_engine/stores/memory.py:27-106 | A row is IN_FLIGHT exactly when it has a lease entry, after every operation but one: enqueueing a new row that is already IN_FLIGHT |
| `MemoryStore.UnfinishedRowsComeBack` | webhook_engine/stores/memory.py:73-103 | After a reclaim at any time, and so after any crash, a PENDING or FAILED_RETRY row is due from its firing time on, an IN_FLIGHT one from just after its lease, and any other row never |
| `MemoryStore.DueRowsAreClaimed` | webhook_engine/stores/memory.py:73-91 | A claim asking for at least as many rows as are due takes every due row |
| `MemoryStore.MarksCommute` | webhook_engine/stores/memory.py:34-65 | Marks of different rows commute, so however the sends of a batch interleave the store ends up the same |
| `RowTable.TableRefinesLeaseQueue` | webhook_engine/service/pg_repos.py:127-369 | Every statement on the deliveries table is the step of the lease machine it names |
| `RowTable.SecondLeaseHasACause` | webhook_engine/service/pg_repos.py:178-369 | In any run of statements two leases of one row have a scheduled retry between them, or a reclaim later than the first expiry |
| `RowTable.TableKeepsLeases` | webhook_engine/service/pg_repos.py:178-369 | IN_FLIGHT means a lease is set and the reverse, unless a row already IN_FLIGHT is inserted |
| `RowTable.RowsKeepTheirPayload` | webhook_engine/service/pg_repos.py:178-369 | Row by row, the status, firing time, attempts and lease each statement leaves; nothing else about a record ever changes and no row is forgotten |
| `RowTable.FirstInsertWins` | webhook_engine/service/pg_repos.py:127-176 | After any list of inserts a known row is as it was, and a new one is the first record of its id, unleased |
| `RowTable.BatchIsOneByOne` | webhook_engine/stores/mongo.py:225-247 | Leasing a batch is the same as leasing its rows one by one |
| `PgStore.PgWebhookDeliveryStore.EnqueueMany` | webhook_engine/service/pg_repos.py:127-176 | Fresh ids are inserted as PENDING whatever status was handed in, known ids are skipped, and the number inserted is returned |
| `PgStore.NewRowsArePending` | webhook_engine/service/pg_repos.py:127-176 | Every new row is the first record handed in under its id, with the status PENDING and everything else kept |
| `PgStore.PgWebhookDeliveryStore.ClaimBatch` | webhook_engine/service/pg_repos.py:178-230 | Leases the earliest due rows not locked by others, all of them due, and returns them as updated |
| `PgStore.PgWebhookDeliveryStore.ReclaimStale` | webhook_engine/service/pg_repos.py:232-251 | Exactly the in-flight rows whose lease ended strictly before now are released and counted |
| `PgStore.PgWebhookDeliveryStore.MarkSent` | webhook_engine/stores/pg.py:142-152 | Log line and row update in one transaction; `attempts` becomes the number of the attempt; no guard on status or lease |
| `PgStore.PgWebhookDeliveryStore.ScheduleRetry` | webhook_engine/stores/pg.py:154-165 | The same for FAILED_RETRY at a new firing time |
| `PgStore.PgWebhookDeliveryStore.MarkDead` | webhook_engine/stores/pg.py:167-177 | The same for DEAD_LETTERED |
| `PgStore.PgWebhookDeliveryStore.AppendAttempt` | webhook_engine/stores/pg.py:179-189 | Log line and `attempts` together, status and lease untouched |
| `MongoStore.MongoWebhookDeliveryStore.EnqueueMany` | webhook_engine/stores/mongo.py:192-211 | Unknown ids are inserted with an empty log, known ones skipped |
| `MongoStore.MongoWebhookDeliveryStore.FindOneAndLease` | webhook_engine/stores/mongo.py:226-242 | One round trip leases a due document of least firing time, or finds none due at all |
| `MongoStore.MongoWebhookDeliveryStore.ClaimBatch` | webhook_engine/stores/mongo.py:213-255 | Left alone, the loop of single claims takes the earliest due rows of its start and returns them as leased |
| `MongoStore.MongoWebhookDeliveryStore.ReclaimStale` | webhook_engine/stores/mongo.py:257-281 | Exactly the in-flight documents whose lease ended strictly before now are released and counted |
| `MongoStore.MongoWebhookDeliveryStore.MarkSent` | webhook_engine/stores/mongo.py:283-310 | Status, `attempts`, lease and capped log in one update; an unknown id is a no-op |
| `MongoStore.MongoWebhookDeliveryStore.ScheduleRetry` | webhook_engine/stores/mongo.py:312-343 | The same for FAILED_RETRY at a new firing time |
| `MongoStore.MongoWebhookDeliveryStore.MarkDead` | webhook_engine/stores/mongo.py:345-372 | The same for DEAD_LETTERED |
| `MongoStore.MongoWebhookDeliveryStore.AppendAttempt` | webhook_engine/stores/mongo.py:374-395 | Only the capped log changes; `attempts` stays, unlike on Postgres |
| `MongoStore.LogKeepsTheNewest` | webhook_engine/stores/mongo.py:374-395 | After any pushes the log is the newest attempts, newest first, up to its cap |
| `MongoStore.ExtractMinEqualsSortedPrefix` | webhook_engine/stores/mongo.py:225-255 | The extract-min loop and the memory store's sort and slice take the same firing times from the same due rows, position by position |
| `RedisStore.LayoutIsKept` | webhook_engine/stores/redis.py:171-301 | Ready and inflight stay disjoint, and a known delivery is in neither exactly when it is SENT or DEAD_LETTERED; an operation breaks this if and only if it enqueues over an id in flight or a row handed in as finished |
| `RedisStore.LayoutHoldsThroughout` | webhook_engine/stores/redis.py:171-301 | So it holds in every reachable state of a run with fresh ids, crashes between a claim's script and its status writes included |
| `RedisStore.RedisRefinesLeaseQueue` | webhook_engine/stores/redis.py:37-58 | Each operation is a step of the lease machine; reclaim is inclusive and rescores the row to now |
| `RedisStore.SecondMoveHasACause` | webhook_engine/stores/redis.py:171-293 | Two claims of one delivery have a retry of it between them, or a reclaim no earlier than the end of the first lease |
| `RedisStore.RangeQueryFindsTheDueRows` | webhook_engine/stores/redis.py:40-40 | The range query from score 0 finds exactly the due rows if and only if no due row is scored before 1970 |
| `RedisStore.LastAddWins` | webhook_engine/stores/redis.py:171-181 | After a list of enqueues every id of it is ready with the last of its hashes, scored by that hash's firing time, and no other id is touched |
| `RedisStore.HashAfter` | webhook_engine/stores/redis.py:171-301 | What each operation makes of a known delivery's status, attempts and firing time; a reclaim leaves the hash alone |
| `RedisStore.LogKeepsTheNewest` | webhook_engine/stores/redis.py:295-301 | After any run a delivery's list holds its newest attempts, newest first, up to the history limit, or all of them where the limit is zero |
| `RedisStore.AllAreHandedOut` | webhook_engine/stores/redis.py:206-226 | Where the layout holds a claim hands out every id it moved, at its place, with its hash in flight |
| `RedisStore.RedisWebhookDeliveryStore.EnqueueMany` | webhook_engine/stores/redis.py:171-181 | Each row has its hash written and its id scored by firing time, over whatever was there |
| `RedisStore.RedisWebhookDeliveryStore.ClaimScript` | webhook_engine/stores/redis.py:37-46 | The script moves exactly the first batch-size ids of the range from ready to inflight, scored with the lease end |
| `RedisStore.RedisWebhookDeliveryStore.ClaimBatch` | webhook_engine/stores/redis.py:183-226 | The script's move followed by the status writes; hands out exactly the ids that have a hash, once each and in the order of the move, as their hashes were but IN_FLIGHT |
| `RedisStore.RedisWebhookDeliveryStore.ReclaimStale` | webhook_engine/stores/redis.py:48-58 | Every id whose lease ends by now goes back to ready with score now, its hash untouched; their number is returned |
| `RedisStore.RedisWebhookDeliveryStore.AppendAttempt` | webhook_engine/stores/redis.py:295-301 | The attempt heads the list, cut to the history limit; a limit of zero cuts nothing |
| `RedisStore.RedisWebhookDeliveryStore.MarkSent` | webhook_engine/stores/redis.py:243-257 | Out of both sets, hash SENT with the number of the attempt, log grown |
| `RedisStore.RedisWebhookDeliveryStore.ScheduleRetry` | webhook_engine/stores/redis.py:259-277 | Out of inflight, scored in ready by the new firing time, hash and log updated |
| `RedisStore.RedisWebhookDeliveryStore.MarkDead` | webhook_engine/stores/redis.py:279-293 | Out of both sets, hash DEAD_LETTERED, log grown |
| `Replicas.EveryStepIsSafe` | webhook_engine/service/pg_repos.py:178-369 | If nobody acts on a row taken from them, every step keeps one owner per in-flight row, lands outcomes only on in-flight rows under the lease of whoever acts, leaves finished rows alone and counts each landed claim once |
| `Replicas.TimelyReplicasAreDisciplined` | webhook_engine/engine.py:93-126 | Any number of replicas that act no later than their lease's end never act on a row they lost, whatever the interleaving of claims, reclaims, marks and crashes |
| `Replicas.OneReplicaIsDisciplined` | webhook_engine/engine.py:93-126 | A single replica never does either, even when a send outlives its lease, if it reclaims only after the previous gather returned; `Deadlines.OneEngineKeepsFinished` derives that from the loop |
| `Replicas.ReclaimOnlyRevokesTheLate` | webhook_engine/service/pg_repos.py:232-251 | A reclaim takes a row away only from a holder whose lease has run out |
| `Replicas.DisciplinedRunsStaySound` | webhook_engine/service/pg_repos.py:178-369 | Hence every state of such a run satisfies the invariant and every step is safe |
| `Replicas.OneOwnerPerRow` | webhook_engine/service/pg_repos.py:178-230 | Two workers never both own an in-flight row |
| `Replicas.FinishedRowsNeverChange` | webhook_engine/service/pg_repos.py:286-352 | In those runs SENT and DEAD_LETTERED rows never change again |
| `Replicas.LifeIsBounded` | webhook_engine/engine.py:202-246 | `attempts` equals the number of processed claims, and a row starting at zero is finished after at most max(1, max_attempts, max_unhandled_attempts) of them, plus one for each quarantine whose dead-letter did not land |
| `Replicas.TakeLeases` | webhook_engine/service/pg_repos.py:178-230 | A claim puts the row in flight and in one new pair of hands, both until the claim's clock plus the ttl in seconds |
| `Deadlines.FinalExactlyWithinLeases` | webhook_engine/service/pg_repos.py:286-352 | The marks are unguarded: finished rows never change in all runs whose outcomes are written at most `late` after their lease's end if and only if `late` <= 0, whatever the limits |
| `Deadlines.ClosedExactlyWithinLeases` | webhook_engine/service/pg_repos.py:305-333 | Where a profile allows a second attempt, the same holds of a finished row never being queued again |
| `Deadlines.LateReplicaUndoesASend` | webhook_engine/service/pg_repos.py:305-333 | The run behind both: a replica one microsecond late turns a SENT row back into one to retry |
| `Deadlines.OneEngineKeepsFinished` | webhook_engine/engine.py:93-126 | One engine running its loop (reclaim, claim, gather, again), however late its sends: it never acts on a row it lost and finished rows never change |
| `Deadlines.OneEngineMayBeLate` | webhook_engine/engine.py:93-126 | That is not empty: for any bound the loop has a run that writes an outcome later than that and goes on to its next reclaim |
| `Policy.VerdictByStatus` | webhook_engine/policy.py:50-94 | 2xx is sent; 408, 429 and 5xx retry while attempts are left; everything else is dead at once |
| `Policy.LadderClimbs` | webhook_engine/policy.py:86-87 | For a backoff factor of at least one the unjittered delay never falls and never exceeds the cap |
| `Policy.LadderIsGeometric` | webhook_engine/policy.py:86-87 | The first rung is min(base, cap), and every further one min(factor * the one before, cap) |
| `Policy.CapIsReached` | webhook_engine/policy.py:86-87 | With a factor above one and a base above zero the cap is reached after finitely many attempts, and kept |
| `Policy.DelayIsExact` | webhook_engine/policy.py:83-89 | A named wait is answered exactly: itself up to the cap, the cap beyond; otherwise the delay is the rung plus rung * jitter * draw, so the rung at draw zero and rung * (1 +- jitter) at the ends, and never below zero |
| `Policy.JitterIsBounded` | webhook_engine/policy.py:88-89 | The jittered delay lies within capped * (1 +- jitter) and is never negative |
| `Policy.DelayIsBounded` | webhook_engine/policy.py:74-89 | A delay is never negative and at most max_delay * (1 + jitter): jitter comes after the cap; a wait the receiver named never exceeds the cap |
| `Policy.LadderIsBounded` | webhook_engine/policy.py:66-89 | If each of n delays was scheduled because the policy chose to retry at that attempt, together they are at most (max_attempts - 1) * max_delay * (1 + jitter) |
| `Policy.NamedWaitsAreSafe` | webhook_engine/policy.py:23-36 | Whatever Retry-After says, the wait read from it is never negative, and a missing or blank value, or text that is neither a number nor a date, names none (RFC 9110 section 10.2.3) |
| `Policy.WaitIsRead` | webhook_engine/policy.py:23-36 | With any blanks around it, a run of digits is the seconds it spells, a date is the time left until it or zero, and anything else names no wait |
| `Dispatcher.SendOutcomes` | webhook_engine/dispatcher.py:109-229 | For every record, in terms of record, settings and environment alone: sent exactly on a POST answered 2xx, retried exactly on a POST with a retryable answer and attempts left under the profile's own limit or the default, raised exactly on an unknown profile, an unparsable target or an unexpected error, and dead exactly otherwise |
| `Dispatcher.PostsExactlyWhere` | webhook_engine/dispatcher.py:109-189 | A POST goes to an address exactly if the profile is known, the target parses, the body is within its limit, the address is the resolver's non-empty answer for a named host or else the pinned one, the guard allows it and the secret is found |
| `Dispatcher.LinesSayWhatHappened` | webhook_engine/dispatcher.py:120-214 | The log line has the next number and the send's time, and either names the first guard that refused (payload_too_large, blocked_ip_at_send with its reason, secret_unresolved) or holds the status of the answer or the text of the request error |
| `Dispatcher.RetryIsDueThen` | webhook_engine/dispatcher.py:216-223 | A retry is due at the send's clock plus the policy's delay for this attempt, to the nearest microsecond; a wait the receiver named counts only if the profile honours it |
| `Dispatcher.SendComesBack` | webhook_engine/dispatcher.py:216-229 | A send comes back exactly if it decided an outcome, the row is known and the mark went through; the row then has that outcome's status, one more log line, and no lease |
| `Dispatcher.PostsOnlyWhereAllowed` | webhook_engine/dispatcher.py:132-189 | Every POST goes to an address the guard allowed: the pinned one or the resolver's |
| `Dispatcher.RetriesAreNotInThePast` | webhook_engine/dispatcher.py:216-223 | A retry is never scheduled before the send itself |
| `Dispatcher.WebhookDispatcher.Send` | webhook_engine/dispatcher.py:109-229 | One send writes exactly the mark of the outcome it decided, with the log line that says what came back, or nothing if it raised, and reports that outcome |
| `Dispatcher.WebhookDispatcher.DeadLetter` | webhook_engine/dispatcher.py:290-359 | The dead letter is written to a known row, and raises otherwise |
| `Engine.WebhookEngine.Tick` | webhook_engine/engine.py:93-155 | Reclaim, claim, send all, count: the counters are the tally of what each claimed row's send came to, claimed + reclaim errors = sent + retried + dead + errors, and `sent` is the growth of the SENT rows |
| `Engine.WebhookEngine.DispatchOne` | webhook_engine/engine.py:157-177 | A claimed record ends with its outcome written, or with its quarantine |
| `Engine.WebhookEngine.Quarantine` | webhook_engine/engine.py:202-246 | A failed send leaves a numbered log line and, from the configured number on, a dead letter, each best-effort |
| `Engine.Counted` | webhook_engine/engine.py:126-155 | Each counter is exactly the number of outcomes of its kind: sent, retried, dead, and failed on top of the reclaim errors |
| `Engine.CountersMatchRows` | webhook_engine/engine.py:126-155 | Read off the store after a tick: `sent` and `retried` are the rows of the batch that are SENT and FAILED_RETRY, no more rows than `errors` are still IN_FLIGHT, and without a failure `dead` are the DEAD_LETTERED ones |
| `Engine.QuarantineLeaves` | webhook_engine/engine.py:202-246 | A quarantine leaves nothing if its append fails, else one line with the next number naming the exception, and from max_unhandled_attempts on, unless the burial fails, a dead row without a lease and a second line |
| `Engine.HandlingTouchesOneRow` | webhook_engine/engine.py:157-177 | Handling a record leaves every other row and log alone and settles its own as the outcome says |
| `Engine.HandlingKeepsJournal` | webhook_engine/stores/memory.py:34-65 | A row's log stays numbered 1..n, with n its attempts plus one when finished, if and only if the send came back or its quarantine left no trace |
| `Engine.TickEffects` | webhook_engine/engine.py:93-155 | Over a whole tick every row of the batch is settled by its own outcome, every other row is untouched, and logs stay numbered when no send failed |
| `Engine.TickTakesBack` | webhook_engine/engine.py:93-112 | A row the tick does not claim is as it was, but that an in-flight one whose lease ended before the tick's clock is PENDING again, unless the reclaim raised |
| `Engine.ArrivalKeepsJournals` | webhook_engine/stores/memory.py:27-32 | An enqueue keeps the logs numbered if and only if the id is known or the row arrives unfinished with no attempts |
| `Engine.JournalsStayNumbered` | webhook_engine/engine.py:93-155 | So in every run of such ticks and enqueues each log is numbered 1..n with n its row's attempts, plus one when finished |
| `Interleaving.InterleavingsAgree` | webhook_engine/stores/memory.py:34-65 | Two sequences of marks that agree row by row leave the same store, in whatever order they mix the rows |
| `Interleaving.TickIgnoresSchedule` | webhook_engine/engine.py:118-126 | Every interleaving of the writes of a gather's concurrent sends and quarantines ends in the store of the tick above |
| `Fairness.RankDecides` | webhook_engine/stores/memory.py:73-91 | A claim of n rows takes a due row exactly when fewer than n are ahead of it; otherwise all n it takes are ahead |
| `Fairness.AheadShrinks` | webhook_engine/engine.py:93-126 | Rows ahead of a waiting one only ever get fewer: retries and arrivals go behind it |
| `Fairness.NoStarvation` | webhook_engine/engine.py:93-126 | A due row with a rows ahead of it is claimed within floor(a / batch_size) + 1 ticks |
| `Fairness.EngineTickIsNormal` | webhook_engine/engine.py:93-155 | Every tick of the engine in which every send came back, after the claim, with producers enqueueing beside it, meets the assumptions of that bound |
| `Text.SplitInvertsJoin` | webhook_engine/signer.py:95-99 | Splitting a space-joined list of words gives the words back |
| `Text.SplitGivesTheWords` | webhook_engine/signer.py:95-99 | Splitting any text gives exactly its words: the stretches without any of the ten ASCII blanks, bounded by blanks or the ends |
| `Text.ParseInvertsShow` | webhook_engine/signer.py:79-84 | Every printed timestamp, negative ones included, parses back to itself |
| `Text.ParseIntReads` | webhook_engine/signer.py:79-84 | int() on blanks, an optional sign, a text and blanks: the number the digits spell if the text is digits with single underscores between them, and an error otherwise |
| `Text.ShownWithoutZeros` | webhook_engine/signer.py:46-48 | Numbers are printed as digits without leading zeros, in one way only |
| `Signing.MessageIsInjective` | webhook_engine/signer.py:46-48 | The signed text determines timestamp, event id and digest, whatever dots the event id contains |
| `Signing.SignerAnswers` | webhook_engine/signer.py:57-103 | On any headers: missing, bad timestamp, out of window, and then unsupported version exactly if no word of the signature is v1= and something, accepted exactly if the word v1= and the right mac is among them, and bad mac otherwise |
| `Signing.ReceiverAnswers` | webhook_engine/verify.py:124-156 | The same of the verifier shipped to receivers, on what it reads |
| `Signing.MacsAreLabelled` | webhook_engine/signer.py:93-101 | A mac is taken from a list of parts exactly if it is not empty and v1=mac is one of them; no other label counts |
| `Signing.VerifiersAgree` | webhook_engine/signer.py:57-103 | On headers unique up to case (RFC 9110 section 5.1) the engine's verifier and the receiver's give the same answer, down to the reason |
| `Signing.VerifiersAgreeUnlessOverridden` | webhook_engine/verify.py:48-53 | On any dictionary at all they agree unless one of the three names is overridden by a later spelling |
| `Signing.LookupsDifferExactlyWhenOverridden` | webhook_engine/verify.py:48-53 | The two header lookups differ if and only if the exact spelling is there and the last spelling is another with another value |
| `Signing.TwoSpellingsSplitTheVerifiers` | webhook_engine/verify.py:48-53 | A dictionary with two spellings of the timestamp that one verifier refuses as too old and the other does not |
| `Signing.MacsAreRecovered` | webhook_engine/verify.py:148-152 | Splitting and partitioning a space-joined list of v1= parts recovers the macs |
| `Signing.VerifyInvertsSign` | webhook_engine/verify.py:90-156 | Both verifiers accept what was signed exactly within the window and on one of the macs sent, in any spelling and order of the headers; otherwise the reason is the one that applies |
| `Signing.SentHeadersVerify` | webhook_engine/signer.py:35-103 | In particular of the very header dictionary the signer sends: inside the window both verifiers accept it with the current secret, and with the previous one if there is one |
| `Signing.SentHeadersAre` | webhook_engine/signer.py:35-55 | What a receiver finds under each of the six header names, and that the words of the signature are the labelled macs of the signing secrets and nothing else |
| `Signing.AcceptedMeansSigned` | webhook_engine/signer.py:35-103 | If macs never collide, acceptance means within the window, the signed digest and a secret that signed |
| `Subscriptions.PgSubscriptionStore.Create` | webhook_engine/service/subscription_pg.py:253-290 | A fresh row, active, with the sealed secret; an empty secret counts as none; a taken id is refused |
| `Subscriptions.PgSubscriptionStore.Delete` | webhook_engine/service/subscription_pg.py:308-314 | The row goes, and the answer says whether it was there |
| `Subscriptions.PgSubscriptionStore.ChangeStatus` | webhook_engine/service/subscription_pg.py:322-330 | Only the status changes; false for a missing row |
| `Subscriptions.PgSubscriptionStore.RotateSecret` | webhook_engine/service/subscription_pg.py:228-248 | In one update the current secret becomes the previous one until now + grace; a negative grace is refused before the table is read |
| `Subscriptions.PgSubscriptionStore.GetSecret` | webhook_engine/service/subscription_pg.py:209-226 | Current and previous secret opened again, or an error for a missing row |
| `Subscriptions.PgSubscriptionStore.ForEvent` | webhook_engine/service/subscription_pg.py:169-207 | The plain filter: active, listing the event, of the tenant if one is given |
| `Subscriptions.RedisSubscriptionStore.Create` | webhook_engine/service/subscription_store.py:144-183 | The hash is written and the id joins its owner's set and every listed event's set |
| `Subscriptions.RedisSubscriptionStore.Delete` | webhook_engine/service/subscription_store.py:201-214 | The hash goes and the id leaves exactly the sets its own hash names |
| `Subscriptions.RedisSubscriptionStore.ChangeStatus` | webhook_engine/service/subscription_store.py:222-227 | Only the status changes; false for a missing hash |
| `Subscriptions.RedisSubscriptionStore.RotateSecret` | webhook_engine/service/subscription_store.py:121-139 | The hash is read first, so a missing subscription is reported before a negative grace; errors change nothing |
| `Subscriptions.RedisSubscriptionStore.GetSecret` | webhook_engine/service/subscription_store.py:109-119 | Missing or empty secrets are errors, an empty previous secret is none |
| `Subscriptions.RedisSubscriptionStore.ForEvent` | webhook_engine/service/subscription_store.py:70-107 | One snapshot per active listed subscription of the tenant, each once |
| `Subscriptions.MatchesAfter` | webhook_engine/service/subscription_pg.py:169-330 | After any operation a lookup finds a subscription exactly if it is active, lists the event and is the tenant's: a create adds it so, a delete removes it, pausing hides it, a rotation changes nothing |
| `Subscriptions.SecretAfter` | webhook_engine/service/subscription_pg.py:209-248 | After any operation secrets read as they were given, and after a rotation the former one as the previous until its end |
| `Subscriptions.SubscriptionsKeepTheRest` | webhook_engine/service/subscription_pg.py:228-330 | Nothing but status and secrets of a subscription ever changes |
| `Subscriptions.FanOutSees` | webhook_engine/service/subscription_pg.py:169-207 | Who matches an event, and that a snapshot carries id, owner, URL and address each in its own field |
| `Subscriptions.EmptyCountsAsNone` | webhook_engine/service/subscription_pg.py:228-290 | A non-empty secret that was given is kept, and an empty one or none is replaced by the random one |
| `Subscriptions.RewriteKeepsPrevious` | webhook_engine/service/subscription_store.py:109-183 | Writing a Redis subscription over a taken id keeps the previous secret found there, an empty one counting as none |
| `Subscriptions.EmptySecretIsMissing` | webhook_engine/service/subscription_store.py:109-139 | A Redis hash with an empty secret reads as missing, and a rotation of it changes nothing |
| `Subscriptions.IndexIsKept` | webhook_engine/service/subscription_store.py:144-227 | Every operation keeps the owner and event sets equal to the hashes turned around, if and only if it does not write over a taken id dropping an event or changing the owner |
| `Subscriptions.IndexEqualsScan` | webhook_engine/service/subscription_store.py:70-107 | After any run with fresh ids a lookup through the event set is the full scan: exactly the active subscriptions listing the event, of that tenant |
| `Subscriptions.StoresAgree` | webhook_engine/service/subscription_pg.py:169-226 | After the same operations the Postgres filter and the Redis lookup match the same subscriptions and every secret reads the same |
| `Rotation.MaterialAfterRotation` | webhook_engine/service/subscription_pg.py:124-129 | Whatever happens to other subscriptions, and pausing or resuming this one, both stores hand out the new secret with the old one until t + g |
| `Rotation.SignedDeliverySays` | webhook_engine/dispatcher.py:252-288 | A delivery carries its id, event, event id and timestamp under their names, and is signed with the current secret, and with the previous one exactly before its end |
| `Rotation.RotationIsContinuous` | webhook_engine/dispatcher.py:252-288 | A delivery signed after rotating at t with grace g verifies with the new secret; before t + g with the old one too; from t + g on it carries exactly one signature, on which the old secret fails |
| `Rotation.SecondRotationClosesTheFirst` | webhook_engine/service/subscription_pg.py:124-129 | A second rotation shuts the first secret out at once, even inside the grace window it was given |
| `VersionedSecrets.CachingReader.GetVersioned` | webhook_engine/protocols.py:231-240 | The cached entry is dropped exactly when the row names a version other than the last one seen, then read |
| `VersionedSecrets.FreshExactlyWhenLabelsAreNew` | webhook_engine/protocols.py:231-240 | Over any caching reader and any run, no row is ever signed with a secret older than the one its version named, if and only if no version label is used twice for one subscription |
| `VersionedSecrets.ReusedLabelGoesStale` | webhook_engine/protocols.py:231-240 | For any reused label, a run in which the reader returns the older secret |
| `VersionedSecrets.DropsAreChanges` | webhook_engine/protocols.py:231-240 | However deliveries interleave, a subscription's entry is invalidated exactly once per change in its own sequence of versions |
| `VersionedSecrets.ReadFinds` | webhook_engine/protocols.py:231-240 | A cached entry answers while its version is the one last seen; after an eviction or under a new version the store does, and a deleted subscription is missing |
| `EventStore.MemoryEventStore.Append` | webhook_engine/ingest/memory.py:33-34 | A new event waits at the end; a known event id is a no-op |
| `EventStore.MemoryEventStore.ClaimEvents` | webhook_engine/ingest/memory.py:36-47 | The oldest pending events up to the batch size, leased until now + ttl, and no others |
| `EventStore.MemoryEventStore.Ack` | webhook_engine/ingest/memory.py:49-54 | The listed events that exist are DONE, without a lease |
| `EventStore.MemoryEventStore.MarkFailed` | webhook_engine/ingest/memory.py:56-60 | The event is FAILED, without a lease |
| `EventStore.MemoryEventStore.ReclaimStale` | webhook_engine/ingest/memory.py:62-73 | Exactly the claimed events whose lease ended strictly before now are pending again, and counted |
| `EventStore.EventsKeepShape` | webhook_engine/ingest/memory.py:33-73 | A lease is held exactly while an event is CLAIMED, and no event disappears |
| `EventStore.EventAfter` | webhook_engine/ingest/memory.py:33-73 | What each operation makes of an event's status and lease; the event itself never changes |
| `EventStore.OldestGoFirst` | webhook_engine/ingest/memory.py:36-47 | A claim that takes an event takes every pending one appended before it |
| `EventStore.SecondClaimFollowsAReclaim` | webhook_engine/ingest/memory.py:36-73 | An event handed out twice was reclaimed in between, after its first lease ran out |
| `Ingest.EventIngestor.FanOut` | webhook_engine/ingest/ingestor.py:97-143 | One new row for everyone who is owed one, each addressed as its subscription says and made of what the event says; fails, and enqueues nothing, exactly when the lookup, the payload, a URL or the enqueue does |
| `Ingest.EventIngestor.FanOutAll` | webhook_engine/ingest/ingestor.py:75-92 | One bad event is parked and does not block the others |
| `Ingest.EventIngestor.Tick` | webhook_engine/ingest/ingestor.py:64-95 | Reclaim, claim, fan out, acknowledge: claimed = acknowledged + failed, and `fanned_out` counts the new rows |
| `Ingest.TickDeliversOnce` | webhook_engine/ingest/ingestor.py:64-143 | Within one tick a claimed event ends DONE with exactly one new row per active, matching, allowed subscription, or FAILED with none; every new row goes to the allowed URL and address of its own subscription, belongs to its owner, carries the event's name, id, tenant and payload, and is PENDING with no attempts, due at the tick's clock |
| `Ingest.TickTakesBack` | webhook_engine/ingest/ingestor.py:64-70 | An event the tick does not claim is as it was, but that one whose lease ended before the clock waits again, unless the reclaim failed |
| `IngestRuns.ExactlyOncePerPair` | webhook_engine/ingest/ingestor.py:64-143 | In every run of one ingestor that does not crash, with producers, changing lookups and the engine's own writes between its ticks: no event is CLAIMED between ticks, a DONE event has exactly one row per allowed target some lookup found, and every other event, FAILED ones included, has none |
| `IngestRuns.RowsAreAddressed` | webhook_engine/ingest/ingestor.py:97-143 | In every such run each queued row was made by a tick for one of its events: address, owner and contents are still those, whatever the engine has done to the row since |
| `IngestCrashes.DoneMeansDelivered` | webhook_engine/ingest/ingestor.py:64-143 | With crashes between any two calls and reclaims at any time, an event is DONE only if every target some lookup of it found has its row |
| `IngestCrashes.DuplicatesNeedReclaims` | webhook_engine/ingest/ingestor.py:64-143 | In every run with crashes a (subscription, event) pair is queued at most once, plus once per reclaim that put its event back |
| `IngestCrashes.BoundIsReached` | webhook_engine/ingest/ingestor.py:64-143 | For every n some run reclaims the event n times and queues the pair n + 1 times |
| `IngestCrashes.QueuedExactlyPerReclaim` | webhook_engine/ingest/ingestor.py:64-143 | All runs with at most r reclaims of the event queue the pair at most m times if and only if m >= r + 1 |
| `IngestCrashes.DeduplicatedExactlyWithoutReclaims` | webhook_engine/ingest/events.py:32-35 | The promised deduplication holds in all those runs if and only if r is zero |
| `IngestCrashes.CrashBeforeAckQueuesTwice` | webhook_engine/ingest/events.py:32-35 | One crash between enqueue and acknowledgement queues the same pair twice: the promised dedupe is not there |
| `HostSemaphores.HostSemaphorePool.Peek` | webhook_engine/host_semaphores.py:34-36 | The first look finds the semaphore of the lower-cased host if there is one |
| `HostSemaphores.HostSemaphorePool.GetOrCreate` | webhook_engine/host_semaphores.py:37-42 | The second look, under the guard, makes a semaphore only if still missing; the pool stays one per host and no existing semaphore changes |
| `HostSemaphores.HostSemaphorePool.TryEnter` | webhook_engine/host_semaphores.py:30-31 | Entering takes one permit of that semaphore only, and waits when there is none |
| `Bulkhead.BulkheadHolds` | webhook_engine/engine.py:157-177 | In every interleaving, failures and cancellations included, every gate, guard and host permit is either free or with exactly one task, and tasks hold only their own host's semaphore |
| `Bulkhead.OneSemaphorePerHost` | webhook_engine/host_semaphores.py:27-42 | In every state the tasks can reach, two semaphores of the pool never belong to one host, however its name is spelled |
| `Bulkhead.LookFindsKnownHosts` | webhook_engine/host_semaphores.py:34-36 | The first look queues at the host's own semaphore wherever there is one, without asking for the guard |
| `Bulkhead.LimitsHold` | webhook_engine/dispatcher.py:176-190 | At most per_host_concurrency tasks are inside one host's bulkhead and at most worker_concurrency are sending |
| `Bulkhead.NoDeadlock` | webhook_engine/engine.py:157-177 | Gate, then host, then guard: some unfinished task can always step |
| `Bulkhead.DeadlockFreeExactlyWithPermits` | webhook_engine/engine.py:157-177 | No run gets stuck if and only if both limits are above zero |
| `Bulkhead.RunsAreShort` | webhook_engine/engine.py:157-177 | A batch ends after at most as many steps as its tasks have left, eight for a fresh one |
| `Bulkhead.CallbackBlocksNobody` | webhook_engine/engine.py:174-177 | Whether a callback has returned makes no difference to what any other task may do |
| `Registry.Discover` | webhook_engine/registry.py:78-116 | Terminates on every finite class graph, visits each strict descendant of the roots once, lists exactly those that are no pre-events and declare metadata themselves, and collides, naming both classes, if and only if two of these share a name |
| `Registry.Discovery.Walk` | webhook_engine/registry.py:86-112 | What a walk newly sees lies below its class and has all its subclasses seen too |
| `Registry.SeenIsEverything` | webhook_engine/registry.py:86-114 | A seen set closed under subclasses that holds the roots' subclasses holds every strict descendant |

## Left out

- HTTP transport, DNS, TLS, the FastAPI service, settings, logging and wiring: a POST is a status, a request error or an unexpected exception, chosen freely.
- SQL text, table definitions, Mongo index creation and script loading: each store method is one atomic step on its table or sets. Redis pipelines and the Redis read-then-write rotation are taken as atomic; only a crash between the claim script and its status writes is modelled.
- Redis expiry of finished hashes, the recent-deliveries stream and the idempotency key.
- `purge_sent`, `dead_unnotified` and failure acknowledgement: filters over rows that are in the model.
- The Postgres and Mongo event stores: the same lease steps as the memory event store, with atomic claims.
- The inside of the target guard, `webhook_engine/ssrf_guard.py`: one predicate on address, host and port.
- Fields that are only carried along: schema version, emission time, redelivery mark, response bodies and durations; a payload is its size.
- CANCELLED is in the status type but no method of the source sets it.
- Custom signers, body encoders and delivery profiles beyond their retry limits: a custom signer carries one signature, so the rotation results are about the shipped header set.
- `webhook_engine/fanout.py`, `fanout_installer.py`, `meta.py`, `body.py`, `envelope.py` and `profiles.py`: thin, or tied to a library that is not part of this model.
- Float rounding and overflow, integers of more than 4300 digits, and non-ASCII digits, blanks and letters.
- Engine.WebhookEngine.Tick: the method sends a batch one after another; that the source's concurrent sends leave the same store in every interleaving of their writes is `Interleaving.TickIgnoresSchedule`, and `Replicas` and `Bulkhead` interleave them with other replicas and with each other's permits.
- Engine.WebhookEngine.Quarantine: a task cancelled by `drain` is not quarantined; in `Replicas` and `Bulkhead` it is a holder that drops its row.
- Fairness.NoStarvation: is about the memory store with every dispatch coming back; a failed dispatch leaves its row to a reclaim, which may put it ahead.
- Replicas.LifeIsBounded: the quarantines whose dead-letter did not land are counted on top of the bound, since both calls are best-effort.
- RedisStore.RangeQueryFindsTheDueRows: equal scores may come back in any order, where Redis orders them by id.
- Registry.Discover: does not say in which order the subclasses of a class come, only that each class is listed once.
- LeaseMachine.TakeEarliest: leaves open which of several rows with one firing time comes first, as the queries do.
- Subscriptions.PgSubscriptionStore.Create: name resolution happens before and is not modelled; the id is given by the caller.
- Ingest.EventIngestor.Tick: a failing `mark_failed` or `ack` ends the tick in the source; that is a crash of `IngestCrashes`.
- Signing.AcceptedMeansSigned: takes the mac as free of collisions, which no real one is; `Signing.VerifyInvertsSign` does not.
- Bulkhead.RunsAreShort: outcome callbacks end, as their timeout makes them.
