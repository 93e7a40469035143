# Sluice, verified

Sluice is a distributed job queue. Postgres owns every job; Redis holds queues that
may be lost at any time; workers claim jobs under a random token and extend a lease
by heartbeat; any number of schedulers release due jobs, reap lost claims, rebuild
the queues, fire cron schedules and prune history.

This project models that logic in Dafny and proves what it promises. The core is a
step system (`Protocol.dfy`): a step is one SQL statement or transaction, except the
concurrency-limited claim, which is split into lock, count, claim and commit. An
adversary picks the steps. A worker may delay, repeat or never send any write of any
claim it ever made, so pauses, crashes, lost replies and two leaders are ordinary
runs. Theorems hold for every sequence of actions from the empty system.

| file | contents |
|---|---|
| `Jobs.dfy`, `Storage.dfy` | rows, constants, and each SQL statement as a function on the tables |
| `Store.dfy`, `Ordering.dfy` | the same statements as methods that update the tables in place; ORDER BY with LIMIT |
| `Protocol.dfy`, `Lifecycle.dfy`, `Kinds.dfy` | the step system, its invariant, the kinds of step |
| `Fencing.dfy` | refinement of a single-owner lifecycle, and what follows for claim tokens |
| `Guarantees.dfy`, `Concurrency.dfy`, `Lease.dfy` | retry budget, history, table shape, dead letter; the concurrency cap; leases |
| `Shuffle.dfy`, `Queues.dfy`, `Cluster.dfy` | tenant order, Redis scripts, Postgres and Redis together with flush, expiry and drain |
| `Release.dfy`, `PollOrder.dfy`, `Reconcile.dfy`, `Sweeps.dfy`, `Recovery.dfy` | the scheduler's loops |
| `Worker.dfy`, `Backoff.dfy` | a worker's handling of one entry, outcome retries, retry delays |
| `RateLimit.dfy`, `TenantCache.dfy`, `Cron.dfy` | the token bucket, the API's tenant cache, cron schedules |

Conventions. Times are milliseconds on one clock that does not go back; UUIDs are
numbers, fresh when the code draws them. Clocks, random draws, network faults and the
result of running a job are parameters or nondeterministic choices. An action that is
not enabled leaves the state as it is. `submitted`, `claims`, `log`, `popped` and
`lost` are history: no operation of the code reads them.

Three promises turn out to need a condition, and the project states the exact one.

- Retry delays of successive attempts are disjoint exactly while the earlier base
  delay is below 2400 s, not up to the cap (`Backoff.LaterWaitsLonger`,
  `Backoff.NearCapOverlaps`).
- A completed cron fire leaves `next_run_at` in the future exactly when the schedule's
  expression occurs again after the fire's clock; otherwise the cron library returns the
  zero time (`Cron.CompletedFireMovesOn`, `Cron.NoOccurrenceStaysDue`).
- Jobs released by one poll are in (priority, due time) order as a whole exactly when every
  job that falls due between two batches the poll reaches, m full batches into it, has at
  least 1000 m jobs already due that rank no later. This is a condition on the table before
  the poll and on the clocks of its batches (`PollOrder.FullyOrderedIff`,
  `PollOrder.LateComerGoesLast`).

Where documentation and code differ the model follows the code. `architecture.md:273`
draws a lost heartbeat as a move to `failed`; `RequeueStaleJob` moves the job to
`pending` or `dead`. `architecture.md` also shows moves into and out of `claimed`, a
state no statement ever enters.

## Model

| member | source | states |
|---|---|---|
| Fencing.RunsRefineLifecycle | internal/storage/storage.go:113-252 | every run of the protocol is a legal history of an abstract lifecycle in which a job has at most one owner, an outcome fixes the phase it leaves, ids and tokens are never reused, and each token ends at most once |
| Fencing.CompletedNeverRunsAgain | internal/storage/storage.go:202-225 | once a claim of a job was completed, no run ever makes another claim of that job, through replays, prunes and resubmissions |
| Fencing.LegalKeepsSound | internal/storage/storage.go:113-252 | along every legal history owners are tokens issued for their own job that have not ended, and completed jobs are over |
| Fencing.StepSimulates | internal/storage/storage.go:113-482 | each statement, in any reachable state, is one step of the lifecycle or none |
| Fencing.FinishesOnce | internal/storage/storage.go:202-205 | in the lifecycle no token is finished twice, whatever the history |
| Fencing.AtMostOneOutcome | internal/storage/storage.go:335-379 | in every run a claim token gets at most one of complete, fail, reap and force-fail |
| Fencing.SupersededForGood | internal/storage/storage.go:191-252 | once a token has lost its job, Extend, Complete and Fail under it change nothing, after any further steps |
| Fencing.RepeatedOutcomeIsNoop | internal/worker/worker.go:404-424 | after a claim's outcome is written, any later Complete or Fail of that claim changes nothing, whatever happened in between |
| Fencing.LooseWriteIsNoop | internal/storage/storage.go:191-252 | a write under a token that owns no job leaves the whole state as it is |
| Lifecycle.InitInv | migrations/000001_init.up.sql:1-32 | the empty database satisfies the invariant |
| Lifecycle.StepKeeps | internal/storage/storage.go:49-482 | every statement keeps the invariant: row shapes, unique keys, owners, claims, runs, outcomes, attempt history |
| Lifecycle.ExecKeeps | internal/storage/storage.go:49-482 | the invariant holds after every run |
| Guarantees.Structure | internal/storage/storage.go:113-130 | after any run: running iff token and deadline are set; claimed is never entered; completed_at iff succeeded or cancelled; pending jobs are due; deadlines are at most 15 s ahead; every run row has its job; an open run is the run of the current token of a running job |
| Guarantees.AtMostOneOpenRun | internal/storage/storage.go:126-128 | a job never has two open runs |
| Guarantees.RetryBudget | internal/storage/storage.go:234-240 | since its last replay a job was opened for attempts 0, 1, ..., k-1 in order, k at most max_retries + 1; attempt counts the failed and reaped ones; every claim of a retained job still has its run row with its attempt |
| Guarantees.SpentMeansDead | internal/storage/storage.go:356-363 | a job opened max_retries + 1 times is dead, succeeded or on its last attempt |
| Guarantees.OutcomeRecordedForGood | internal/storage/storage.go:206-252 | a claim ended by Complete or Fail has, in every later state that keeps its job, a closed run row with that outcome |
| Guarantees.RetryDecisionsAgree | internal/worker/worker.go:374-388 | whenever FailJob applies, the worker's claim-time decision equals the SQL CASE, so a failed job gets exactly the worker's retry time and a dead one none |
| Guarantees.DeadLetterIsFaithful | internal/storage/storage.go:384-397 | in every reachable state a dead-letter entry is the snapshot of a job that is dead now |
| Guarantees.NothingIsLost | internal/storage/retention.go:13-49 | every job ever submitted is in the table, or was succeeded, cancelled or dead with its dead-letter entry at some earlier point of the run |
| Concurrency.StepWithinCap | internal/storage/storage.go:146-173 | lock, count, claim and commit, interleaved with any step, keep the tenant within its cap and the count of an open transaction an upper bound |
| Concurrency.NeverAboveCap | internal/storage/storage.go:142-173 | if a tenant's jobs are claimed only under a lock on its row with limits at most the cap, no reachable state has more of them running |
| Cluster.CapHoldsEndToEnd | internal/worker/worker.go:271-283 | the cap holds when the tenant to lock is read off the list an entry was popped from, whatever Redis does, because entries sit in lists of their own tenant |
| Lease.StaysInTime | internal/storage/storage.go:335-379 | a step taken while the clock is within the deadline neither reaps the claim nor leaves it past its deadline |
| Lease.BeatingIsNeverReaped | internal/worker/worker.go:426-445 | if each extension commits by the deadline in force, the claim is never reaped, however many steps go by and however old the reaper's list |
| Lease.PunctualIsBeating | internal/worker/worker.go:426-445 | a worker that sends a beat at least every 5 s, each committing in order within 10 s, always extends by the deadline in force |
| Lease.PunctualIsNeverReaped | internal/worker/worker.go:426-445 | so a worker on that schedule never loses its job to the reaper, in any run |
| Lease.SilentClaimIsReaped | internal/storage/storage.go:354-364 | without another beat, whatever else happens, a reaper visit after the deadline ends the claim and leaves a held job pending or dead |
| Lease.ReapedWithin20s | internal/scheduler/scheduler.go:156-188 | in any run without another beat in which the reaper passes every 5 s, the claim is over once the clock is past 15 s + 5 s after the last beat |
| Sweeps.ReapStaleClaims | internal/scheduler/scheduler.go:169-188 | an undisturbed pass turns exactly the claims past their deadline into dead jobs or pending jobs that are in their queue; other rows stay as they are |
| Sweeps.PromoteDeadJobs | internal/scheduler/scheduler.go:203-217 | terminates for any backlog; afterwards every dead job has an entry; old entries are kept, new ones are snapshots |
| Sweeps.EnforceRetention | internal/scheduler/scheduler.go:273-300 | terminates; no pending, scheduled, running or failed job is deleted, no run outlives its job, surviving rows are untouched, and nothing finished or dead-lettered before the cutoff is left |
| Sweeps.PruneFinishedLoop | internal/scheduler/scheduler.go:286-296 | the batch loop over finished jobs ends with none older than the cutoff |
| Sweeps.PruneDeadLoop | internal/scheduler/scheduler.go:286-296 | the batch loop over dead-letter entries ends with none older than the cutoff and brings no finished job back |
| Sweeps.PassPremisesHold | internal/scheduler/scheduler.go:85-105 | what the modelled passes require of tables and queues holds after every run of the system |
| Database.Store.InsertJob | internal/storage/storage.go:49-71 | inserts unless the id or the tenant's idempotency key is taken, and reports which |
| Database.Store.TryClaim | internal/storage/storage.go:113-140 | a pending job becomes running with an open run; anything else is left alone |
| Database.Store.ExtendDeadline | internal/storage/storage.go:191-200 | moves the deadline only under the current token |
| Database.Store.CompleteJob | internal/storage/storage.go:206-225 | is the fenced completion the protocol steps use, on the job and on its run |
| Database.Store.FailJob | internal/storage/storage.go:230-252 | is the fenced failure the protocol steps use: failed with a retry time, or dead |
| Database.Store.PromoteDueScheduled | internal/storage/storage.go:265-279 | releases the first `limit` due scheduled jobs in (priority, run_at) order, and only them |
| Database.Store.PromoteReadyFailed | internal/storage/storage.go:283-297 | the same for failed jobs, whose run_at becomes now |
| Database.Store.GetStaleClaims | internal/storage/storage.go:316-329 | finds exactly the claims past their deadline |
| Database.Store.RequeueStaleJob | internal/storage/storage.go:335-379 | closes open runs; a stale job becomes pending or dead; reports whether it died |
| Database.Store.MoveToDeadLetter | internal/storage/storage.go:384-397 | adds entries for up to `limit` dead jobs that have none |
| Database.Store.CancelJob | internal/storage/storage.go:433-444 | cancels exactly a waiting job of the tenant |
| Database.Store.ReplayJob | internal/storage/storage.go:449-482 | resets exactly a dead job of the tenant and removes its entry |
| Database.Store.ForceFail | cmd/sluice-cli/main.go:102-138 | kills exactly a job that is not terminal, and closes its open runs |
| Database.Store.PruneFinishedJobs | internal/storage/retention.go:17-31 | deletes up to `limit` finished jobs older than the cutoff, with their runs |
| Database.Store.PruneDeadLetter | internal/storage/retention.go:35-49 | deletes up to `limit` entries older than the cutoff, with their dead jobs and runs |
| Ordering.OrderBy | internal/storage/storage.go:516-535 | returns the first `limit` rows of any ranking, in order and without repetition |
| Shuffle.WeightedShuffle | internal/queue/queue.go:353-375 | terminates; the output is the order its draws produce, and a permutation of the tenant ids; the caller's slice is unchanged |
| Shuffle.Select | internal/queue/queue.go:364-372 | the inner loop always selects, and selects the tenant whose weight interval holds the draw |
| Shuffle.FairShare | internal/queue/queue.go:359-368 | exactly weight_i of the `total` possible draws select tenant i |
| Shuffle.OneWinner | internal/queue/queue.go:365-371 | no draw selects two tenants |
| Shuffle.ProducesPermutation | internal/queue/queue.go:351-352 | whatever the draws, the resulting order is a permutation |
| Shuffle.LoadedWeight | internal/worker/worker.go:229-233 | every loaded weight is positive, which the shuffle needs |
| Queues.KeysAreStrict | internal/queue/queue.go:203-209 | a pop lists lanes strictly by priority and each (lane, tenant) pair exactly once |
| Queues.RedisQueue.PushTo | internal/queue/queue.go:86-94 | pushes only if the marker was newly set |
| Queues.RedisQueue.Enqueue | internal/queue/queue.go:126-134 | pushes to the list of the given tenant and the priority's lane |
| Queues.RedisQueue.EnqueueMany | internal/queue/queue.go:144-160 | is the pushes of its entries, in order |
| Queues.RedisQueue.PopScript | internal/queue/queue.go:105-117 | takes the oldest entry of the first nonempty list, drops its marker, and records it for the worker |
| Queues.RedisQueue.Pop | internal/queue/queue.go:193-221 | never returns an entry while a higher lane of the given tenants is nonempty; returns nothing only if all their lists are empty; the entry is in the worker's processing list |
| Queues.RedisQueue.DeadWorkerJobs | internal/queue/queue.go:262-299 | returns exactly the jobs in lists of dead workers and removes those lists; live workers' lists stay |
| Queues.RedisQueue.Drain | cmd/sluice-cli/main.go:321-366 | run alone, empties every list and drops every marker, keeps processing lists, and returns the number of entries drained, also if the scan repeats keys |
| Queues.RedisQueue.RemoveFromProcessing | internal/queue/queue.go:343-349 | removes every copy from that worker's list and nothing else |
| Cluster.PostgresRunsTheProtocol | internal/queue/queue.go:86-117 | whatever Redis does, the database goes through a run of the protocol |
| Cluster.BootKeeps | cmd/sluice-cli/main.go:321-366 | after any run of database, queues, expiry, flush and drain, entries sit in the lists of their own jobs and the marker and ledger invariants hold |
| Cluster.MarkerImpliesEntry | internal/queue/queue.go:86-117 | outside a drain a marker always has its entry, also after a drain that ran to its end amid enqueues and pops |
| Cluster.OneVisitRebuilds | internal/scheduler/scheduler.go:324-340 | from any reachable state outside a drain a pending job is due, and one enqueue leaves it in the list of its own tenant and lane without touching the database |
| Cluster.DuplicateLedger | internal/queue/queue.go:76-94 | without marker deletion by a drain, a job's entries number at most one for its marker plus one per marker expiry, all in its own list |
| Cluster.PoppedIsInHand | internal/queue/queue.go:100-117 | a pop puts its entry in the worker's processing list |
| Cluster.PoppedStaysInHand | internal/queue/queue.go:100-117 | the entry stays there through any steps until the worker reports that job done, its list is dropped, or Redis is flushed |
| Reconcile.GetPendingJobs | internal/storage/storage.go:516-535 | returns the first `limit` jobs due long enough after the cursor in (priority, created_at, id) order, and the cursor of the last |
| Reconcile.ReconcilePending | internal/scheduler/scheduler.go:327-350 | with any change to the table and to the queues between pages: visits in strictly ascending order, so none twice; ends short having visited every job that stayed pending and due, or after 5000; every visited job is queued after its page, and at the end if nobody else touched the queues |
| Reconcile.UnchangedTableVisitsTheFirst | internal/scheduler/scheduler.go:328-346 | on an unchanged table a pass visits exactly the first min(N, 5000) jobs in key order |
| Reconcile.RunsGiveKnownViews | internal/scheduler/scheduler.go:327-350 | any state a run passes through is a view that the paging result accepts |
| Recovery.RecoverDeadWorkerJobs | internal/scheduler/scheduler.go:365-388 | every pending job a dead worker held is back in its own list, and live workers' lists are unchanged |
| Release.ReleaseDue | internal/scheduler/scheduler.go:129-154 | across up to 20 batches jobs leave in (priority, due time) order, up to jobs not yet due at a batch's clock; exactly they become pending and are pushed in that order; a poll that ends short leaves none due |
| PollOrder.FullyOrderedIff | internal/scheduler/scheduler.go:134-153 | a poll is in order as a whole iff each job falling due between two batches it reaches has enough jobs already due ahead of it |
| PollOrder.FitIsOrdered | internal/scheduler/scheduler.go:134-153 | if every such job fits, everything released is in order |
| PollOrder.MisfitBreaksOrder | internal/scheduler/scheduler.go:134-153 | if one does not fit, some released pair is out of order |
| PollOrder.ReachedIsRead | internal/scheduler/scheduler.go:134-153 | a poll reads batch m if and only if enough jobs were due at the clocks before (with `PollOrder.FullBatchesReach`) |
| PollOrder.LateComerGoesLast | internal/scheduler/scheduler.go:134-153 | with a thousand due jobs and one of higher priority due a moment later, every poll whose second batch is read then is out of order |
| Release.ReleaseBatch | internal/scheduler/scheduler.go:135-149 | one batch promotes exactly the first 1000 due jobs and pushes them in the order returned; a short one leaves none due |
| Release.BatchesKeepOrder | internal/storage/storage.go:261-297 | a job goes ahead of any later or unreleased one only if it ranks no later or the other was not due at its batch's clock |
| Release.BatchComesOutInOrder | internal/queue/queue.go:105-117 | draining a list after a batch yields the old entries and then the new ones in push order |
| Release.PollComesOutInOrder | internal/scheduler/scheduler.go:129-154 | draining a tenant lane after a poll yields the old entries and then the new ones, in the order of the poll |
| Backoff.NextRetryAt | internal/job/job.go:74-90 | the base delay is min(3600, backoff * 2^attempt); the jittered delay d has 5 * abs(d - base) at most base and lies between 1 and 4320 |
| Backoff.CapIsFinal | internal/job/job.go:78-83 | stopping the doubling at the cap gives the same base as doubling on |
| Backoff.LaterWaitsLonger | internal/job/job.go:78-88 | the delay ranges of successive attempts are disjoint and increasing iff the earlier base is below 2400 s |
| Backoff.NearCapOverlaps | internal/job/job.go:81-88 | a base of 3000 s, below the cap, may wait as long as the next |
| Worker.RetryRecord | internal/worker/worker.go:404-424 | however often the write is repeated with lost replies, the outcome is recorded once, as its first delivery had it |
| Worker.RecordIsIdempotent | internal/worker/worker.go:404-407 | recording a second time, at any later time, changes nothing |
| Worker.Claim | internal/worker/worker.go:271-283 | claims unless the entry's tenant is at its limit, and leaves the tenant within it; a claim with a lost reply has still been made |
| Worker.Heartbeat | internal/worker/worker.go:426-445 | one extension per beat; the lease runs from the last one and nothing else changes |
| Worker.ReportOf | internal/worker/worker.go:369-387 | the outcome write is a completion, or a failure with a retry time the backoff allows exactly if the claimed attempt has retries left |
| Worker.Process | internal/worker/worker.go:301-402 | an entry that could not be claimed is pushed back to its list; a claimed job ends succeeded, or failed with a retry time the backoff allows iff retries remain, or dead; if no try gets through it stays running under the lease of its last beat; the processing list no longer holds it |
| RateLimit.WindowBound | internal/ratelimit/ratelimit.go:24-40 | whatever came before and other tenants do, a window of d ms admits at most rate + rate * d / 1000 requests |
| RateLimit.SpacedIsAdmitted | internal/ratelimit/ratelimit.go:29-36 | requests spaced so that d * rate is at least 1000 are never refused, for any rates |
| RateLimit.BurstIsAdmitted | internal/ratelimit/ratelimit.go:11-13 | a tenant's first `rate` requests all go through, however close together |
| RateLimit.BucketIsSound | internal/ratelimit/ratelimit.go:28-38 | a bucket is never overdrawn and carries the time of its tenant's last metered request |
| RateLimit.IdleBucketIsFull | internal/ratelimit/ratelimit.go:29-38 | a bucket idle for a second answers like a missing one, at any rate |
| RateLimit.Limiter.Allow | internal/ratelimit/ratelimit.go:44-53 | with the 2000 ms expiry every answer is that of buckets that never expire; a limit of zero or less always admits; tenants are independent |
| TenantCache.Cache.Lookup | internal/api/tenant_cache.go:35-59 | asks the database exactly when there is no fresh entry; returns the entry's or the database's tenant; caches only valid keys, for 10 s; drops a key the database refuses |
| TenantCache.UndisturbedLookup | internal/api/tenant_cache.go:35-59 | the critical sections and the query of one lookup, run alone, have exactly the effect of `Cache.Lookup` |
| TenantCache.ServedIsRecent | internal/api/tenant_cache.go:35-59 | under any interleaving every returned tenant was the database's answer less than 10 s before the check that served it, or later |
| TenantCache.DisabledKeyStops | internal/api/tenant_cache.go:12-14 | a key the database rejects from t on is refused by every lookup whose check is at t + 10 s or later |
| TenantCache.CachedKeysWereValid | internal/api/tenant_cache.go:16-18 | the cache only holds keys that were valid once |
| Cron.NoSecondJob | migrations/000001_init.up.sql:31 | while a job's row is kept, no run creates another job under its tenant and key |
| Cron.GoneForGood | internal/storage/retention.go:13-31 | a deleted job's row never comes back |
| Cron.AtMostOncePerOccurrence | internal/scheduler/scheduler.go:445-486 | while its job is kept an occurrence creates no second one, under two leaders, lost updates and PATCHes that write back an old next_run_at |
| Cron.InsertLeavesOne | internal/scheduler/scheduler.go:466-481 | an insert that gets through leaves exactly one job for its occurrence, and changes nothing if there was one |
| Cron.KeysNameOccurrences | internal/scheduler/scheduler.go:468-469 | in every run two firings share a key exactly when they fire the same occurrence of the same schedule, so no occurrence is mistaken for another |
| Cron.CompletedFireMovesOn | internal/scheduler/scheduler.go:455-484 | a completed fire leaves next_run_at after its own clock iff the schedule's expression occurs again after it, and then at the first such occurrence |
| Cron.NoOccurrenceStaysDue | internal/scheduler/scheduler.go:455-456 | under any calendar in which the 30th of February never occurs, a schedule for it is still due after a completed fire |
| Cron.EditSchedule | internal/api/schedule_handler.go:192-219 | the handler's field-by-field edit, with its recompute flag, changes the requested columns and recomputes next_run_at exactly when the cron or timezone changes or a paused schedule resumes |
| Cron.ResumeSkipsMissed | internal/api/schedule_handler.go:165-219 | an edit that recomputes leaves the schedule due at once iff its new expression has no occurrence left; any other edit keeps next_run_at and the expression and resumes nothing |
| Cron.FireSchedule | internal/scheduler/scheduler.go:445-486 | unless the insert fails a job stands for the occurrence; only a job created here is pushed; next_run_at moves only if the database steps succeeded, and then past the clock iff the expression occurs again |

## Left out

- HTTP handlers, JSON, authentication, WebSocket, metrics, tracing, the dashboard: no protocol of their own.
- Running a webhook, its signature and address filtering: a job's result is a parameter of `Worker.Process`.
- Leader election: any number of schedulers may act, so no property needs it.
- Cron parsing and time zones: a calendar says when an expression occurs in a timezone; that the library stops searching after some years, and so treats a far occurrence as none, is not modelled.
- Postgres below statement level: deadlocks, lock waits and snapshots inside a statement; only the tenant row lock and the row lock of an uncommitted claim are modelled.
- Integer widths: attempts, limits and delays stay far below 32 bits under the validated ranges, so they are unbounded here.
- Partition creation and dropping of `job_runs`: a run row goes only with its job.
- `duration_ms`, payload, type and trace columns: nothing modelled reads them.
- Wake tokens, blocking timeouts, tickers and shutdown: they affect latency only.
- Unconditional liveness of the reconciler: each pass restarts and stops at 5000, so jobs behind a standing head of 5000 need a premise.
- Floating point in the bucket and the jitter: exact rationals and `delay / 5`.
- The worker's throttle list and its refreshed tenant snapshot: limits and tenant lists are parameters.
- Listing endpoints, tenant administration and key generation: the endpoints only read, and the rest is single-row updates no property here depends on.
- Lease.PunctualIsNeverReaped: assumes one clock for workers and database; skew between them is not modelled.
- Lease.ReapedWithin20s: a reaper pass takes no time; one that hangs delays the next.
- Release.ReleaseDue: one poll with no other actor and no error; other actors are covered by the protocol theorems, not by the order.
- Sweeps.ReapStaleClaims: one pass with no other actor and no error; what an old list of claims may do is `Lease.BeatingIsNeverReaped`.
- Worker.Process: no other actor between its steps; interleaved workers are the runs of `Protocol.dfy`.
- Recovery.RecoverDeadWorkerJobs: the set of live workers is read once, and Redis errors, which end a scan early, are not modelled.
- TenantCache.Cache.Lookup: one lookup alone; interleaved lookups are the step system of the same module.
