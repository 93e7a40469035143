/**
 The effect of each SQL statement (or transaction) on the tables, as a function
 of the tables before it. `Store` in Store.dfy performs them in place;
 Protocol.dfy interleaves them.
 */
module Storage {
  import opened Jobs

  datatype Db = Db(jobs: map<Uuid, Job>, runs: map<Uuid, Run>, dead: map<Uuid, DeadEntry>)

  // ---- row conditions --------------------------------------------------------

  predicate KeyTaken(db: Db, tenant: Uuid, key: Option<Key>) {
    key.Some? && exists id | id in db.jobs :: db.jobs[id].spec.tenant == tenant && db.jobs[id].spec.key == key
  }

  predicate IsPending(db: Db, id: Uuid) {
    id in db.jobs && db.jobs[id].state.Pending?
  }

  /** The guard of every statement a worker sends under its claim token. */
  predicate Holds(db: Db, id: Uuid, token: Uuid) {
    id in db.jobs && InFlight(db.jobs[id].state) && db.jobs[id].token == Some(token)
  }

  predicate DueScheduled(db: Db, id: Uuid, now: Time) {
    id in db.jobs && db.jobs[id].state.Scheduled? && db.jobs[id].runAt <= now
  }

  predicate ReadyFailed(db: Db, id: Uuid, now: Time) {
    id in db.jobs && db.jobs[id].state.Failed? && db.jobs[id].runAt <= now
  }

  predicate Stale(db: Db, id: Uuid, now: Time) {
    id in db.jobs && InFlight(db.jobs[id].state) && db.jobs[id].deadline.Some? && db.jobs[id].deadline.value < now
  }

  predicate Unmoved(db: Db, id: Uuid) {
    id in db.jobs && db.jobs[id].state.Dead? && id !in db.dead
  }

  predicate Cancellable(db: Db, id: Uuid, tenant: Uuid) {
    && id in db.jobs && db.jobs[id].spec.tenant == tenant
    && (db.jobs[id].state.Pending? || db.jobs[id].state.Scheduled? || db.jobs[id].state.Failed?)
  }

  predicate Replayable(db: Db, id: Uuid, tenant: Uuid) {
    id in db.jobs && db.jobs[id].spec.tenant == tenant && db.jobs[id].state.Dead?
  }

  predicate ForceFailable(db: Db, id: Uuid) {
    id in db.jobs && !db.jobs[id].state.Succeeded? && !db.jobs[id].state.Dead? && !db.jobs[id].state.Cancelled?
  }

  predicate FinishedBefore(db: Db, id: Uuid, cutoff: Time) {
    && id in db.jobs && (db.jobs[id].state.Succeeded? || db.jobs[id].state.Cancelled?)
    && db.jobs[id].completedAt.Some? && db.jobs[id].completedAt.value < cutoff
  }

  predicate MovedBefore(db: Db, id: Uuid, cutoff: Time) {
    id in db.dead && db.dead[id].movedAt < cutoff
  }

  // ---- rows after an update ----------------------------------------------------

  function ClaimedJob(j: Job, worker: Uuid, token: Uuid, at: Time, deadline: Time): Job {
    j.(state := Running, claimedAt := Some(at), claimedBy := Some(worker),
       token := Some(token), deadline := Some(deadline))
  }

  function CompletedJob(j: Job, at: Time): Job {
    j.(state := Succeeded, completedAt := Some(at), token := None, deadline := None)
  }

  predicate Exhausted(j: Job) {
    j.attempt + 1 > j.spec.maxRetries
  }

  function FailedJob(j: Job, err: string, nextRunAt: Option<Time>): Job {
    j.(state := if Exhausted(j) then Dead else Failed,
       runAt := if Exhausted(j) || nextRunAt.None? then j.runAt else nextRunAt.value,
       attempt := j.attempt + 1, lastError := Some(err), token := None, deadline := None)
  }

  function ReapedJob(j: Job): Job {
    j.(state := if Exhausted(j) then Dead else Pending,
       attempt := j.attempt + 1, token := None, claimedAt := None, claimedBy := None,
       deadline := None, lastError := Some(HEARTBEAT_EXPIRED))
  }

  function ReplayedJob(j: Job, now: Time): Job {
    j.(state := Pending, attempt := 0, runAt := now, lastError := None, token := None,
       claimedAt := None, claimedBy := None, deadline := None, completedAt := None)
  }

  function ForceFailedJob(j: Job): Job {
    j.(state := Dead, lastError := Some(FORCE_FAILED), token := None, deadline := None)
  }

  function FinishedRun(r: Run, state: JobState, at: Time, err: Option<string>): Run {
    r.(state := state, finishedAt := Some(at), error := if err.Some? then err else r.error)
  }

  /** UPDATE job_runs ... WHERE job_id = id AND id = run. */
  function FinishRun(runs: map<Uuid, Run>, id: Uuid, run: Uuid, state: JobState, at: Time, err: Option<string>): map<Uuid, Run> {
    if run in runs && runs[run].job == id then runs[run := FinishedRun(runs[run], state, at, err)] else runs
  }

  /** UPDATE job_runs ... WHERE job_id = id AND finished_at IS NULL. */
  function CloseOpenRuns(runs: map<Uuid, Run>, id: Uuid, state: JobState, at: Time, err: string): map<Uuid, Run> {
    map r | r in runs ::
      if runs[r].job == id && runs[r].finishedAt.None? then FinishedRun(runs[r], state, at, Some(err)) else runs[r]
  }

  // ---- statements --------------------------------------------------------------

  function InsertRow(db: Db, id: Uuid, j: Job): Db {
    if id in db.jobs || KeyTaken(db, j.spec.tenant, j.spec.key) then db
    else db.(jobs := db.jobs[id := j])
  }

  /** claimSQL: the job update and the run insert are one statement. */
  function ClaimRow(db: Db, id: Uuid, worker: Uuid, token: Uuid, run: Uuid, at: Time, deadline: Time): Db {
    if !IsPending(db, id) then db
    else
      var j := db.jobs[id];
      db.(jobs := db.jobs[id := ClaimedJob(j, worker, token, at, deadline)],
          runs := db.runs[run := Run(id, j.spec.tenant, j.attempt, at, None, Running, None)])
  }

  function ExtendRow(db: Db, id: Uuid, token: Uuid, deadline: Time): Db {
    if !Holds(db, id, token) then db
    else db.(jobs := db.jobs[id := db.jobs[id].(deadline := Some(deadline))])
  }

  function CompleteRow(db: Db, id: Uuid, run: Uuid, token: Uuid, at: Time): Db {
    if !Holds(db, id, token) then db
    else db.(jobs := db.jobs[id := CompletedJob(db.jobs[id], at)],
             runs := FinishRun(db.runs, id, run, Succeeded, at, None))
  }

  function FailRow(db: Db, id: Uuid, run: Uuid, token: Uuid, err: string, nextRunAt: Option<Time>, at: Time): Db {
    if !Holds(db, id, token) then db
    else
      var j := FailedJob(db.jobs[id], err, nextRunAt);
      db.(jobs := db.jobs[id := j], runs := FinishRun(db.runs, id, run, j.state, at, Some(err)))
  }

  function PromoteScheduledRows(db: Db, ids: set<Uuid>): Db {
    db.(jobs := map id | id in db.jobs :: if id in ids then db.jobs[id].(state := Pending) else db.jobs[id])
  }

  function PromoteFailedRows(db: Db, ids: set<Uuid>, now: Time): Db {
    db.(jobs := map id | id in db.jobs ::
                  if id in ids then db.jobs[id].(state := Pending, runAt := now) else db.jobs[id])
  }

  /** RequeueStaleJob closes the open runs first, and commits that even when no job row matches. */
  function ReapRow(db: Db, id: Uuid, now: Time): Db {
    var closed := db.(runs := CloseOpenRuns(db.runs, id, Failed, now, HEARTBEAT_EXPIRED));
    if !Stale(db, id, now) then closed
    else closed.(jobs := db.jobs[id := ReapedJob(db.jobs[id])])
  }

  function DeadEntryOf(j: Job, now: Time): DeadEntry {
    DeadEntry(j.spec.tenant, now, j.lastError, j.attempt, j)
  }

  /** ON CONFLICT DO NOTHING: an entry already there is kept. */
  function MoveRows(db: Db, ids: set<Uuid>, now: Time): Db {
    db.(dead := db.dead + map id | id in ids && id in db.jobs && id !in db.dead :: DeadEntryOf(db.jobs[id], now))
  }

  function CancelRow(db: Db, id: Uuid, tenant: Uuid, now: Time): Db {
    if !Cancellable(db, id, tenant) then db
    else db.(jobs := db.jobs[id := db.jobs[id].(state := Cancelled, completedAt := Some(now))])
  }

  function ReplayRow(db: Db, id: Uuid, tenant: Uuid, now: Time): Db {
    if !Replayable(db, id, tenant) then db
    else db.(jobs := db.jobs[id := ReplayedJob(db.jobs[id], now)], dead := db.dead - {id})
  }

  function ForceFailRow(db: Db, id: Uuid, now: Time): Db {
    if !ForceFailable(db, id) then db
    else db.(jobs := db.jobs[id := ForceFailedJob(db.jobs[id])],
             runs := CloseOpenRuns(db.runs, id, Dead, now, FORCE_FAILED))
  }

  function WithoutRunsOf(runs: map<Uuid, Run>, ids: set<Uuid>): map<Uuid, Run> {
    map r | r in runs && runs[r].job !in ids :: runs[r]
  }

  function PruneFinishedRows(db: Db, ids: set<Uuid>): Db {
    db.(jobs := db.jobs - ids, runs := WithoutRunsOf(db.runs, ids))
  }

  /** Deletes the entries and their runs, but only those of the named jobs that are dead. */
  function PruneDeadRows(db: Db, ids: set<Uuid>): Db {
    Db(map id | id in db.jobs && !(id in ids && db.jobs[id].state.Dead?) :: db.jobs[id],
       WithoutRunsOf(db.runs, ids),
       db.dead - ids)
  }
}
