/**
 The job ownership protocol as a step system. A step is one SQL statement or
 transaction, sent by any worker, scheduler, operator or client at any time;
 only the concurrency-limited claim is split into its lock, count, claim and
 commit, which interleave with everything else.

 The adversary chooses the actions. A worker may delay, repeat or never send
 any write of any claim it ever made, so a crash, a pause and a lost claim
 reply need no step of their own; any job id may be claimed, so nothing is
 assumed of Redis; and any number of schedulers may act. UUIDs are fresh and
 the clock does not go back. An action that is not enabled leaves the world as
 it is.
 */
module Protocol {
  import opened Jobs
  import opened Storage

  /** What a worker holds after a claim: the row as claimed is its snapshot. */
  datatype Claim = Claim(job: Uuid, token: Uuid, run: Uuid, snapshot: Job)

  datatype Outcome = Completed | FailedAttempt | Reaped | ForceFailed

  datatype Event =
    | Opened(claim: Claim)
    | Closed(job: Uuid, token: Uuid, outcome: Outcome)
    | Reset(job: Uuid)

  /** The history of a run, newest event outermost. */
  datatype Log = Start | Then(past: Log, event: Event)

  /** A TryClaimLimited transaction, holding its tenant's row lock. */
  datatype Tx =
    | Locked(tenant: Uuid, limit: nat)
    | Counted(tenant: Uuid, limit: nat)
    | Staged(tenant: Uuid, limit: nat, job: Uuid)

  /**
   The tables and the clock, the open limited claims, and history: every job
   as submitted, every claim by token, the token of every run, the log, and
   the UUIDs used so far.
   */
  datatype World = World(
    now: Time,
    db: Db,
    txs: map<Uuid, Tx>,
    submitted: map<Uuid, Spec>,
    claims: map<Uuid, Claim>,
    runToken: map<Uuid, Uuid>,
    log: Log,
    used: set<Uuid>)

  const INIT := World(0, Db(map[], map[], map[]), map[], map[], map[], map[], Start, {})

  datatype Action =
    | Tick(elapsed: nat)
    | Submit(id: Uuid, job: Job)
    | TryClaim(id: Uuid, worker: Uuid, token: Uuid, run: Uuid, at: Time)
    | LockTenant(tx: Uuid, tenant: Uuid, limit: nat)
    | CountRunning(tx: Uuid)
    | StageClaim(tx: Uuid, id: Uuid)
    | CommitClaim(tx: Uuid, worker: Uuid, token: Uuid, run: Uuid, at: Time)
    | Rollback(tx: Uuid)
    | Extend(token: Uuid, at: Time)
    | Complete(token: Uuid, at: Time)
    | Fail(token: Uuid, err: string, retryAt: Time, at: Time)
    | PromoteScheduled(ids: set<Uuid>)
    | PromoteFailed(ids: set<Uuid>)
    | Reap(id: Uuid)
    | MoveToDeadLetter(ids: set<Uuid>)
    | Cancel(id: Uuid, tenant: Uuid)
    | Replay(id: Uuid, tenant: Uuid)
    | ForceFail(id: Uuid)
    | PruneFinished(ids: set<Uuid>, cutoff: Time)
    | PruneDead(ids: set<Uuid>, cutoff: Time)

  /** The row lock a staged claim holds until it commits or rolls back. */
  predicate RowLocked(w: World, id: Uuid) {
    exists x | x in w.txs :: w.txs[x].Staged? && w.txs[x].job == id
  }

  predicate TenantLocked(w: World, tenant: Uuid) {
    exists x | x in w.txs :: w.txs[x].tenant == tenant
  }

  function RunningJobs(db: Db, tenant: Uuid): set<Uuid> {
    set id | id in db.jobs && db.jobs[id].spec.tenant == tenant && InFlight(db.jobs[id].state)
  }

  predicate FreshClaim(w: World, token: Uuid, run: Uuid, at: Time) {
    token !in w.used && run !in w.used && token != run && at <= w.now
  }

  function DoSubmit(w: World, id: Uuid, j: Job): World {
    if id in w.submitted || !Fresh(j, w.now) || KeyTaken(w.db, j.spec.tenant, j.spec.key) then w
    else w.(db := InsertRow(w.db, id, j), submitted := w.submitted[id := j.spec])
  }

  /** A claim that commits: a pending job becomes running under a fresh token, with an open run. */
  function DoClaim(w: World, id: Uuid, worker: Uuid, token: Uuid, run: Uuid, at: Time): World {
    if !IsPending(w.db, id) || !FreshClaim(w, token, run, at) then w
    else
      var db := ClaimRow(w.db, id, worker, token, run, at, at + HEARTBEAT_TTL);
      var c := Claim(id, token, run, db.jobs[id]);
      w.(db := db, claims := w.claims[token := c], runToken := w.runToken[run := token],
         log := Then(w.log, Opened(c)), used := w.used + {token, run})
  }

  function DoLock(w: World, tx: Uuid, tenant: Uuid, limit: nat): World {
    if tx in w.txs || TenantLocked(w, tenant) then w
    else w.(txs := w.txs[tx := Locked(tenant, limit)])
  }

  function DoCount(w: World, tx: Uuid): World {
    if tx !in w.txs || !w.txs[tx].Locked? then w
    else if |RunningJobs(w.db, w.txs[tx].tenant)| >= w.txs[tx].limit then w.(txs := w.txs - {tx})
    else w.(txs := w.txs[tx := Counted(w.txs[tx].tenant, w.txs[tx].limit)])
  }

  function DoStage(w: World, tx: Uuid, id: Uuid): World {
    if tx !in w.txs || !w.txs[tx].Counted? then w
    else if !IsPending(w.db, id) || RowLocked(w, id) then w.(txs := w.txs - {tx})
    else w.(txs := w.txs[tx := Staged(w.txs[tx].tenant, w.txs[tx].limit, id)])
  }

  function DoCommit(w: World, tx: Uuid, worker: Uuid, token: Uuid, run: Uuid, at: Time): World {
    if tx !in w.txs || !w.txs[tx].Staged? || !FreshClaim(w, token, run, at) then w
    else DoClaim(w.(txs := w.txs - {tx}), w.txs[tx].job, worker, token, run, at)
  }

  function DoExtend(w: World, token: Uuid, at: Time): World {
    if token !in w.claims || at > w.now then w
    else w.(db := ExtendRow(w.db, w.claims[token].job, token, at + HEARTBEAT_TTL))
  }

  function DoComplete(w: World, token: Uuid, at: Time): World {
    if token !in w.claims || at > w.now then w
    else
      var c := w.claims[token];
      if !Holds(w.db, c.job, token) then w.(db := CompleteRow(w.db, c.job, c.run, token, at))
      else w.(db := CompleteRow(w.db, c.job, c.run, token, at),
              log := Then(w.log, Closed(c.job, token, Completed)))
  }

  /** The worker passes a retry time only if its claim-time snapshot has retries left. */
  function NextRunAt(c: Claim, retryAt: Time): Option<Time> {
    if ShouldRetry(c.snapshot) then Some(retryAt) else None
  }

  function DoFail(w: World, token: Uuid, err: string, retryAt: Time, at: Time): World {
    if token !in w.claims || at > w.now then w
    else
      var c := w.claims[token];
      var db := FailRow(w.db, c.job, c.run, token, err, NextRunAt(c, retryAt), at);
      if !Holds(w.db, c.job, token) then w.(db := db)
      else w.(db := db, log := Then(w.log, Closed(c.job, token, FailedAttempt)))
  }

  function DoReap(w: World, id: Uuid): World {
    var db := ReapRow(w.db, id, w.now);
    if Stale(w.db, id, w.now) && w.db.jobs[id].token.Some? then
      w.(db := db, log := Then(w.log, Closed(id, w.db.jobs[id].token.value, Reaped)))
    else w.(db := db)
  }

  function DoCancel(w: World, id: Uuid, tenant: Uuid): World {
    if RowLocked(w, id) then w else w.(db := CancelRow(w.db, id, tenant, w.now))
  }

  function DoReplay(w: World, id: Uuid, tenant: Uuid): World {
    if !Replayable(w.db, id, tenant) then w
    else w.(db := ReplayRow(w.db, id, tenant, w.now), log := Then(w.log, Reset(id)))
  }

  function DoForceFail(w: World, id: Uuid): World {
    if RowLocked(w, id) || !ForceFailable(w.db, id) then w
    else
      var db := ForceFailRow(w.db, id, w.now);
      if InFlight(w.db.jobs[id].state) && w.db.jobs[id].token.Some? then
        w.(db := db, log := Then(w.log, Closed(id, w.db.jobs[id].token.value, ForceFailed)))
      else w.(db := db)
  }

  function DoMove(w: World, ids: set<Uuid>): World {
    if !(forall id | id in ids :: Unmoved(w.db, id)) then w else w.(db := MoveRows(w.db, ids, w.now))
  }

  function DoPromoteScheduled(w: World, ids: set<Uuid>): World {
    if forall id | id in ids :: DueScheduled(w.db, id, w.now)
    then w.(db := PromoteScheduledRows(w.db, ids)) else w
  }

  function DoPromoteFailed(w: World, ids: set<Uuid>): World {
    if forall id | id in ids :: ReadyFailed(w.db, id, w.now)
    then w.(db := PromoteFailedRows(w.db, ids, w.now)) else w
  }

  function DoPruneFinished(w: World, ids: set<Uuid>, cutoff: Time): World {
    if forall id | id in ids :: FinishedBefore(w.db, id, cutoff)
    then w.(db := PruneFinishedRows(w.db, ids)) else w
  }

  function DoPruneDead(w: World, ids: set<Uuid>, cutoff: Time): World {
    if forall id | id in ids :: MovedBefore(w.db, id, cutoff)
    then w.(db := PruneDeadRows(w.db, ids)) else w
  }

  function Step(w: World, a: Action): World {
    match a
    case Tick(d) => w.(now := w.now + d)
    case Submit(id, j) => DoSubmit(w, id, j)
    case TryClaim(id, worker, token, run, at) =>
      if RowLocked(w, id) then w else DoClaim(w, id, worker, token, run, at)
    case LockTenant(tx, tenant, limit) => DoLock(w, tx, tenant, limit)
    case CountRunning(tx) => DoCount(w, tx)
    case StageClaim(tx, id) => DoStage(w, tx, id)
    case CommitClaim(tx, worker, token, run, at) => DoCommit(w, tx, worker, token, run, at)
    case Rollback(tx) => w.(txs := w.txs - {tx})
    case Extend(token, at) => DoExtend(w, token, at)
    case Complete(token, at) => DoComplete(w, token, at)
    case Fail(token, err, retryAt, at) => DoFail(w, token, err, retryAt, at)
    case Reap(id) => DoReap(w, id)
    case MoveToDeadLetter(ids) => DoMove(w, ids)
    case Cancel(id, tenant) => DoCancel(w, id, tenant)
    case Replay(id, tenant) => DoReplay(w, id, tenant)
    case ForceFail(id) => DoForceFail(w, id)
    case PromoteScheduled(ids) => DoPromoteScheduled(w, ids)
    case PromoteFailed(ids) => DoPromoteFailed(w, ids)
    case PruneFinished(ids, cutoff) => DoPruneFinished(w, ids, cutoff)
    case PruneDead(ids, cutoff) => DoPruneDead(w, ids, cutoff)
  }

  /** The world after a whole run. */
  function Exec(w: World, acts: seq<Action>): World
    decreases |acts|
  {
    if acts == [] then w else Exec(Step(w, acts[0]), acts[1..])
  }

  // ---- readings of the log -------------------------------------------------------

  function TimesClosed(log: Log, token: Uuid): nat {
    match log
    case Start => 0
    case Then(past, e) => TimesClosed(past, token) + if e.Closed? && e.token == token then 1 else 0
  }

  /** The attempt numbers of the runs opened for a job since its last replay, oldest first. */
  function Attempts(log: Log, id: Uuid): seq<nat> {
    match log
    case Start => []
    case Then(past, Opened(c)) => if c.job == id then Attempts(past, id) + [c.snapshot.attempt] else Attempts(past, id)
    case Then(past, Reset(j)) => if j == id then [] else Attempts(past, id)
    case Then(past, Closed(_, _, _)) => Attempts(past, id)
  }

  /** How often a job was charged an attempt (a failure or a reaped claim) since its last replay. */
  function Charges(log: Log, id: Uuid): nat {
    match log
    case Start => 0
    case Then(past, Opened(_)) => Charges(past, id)
    case Then(past, Reset(j)) => if j == id then 0 else Charges(past, id)
    case Then(past, Closed(j, _, o)) =>
      Charges(past, id) + if j == id && (o.FailedAttempt? || o.Reaped?) then 1 else 0
  }

  predicate Logged(log: Log, e: Event) {
    match log
    case Start => false
    case Then(past, e') => e == e' || Logged(past, e)
  }
}
