/**
 The rows of Sluice's tables, and the constants its services share.
 Times are milliseconds on one clock; UUIDs are numbers.
 */
module Jobs {

  datatype Option<+T> = None | Some(value: T)

  type Uuid = nat
  type Time = int

  datatype JobState = Pending | Scheduled | Claimed | Running | Succeeded | Failed | Dead | Cancelled

  /** Idempotency keys: free text from clients, or the key of a cron occurrence. */
  datatype Key = ClientKey(text: string) | OccurrenceKey(schedule: Uuid, second: int)

  /** The columns of a job no statement ever changes. */
  datatype Spec = Spec(
    tenant: Uuid,
    priority: int,
    maxRetries: nat,
    backoff: nat,
    key: Option<Key>,
    createdAt: Time)

  datatype Job = Job(
    spec: Spec,
    state: JobState,
    runAt: Time,
    claimedAt: Option<Time>,
    claimedBy: Option<Uuid>,
    token: Option<Uuid>,
    deadline: Option<Time>,
    attempt: nat,
    lastError: Option<string>,
    completedAt: Option<Time>)

  datatype Run = Run(
    job: Uuid,
    tenant: Uuid,
    attempt: nat,
    startedAt: Time,
    finishedAt: Option<Time>,
    state: JobState,
    error: Option<string>)

  datatype DeadEntry = DeadEntry(
    tenant: Uuid,
    movedAt: Time,
    finalError: Option<string>,
    attemptCount: nat,
    original: Job)

  const HEARTBEAT_TTL := 15_000
  const HEARTBEAT_INTERVAL := 5_000
  const STALE_REAP_INTERVAL := 5_000
  const PENDING_RECONCILE_AGE := 30_000

  const PRIORITY_HIGH := 1
  const PRIORITY_NORMAL := 5
  const PRIORITY_LOW := 10
  const MAX_MAX_RETRIES := 100
  const MAX_BACKOFF_SECONDS := 86_400

  const HEARTBEAT_EXPIRED := "worker heartbeat expired"
  const FORCE_FAILED := "force-failed by operator"

  /** The two states every claim-scoped statement accepts. */
  predicate InFlight(s: JobState) {
    s.Claimed? || s.Running?
  }

  /** A claim-time decision: does a failure of this attempt earn another one? */
  predicate ShouldRetry(j: Job) {
    j.attempt < j.spec.maxRetries
  }

  /** The ranges a job template must satisfy. */
  predicate ValidLimits(s: Spec) {
    && PRIORITY_HIGH <= s.priority <= PRIORITY_LOW
    && s.maxRetries <= MAX_MAX_RETRIES
    && 1 <= s.backoff <= MAX_BACKOFF_SECONDS
  }

  /** A job as a submission or a cron occurrence builds it: pending now, or scheduled for later. */
  predicate Fresh(j: Job, now: Time) {
    && ValidLimits(j.spec)
    && (j.state.Pending? || j.state.Scheduled?)
    && (j.state.Pending? ==> j.runAt <= now)
    && j.claimedAt.None? && j.claimedBy.None? && j.token.None? && j.deadline.None?
    && j.attempt == 0 && j.lastError.None? && j.completedAt.None?
    && j.spec.createdAt <= now
  }

  /** Redis lane of a priority. */
  datatype Lane = High | Normal | Low

  function LaneFor(priority: int): Lane {
    if priority <= PRIORITY_HIGH then High
    else if priority <= PRIORITY_NORMAL then Normal
    else Low
  }

  /** The name of a tenant's list in one lane. */
  datatype ListName = ListName(lane: Lane, tenant: Uuid)

  function Home(s: Spec): ListName {
    ListName(LaneFor(s.priority), s.tenant)
  }

  lemma {:induction false} SubsetIsSmaller<T>(a: set<T>, b: set<T>)
    requires a <= b
    ensures |a| <= |b|
  {
    if a != {} {
      var x :| x in a;
      SubsetIsSmaller(a - {x}, b - {x});
    }
  }
}
