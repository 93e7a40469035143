/** A worker's handling of one popped entry: claim, run, record the outcome. */
module Worker {
  import opened Jobs
  import opened Storage
  import opened Protocol
  import opened Database
  import opened Queues
  import opened Backoff

  // ---- recording an outcome over a failing connection -------------------------------------------

  datatype Write = Completes | Fails(err: string, nextRunAt: Option<Time>)

  /** How one try of a write went: the reply arrived, only the write did, or neither. */
  datatype Delivery = Acknowledged | ReplyLost | NotDelivered

  datatype Try = Try(now: Time, delivery: Delivery)

  function Recorded(db: Db, id: Uuid, run: Uuid, token: Uuid, write: Write, now: Time): Db {
    match write
    case Completes => CompleteRow(db, id, run, token, now)
    case Fails(err, nextRunAt) => FailRow(db, id, run, token, err, nextRunAt, now)
  }

  /** The first try that reached the database, if any. */
  function FirstDelivered(tries: seq<Try>): Option<Time> {
    if tries == [] then None
    else if !tries[0].delivery.NotDelivered? then Some(tries[0].now)
    else FirstDelivered(tries[1..])
  }

  function AfterTries(db: Db, id: Uuid, run: Uuid, token: Uuid, write: Write, tries: seq<Try>): Db {
    var at := FirstDelivered(tries);
    if at.None? then db else Recorded(db, id, run, token, write, at.value)
  }

  lemma RecordIsIdempotent(db: Db, id: Uuid, run: Uuid, token: Uuid, write: Write, now: Time, later: Time)
    ensures var once := Recorded(db, id, run, token, write, now);
            Recorded(once, id, run, token, write, later) == once
  {
  }

  lemma {:induction false} FirstDeliveredAppends(tries: seq<Try>, t: Try)
    ensures FirstDelivered(tries + [t]) ==
            if FirstDelivered(tries).Some? then FirstDelivered(tries)
            else if t.delivery.NotDelivered? then None else Some(t.now)
    decreases |tries|
  {
    if tries == [] {
      assert tries + [t] == [t];
    } else {
      assert (tries + [t])[1..] == tries[1..] + [t];
      FirstDeliveredAppends(tries[1..], t);
    }
  }

  /** However often a write is repeated, the outcome is recorded once, as its first delivery had it. */
  method RetryRecord(store: Store, id: Uuid, run: Uuid, token: Uuid, write: Write, tries: seq<Try>) returns (ok: bool)
    modifies store
    ensures store.Tables() == AfterTries(old(store.Tables()), id, run, token, write, tries)
    ensures ok ==> FirstDelivered(tries).Some?
    ensures ok <==> exists i :: 0 <= i < |tries| && tries[i].delivery.Acknowledged?
  {
    ghost var start := store.Tables();
    var i := 0;
    while i < |tries|
      invariant i <= |tries| && store.Tables() == AfterTries(start, id, run, token, write, tries[..i])
      invariant forall k | 0 <= k < i :: !tries[k].delivery.Acknowledged?
    {
      var t := tries[i];
      assert tries[..i + 1] == tries[..i] + [t];
      FirstDeliveredAppends(tries[..i], t);
      if FirstDelivered(tries[..i]).Some? {
        RecordIsIdempotent(start, id, run, token, write, FirstDelivered(tries[..i]).value, t.now);
      }
      if !t.delivery.NotDelivered? {
        match write {
          case Completes => store.CompleteJob(id, run, token, t.now);
          case Fails(err, nextRunAt) => store.FailJob(id, run, token, err, nextRunAt, t.now);
        }
      }
      i := i + 1;
      if t.delivery.Acknowledged? {
        PrefixDecides(tries, i);
        return true;
      }
    }
    assert tries[..i] == tries;
    return false;
  }

  lemma {:induction false} PrefixDecides(tries: seq<Try>, i: nat)
    requires i <= |tries| && FirstDelivered(tries[..i]).Some?
    ensures FirstDelivered(tries) == FirstDelivered(tries[..i])
    decreases |tries|
  {
    if tries[0].delivery.NotDelivered? {
      assert tries[..i][1..] == tries[1..][..i - 1];
      PrefixDecides(tries[1..], i - 1);
    }
  }

  // ---- claiming ---------------------------------------------------------------------------------------

  datatype ClaimResult = Won(job: Job) | NotPending | AtLimit | Errored

  function LimitOf(limits: map<Uuid, int>, tenant: Uuid): int {
    if tenant in limits then limits[tenant] else 0
  }

  predicate Blocked(db: Db, limits: map<Uuid, int>, tenant: Uuid) {
    0 < LimitOf(limits, tenant) <= |RunningJobs(db, tenant)|
  }

  /**
   The claim a worker makes for an entry, undisturbed: capped if the entry's tenant
   has a limit. A claim whose reply is lost has still been made.
   */
  method Claim(store: Store, limits: map<Uuid, int>, item: Item, worker: Uuid, token: Uuid, run: Uuid, now: Time, deadline: Time,
               delivery: Delivery) returns (r: ClaimResult)
    modifies store
    ensures var db := old(store.Tables());
            var tenant := item.list.tenant;
            var claims := !delivery.NotDelivered? && !Blocked(db, limits, tenant) && IsPending(db, item.job);
            && store.Tables() == (if claims then ClaimRow(db, item.job, worker, token, run, now, deadline) else db)
            && (r.Errored? <==> !delivery.Acknowledged?)
            && (delivery.Acknowledged? ==> (r.AtLimit? <==> Blocked(db, limits, tenant)) && (r.Won? <==> claims))
            && (r.Won? ==> store.jobs[item.job] == r.job)
            && (claims && LimitOf(limits, tenant) > 0 && store.jobs[item.job].spec.tenant == tenant ==>
                  |RunningJobs(store.Tables(), tenant)| <= LimitOf(limits, tenant))
  {
    ghost var before := store.Tables();
    if delivery.NotDelivered? {
      return Errored;
    }
    var limit := LimitOf(limits, item.list.tenant);
    if limit > 0 {
      var running := |RunningJobs(Db(store.jobs, store.runs, store.dead), item.list.tenant)|;
      if running >= limit {
        return if delivery.ReplyLost? then Errored else AtLimit;
      }
    }
    var claimed := store.TryClaim(item.job, worker, token, run, now, deadline);
    if claimed.None? {
      return if delivery.ReplyLost? then Errored else NotPending;
    }
    OneMoreRunning(before, item, worker, token, run, now, deadline);
    return if delivery.ReplyLost? then Errored else Won(claimed.value);
  }

  lemma OneMoreRunning(db: Db, item: Item, worker: Uuid, token: Uuid, run: Uuid, now: Time, deadline: Time)
    requires IsPending(db, item.job)
    ensures |RunningJobs(ClaimRow(db, item.job, worker, token, run, now, deadline), item.list.tenant)|
            <= |RunningJobs(db, item.list.tenant)| + 1
  {
    var was := RunningJobs(db, item.list.tenant);
    var after := RunningJobs(ClaimRow(db, item.job, worker, token, run, now, deadline), item.list.tenant);
    assert after <= was + {item.job};
    SubsetIsSmaller(after, was + {item.job});
  }

  // ---- one entry, from the pop to the record -------------------------------------------------------------

  /** A failed attempt has its retry `delay` seconds after `now`, a delay the backoff allows. */
  predicate RetryPlanned(spec: Spec, attempt: nat, at: Time, now: Time) {
    var delay := (at - now) / 1000;
    Possible(Base(attempt, spec.backoff), delay) && 1 <= delay <= 4320 && at == now + 1000 * delay
  }

  /** What is left of a job claimed with this spec and attempt, once its outcome has reached the database. */
  predicate Settles(spec: Spec, attempt: nat, j: Job, error: Option<string>, now: Time) {
    && j.spec == spec && j.token.None? && j.deadline.None?
    && (error.None? ==> j.state.Succeeded? && j.attempt == attempt)
    && (error.Some? ==>
          && j.attempt == attempt + 1 && j.lastError == error
          && (j.state.Failed? || j.state.Dead?)
          && (j.state.Failed? <==> attempt < spec.maxRetries)
          && (j.state.Failed? ==> RetryPlanned(spec, attempt, j.runAt, now)))
  }

  /** The write is the one the worker owes for this result of the job. */
  predicate Reports(write: Write, j: Job, error: Option<string>, now: Time) {
    && (write.Completes? <==> error.None?)
    && (write.Fails? ==> write.err == error.value && (write.nextRunAt.Some? <==> ShouldRetry(j)))
    && (write.Fails? && write.nextRunAt.Some? ==> RetryPlanned(j.spec, j.attempt, write.nextRunAt.value, now))
  }

  method ReportOf(j: Job, error: Option<string>, finished: Time) returns (write: Write)
    requires ValidLimits(j.spec)
    ensures Reports(write, j, error, finished)
  {
    if error.None? {
      return Completes;
    }
    var nextRunAt := None;
    if ShouldRetry(j) {
      var draw :| 0 <= draw <= 2 * (Base(j.attempt, j.spec.backoff) / 5);
      var at := NextRetryAt(j.attempt, j.spec.backoff, finished, draw);
      nextRunAt := Some(at);
    }
    return Fails(error.value, nextRunAt);
  }

  lemma OutcomeSettles(db: Db, id: Uuid, run: Uuid, token: Uuid, write: Write, at: Time, error: Option<string>, now: Time)
    requires Holds(db, id, token) && Reports(write, db.jobs[id], error, now)
    ensures var db' := Recorded(db, id, run, token, write, at);
            && db'.jobs == db.jobs[id := db'.jobs[id]]
            && Settles(db.jobs[id].spec, db.jobs[id].attempt, db'.jobs[id], error, now)
  {
  }

  function LastBeat(claimed: Time, beats: seq<Time>): Time {
    if beats == [] then claimed else beats[|beats| - 1]
  }

  /** The row with its lease running from `beat`. */
  function LeasedFrom(j: Job, beat: Time): Job {
    j.(deadline := Some(beat + HEARTBEAT_TTL))
  }

  /** heartbeat: one extension per beat, while the job runs. */
  method Heartbeat(store: Store, id: Uuid, token: Uuid, claimed: Time, beats: seq<Time>)
    requires Holds(store.Tables(), id, token) && store.jobs[id].deadline == Some(claimed + HEARTBEAT_TTL)
    modifies store
    ensures store.runs == old(store.runs) && store.dead == old(store.dead)
    ensures store.jobs == old(store.jobs)[id := LeasedFrom(old(store.jobs)[id], LastBeat(claimed, beats))]
  {
    var i := 0;
    while i < |beats|
      invariant i <= |beats| && store.runs == old(store.runs) && store.dead == old(store.dead)
      invariant store.jobs == old(store.jobs)[id := LeasedFrom(old(store.jobs)[id], LastBeat(claimed, beats[..i]))]
    {
      store.ExtendDeadline(id, token, beats[i] + HEARTBEAT_TTL);
      i := i + 1;
    }
    assert beats[..i] == beats;
  }

  /** A won claim, from its first beat to the record of its outcome. */
  method RunClaimed(store: Store, j: Job, id: Uuid, token: Uuid, run: Uuid, claimed: Time, beats: seq<Time>,
                    error: Option<string>, finished: Time, tries: seq<Try>)
    requires Holds(store.Tables(), id, token) && store.jobs[id] == j && ValidLimits(j.spec)
    requires j.state.Running? && j.deadline == Some(claimed + HEARTBEAT_TTL)
    modifies store
    ensures id in store.jobs && store.jobs == old(store.jobs)[id := store.jobs[id]]
    ensures if FirstDelivered(tries).Some? then Settles(j.spec, j.attempt, store.jobs[id], error, finished)
            else store.jobs[id] == LeasedFrom(j, LastBeat(claimed, beats))
  {
    Heartbeat(store, id, token, claimed, beats);
    var write := ReportOf(j, error, finished);
    ghost var beaten := store.Tables();
    var ok := RetryRecord(store, id, run, token, write, tries);
    ghost var at := FirstDelivered(tries);
    if at.Some? { OutcomeSettles(beaten, id, run, token, write, at.value, error, finished); }
  }

  /**
   process, with no other actor between its steps. `claim` is the fate of the claim,
   `beats` the heartbeats while the job ran, `error` its result, `finished` the clock
   then, and `tries` the fate of each try to record it. A job the worker could not
   claim goes back to its list; one it claimed leaves no entry behind, and is settled
   once a try gets through; until then it stays running under the lease of its last beat.
   */
  method Process(store: Store, queue: RedisQueue, limits: map<Uuid, int>, worker: Uuid, item: Item, token: Uuid, run: Uuid,
                 now: Time, claim: Delivery, beats: seq<Time>, error: Option<string>, finished: Time, tries: seq<Try>)
    returns (r: ClaimResult)
    requires forall id | id in store.jobs :: ValidLimits(store.jobs[id].spec)
    modifies store, queue
    ensures item.job !in InHand(queue.Contents(), worker)
    ensures queue.lists ==
              if r.AtLimit? || r.Errored? then Push(old(queue.Contents()), item.list, item.job).lists else old(queue.lists)
    ensures r.AtLimit? || r.NotPending? || claim.NotDelivered? ==> store.Tables() == old(store.Tables())
    ensures r.Won? ==>
              && IsPending(old(store.Tables()), item.job) && item.job in store.jobs
              && store.jobs == old(store.jobs)[item.job := store.jobs[item.job]]
              && var was, left := old(store.jobs)[item.job], store.jobs[item.job];
                 if FirstDelivered(tries).Some? then Settles(was.spec, was.attempt, left, error, finished)
                 else left.state.Running? && left.token == Some(token) && left.deadline == Some(LastBeat(now, beats) + HEARTBEAT_TTL)
  {
    r := Claim(store, limits, item, worker, token, run, now, now + HEARTBEAT_TTL, claim);
    if r.AtLimit? || r.Errored? {
      queue.Requeue(item);
    }
    if r.Won? {
      RunClaimed(store, r.job, item.job, token, run, now, beats, error, finished, tries);
    }
    queue.RemoveFromProcessing(worker, item.job);
  }
}
