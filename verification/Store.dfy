/**
 The database as the services use it: each method performs one statement or
 transaction in place, and is proved to be the step that Storage.dfy gives it.
 */
module Database {
  import opened Jobs
  import opened Storage
  import opened Ordering

  function DueRanks(jobs: map<Uuid, Job>, state: JobState, now: Time): map<Uuid, Rank> {
    map id | id in jobs && jobs[id].state == state && jobs[id].runAt <= now ::
      Rank(jobs[id].spec.priority, jobs[id].runAt, 0)
  }

  function Members(ids: seq<Uuid>): set<Uuid> {
    set i | 0 <= i < |ids| :: ids[i]
  }

  /** Any `limit` of the candidates, or all of them if there are fewer: LIMIT without ORDER BY. */
  method Pick(candidates: set<Uuid>, limit: nat) returns (ids: set<Uuid>)
    ensures ids <= candidates && |ids| == if |candidates| < limit then |candidates| else limit
  {
    ids := {};
    var left := candidates;
    while |ids| < limit && left != {}
      invariant ids + left == candidates && ids !! left && |ids| <= limit && |ids| + |left| == |candidates|
      decreases |left|
    {
      var x :| x in left;
      ids, left := ids + {x}, left - {x};
    }
  }

  class Store {
    var jobs: map<Uuid, Job>
    var runs: map<Uuid, Run>
    var dead: map<Uuid, DeadEntry>

    ghost function Tables(): Db
      reads this
    {
      Db(jobs, runs, dead)
    }

    constructor ()
      ensures Tables() == Db(map[], map[], map[])
    {
      jobs, runs, dead := map[], map[], map[];
    }

    method InsertJob(id: Uuid, j: Job) returns (duplicate: bool)
      modifies this
      ensures Tables() == InsertRow(old(Tables()), id, j)
      ensures duplicate <==> id in old(jobs) || KeyTaken(old(Tables()), j.spec.tenant, j.spec.key)
    {
      duplicate := id in jobs ||
                   (j.spec.key.Some? && exists x | x in jobs :: jobs[x].spec.tenant == j.spec.tenant && jobs[x].spec.key == j.spec.key);
      if !duplicate {
        jobs := jobs[id := j];
      }
    }

    method TryClaim(id: Uuid, worker: Uuid, token: Uuid, run: Uuid, now: Time, deadline: Time) returns (claimed: Option<Job>)
      modifies this
      ensures Tables() == ClaimRow(old(Tables()), id, worker, token, run, now, deadline)
      ensures claimed == if IsPending(old(Tables()), id) then Some(jobs[id]) else None
    {
      if id !in jobs || !jobs[id].state.Pending? { return None; }
      var j := jobs[id];
      runs := runs[run := Run(id, j.spec.tenant, j.attempt, now, None, Running, None)];
      j := j.(state := Running, claimedAt := Some(now), claimedBy := Some(worker), token := Some(token), deadline := Some(deadline));
      jobs := jobs[id := j];
      return Some(j);
    }

    method ExtendDeadline(id: Uuid, token: Uuid, deadline: Time)
      modifies this
      ensures Tables() == ExtendRow(old(Tables()), id, token, deadline)
    {
      if id in jobs && InFlight(jobs[id].state) && jobs[id].token == Some(token) {
        jobs := jobs[id := jobs[id].(deadline := Some(deadline))];
      }
    }

    method CompleteJob(id: Uuid, run: Uuid, token: Uuid, now: Time)
      modifies this
      ensures Tables() == CompleteRow(old(Tables()), id, run, token, now)
    {
      if id in jobs && InFlight(jobs[id].state) && jobs[id].token == Some(token) {
        jobs := jobs[id := jobs[id].(state := Succeeded, completedAt := Some(now), token := None, deadline := None)];
        if run in runs && runs[run].job == id {
          runs := runs[run := runs[run].(state := Succeeded, finishedAt := Some(now))];
        }
      }
    }

    method FailJob(id: Uuid, run: Uuid, token: Uuid, err: string, nextRunAt: Option<Time>, now: Time)
      modifies this
      ensures Tables() == FailRow(old(Tables()), id, run, token, err, nextRunAt, now)
    {
      if id in jobs && InFlight(jobs[id].state) && jobs[id].token == Some(token) {
        var j := jobs[id];
        if j.attempt + 1 > j.spec.maxRetries {
          j := j.(state := Dead);
        } else {
          j := j.(state := Failed);
          if nextRunAt.Some? { j := j.(runAt := nextRunAt.value); }
        }
        j := j.(attempt := j.attempt + 1, lastError := Some(err), token := None, deadline := None);
        jobs := jobs[id := j];
        if run in runs && runs[run].job == id {
          runs := runs[run := runs[run].(state := j.state, finishedAt := Some(now), error := Some(err))];
        }
      }
    }

    /** UPDATE ... RETURNING over a selected page, row by row. */
    method Release(page: seq<Uuid>, now: Option<Time>)
      requires forall i | 0 <= i < |page| :: page[i] in jobs
      modifies this`jobs
      ensures now.None? ==> Tables() == PromoteScheduledRows(old(Tables()), Members(page))
      ensures now.Some? ==> Tables() == PromoteFailedRows(old(Tables()), Members(page), now.value)
    {
      var i := 0;
      while i < |page|
        invariant i <= |page| && jobs.Keys == old(jobs).Keys
        invariant forall id | id in jobs ::
                    jobs[id] == if id !in page[..i] then old(jobs)[id]
                                else if now.None? then old(jobs)[id].(state := Pending)
                                else old(jobs)[id].(state := Pending, runAt := now.value)
      {
        var j := jobs[page[i]].(state := Pending);
        if now.Some? { j := j.(runAt := now.value); }
        jobs := jobs[page[i] := j];
        i := i + 1;
      }
      assert page[..i] == page;
    }

    /** Up to `limit` due jobs become pending, returned highest priority and oldest first. */
    method PromoteDueScheduled(limit: nat, now: Time) returns (released: seq<Uuid>)
      modifies this
      ensures IsPage(DueRanks(old(jobs), Scheduled, now), limit, released)
      ensures Tables() == PromoteScheduledRows(old(Tables()), Members(released))
    {
      released := OrderBy(DueRanks(jobs, Scheduled, now), limit);
      Release(released, None);
    }

    method PromoteReadyFailed(limit: nat, now: Time) returns (released: seq<Uuid>)
      modifies this
      ensures IsPage(DueRanks(old(jobs), Failed, now), limit, released)
      ensures Tables() == PromoteFailedRows(old(Tables()), Members(released), now)
    {
      released := OrderBy(DueRanks(jobs, Failed, now), limit);
      Release(released, Some(now));
    }

    method GetStaleClaims(now: Time) returns (ids: set<Uuid>)
      ensures forall id :: id in ids <==> Stale(Tables(), id, now)
    {
      ids := set id | id in jobs && InFlight(jobs[id].state) && jobs[id].deadline.Some? && jobs[id].deadline.value < now;
    }

    /** Closes the open runs, then requeues or kills the job if it is still stale; commits either way. */
    method RequeueStaleJob(id: Uuid, now: Time) returns (isDead: bool)
      modifies this
      ensures Tables() == ReapRow(old(Tables()), id, now)
      ensures isDead <==> Stale(old(Tables()), id, now) && Exhausted(old(jobs)[id])
    {
      runs := map r | r in runs ::
        if runs[r].job == id && runs[r].finishedAt.None?
        then runs[r].(state := Failed, finishedAt := Some(now), error := Some(HEARTBEAT_EXPIRED)) else runs[r];
      isDead := false;
      if id in jobs && InFlight(jobs[id].state) && jobs[id].deadline.Some? && jobs[id].deadline.value < now {
        var j := jobs[id];
        isDead := j.attempt + 1 > j.spec.maxRetries;
        jobs := jobs[id := j.(state := if isDead then Dead else Pending, attempt := j.attempt + 1, token := None,
                              claimedAt := None, claimedBy := None, deadline := None, lastError := Some(HEARTBEAT_EXPIRED))];
      }
    }

    method MoveToDeadLetter(limit: nat, now: Time) returns (n: nat, ghost moved: set<Uuid>)
      modifies this`dead
      ensures (forall id | id in moved :: Unmoved(old(Tables()), id)) && n == |moved|
      ensures Tables() == MoveRows(old(Tables()), moved, now)
      ensures n < limit ==> forall id :: Unmoved(old(Tables()), id) ==> id in moved
    {
      var candidates := set id | id in jobs && jobs[id].state.Dead? && id !in dead;
      var ids := Pick(candidates, limit);
      dead := dead + map id | id in ids && id in jobs && id !in dead :: DeadEntryOf(jobs[id], now);
      n, moved := |ids|, ids;
      if n < limit { FullPick(moved, candidates); }
    }

    method CancelJob(id: Uuid, tenant: Uuid, now: Time) returns (found: bool)
      modifies this
      ensures Tables() == CancelRow(old(Tables()), id, tenant, now)
      ensures found <==> Cancellable(old(Tables()), id, tenant)
    {
      found := id in jobs && jobs[id].spec.tenant == tenant
               && (jobs[id].state.Pending? || jobs[id].state.Scheduled? || jobs[id].state.Failed?);
      if found { jobs := jobs[id := jobs[id].(state := Cancelled, completedAt := Some(now))]; }
    }

    method ReplayJob(id: Uuid, tenant: Uuid, now: Time) returns (found: bool)
      modifies this
      ensures Tables() == ReplayRow(old(Tables()), id, tenant, now)
      ensures found <==> Replayable(old(Tables()), id, tenant)
    {
      found := id in jobs && jobs[id].spec.tenant == tenant && jobs[id].state.Dead?;
      if found {
        jobs := jobs[id := jobs[id].(state := Pending, attempt := 0, runAt := now, lastError := None, token := None,
                                     claimedAt := None, claimedBy := None, deadline := None, completedAt := None)];
        dead := dead - {id};
      }
    }

    method ForceFail(id: Uuid, now: Time) returns (found: bool)
      modifies this
      ensures Tables() == ForceFailRow(old(Tables()), id, now)
      ensures found <==> ForceFailable(old(Tables()), id)
    {
      found := id in jobs && (InFlight(jobs[id].state) || jobs[id].state.Pending? || jobs[id].state.Scheduled? || jobs[id].state.Failed?);
      if found {
        jobs := jobs[id := jobs[id].(state := Dead, lastError := Some(FORCE_FAILED), token := None, deadline := None)];
        runs := map r | r in runs ::
          if runs[r].job == id && runs[r].finishedAt.None?
          then runs[r].(state := Dead, finishedAt := Some(now), error := Some(FORCE_FAILED)) else runs[r];
      }
    }

    method PruneFinishedJobs(cutoff: Time, limit: nat) returns (n: nat, ghost gone: set<Uuid>)
      modifies this
      ensures (forall id | id in gone :: FinishedBefore(old(Tables()), id, cutoff)) && n == |gone|
      ensures Tables() == PruneFinishedRows(old(Tables()), gone)
      ensures n < limit ==> forall id :: FinishedBefore(old(Tables()), id, cutoff) ==> id in gone
    {
      var candidates := set id | id in jobs && (jobs[id].state.Succeeded? || jobs[id].state.Cancelled?)
                                 && jobs[id].completedAt.Some? && jobs[id].completedAt.value < cutoff;
      var doomed := Pick(candidates, limit);
      runs := map r | r in runs && runs[r].job !in doomed :: runs[r];
      jobs := jobs - doomed;
      n, gone := |doomed|, doomed;
      if n < limit { FullPick(gone, candidates); }
    }

    method PruneDeadLetter(cutoff: Time, limit: nat) returns (n: nat, ghost gone: set<Uuid>)
      modifies this
      ensures (forall id | id in gone :: MovedBefore(old(Tables()), id, cutoff)) && n == |gone|
      ensures Tables() == PruneDeadRows(old(Tables()), gone)
      ensures n < limit ==> forall id :: MovedBefore(old(Tables()), id, cutoff) ==> id in gone
    {
      var candidates := set id | id in dead && dead[id].movedAt < cutoff;
      var doomed := Pick(candidates, limit);
      runs := map r | r in runs && runs[r].job !in doomed :: runs[r];
      jobs := map id | id in jobs && !(id in doomed && jobs[id].state.Dead?) :: jobs[id];
      dead := dead - doomed;
      n, gone := |doomed|, doomed;
      if n < limit { FullPick(gone, candidates); }
    }
  }

  /** A pick smaller than its limit left nothing behind. */
  lemma FullPick(ids: set<Uuid>, candidates: set<Uuid>)
    requires ids <= candidates && |ids| == |candidates|
    ensures ids == candidates
  {
    if ids != candidates {
      var x :| x in candidates && x !in ids;
      SubsetIsSmaller(ids, candidates - {x});
    }
  }
}
