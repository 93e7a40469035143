/** Every step of the protocol is of one of seven kinds, read off the tables and the log. */
module Kinds {
  import opened Jobs
  import opened Storage
  import opened Protocol
  import opened Lifecycle

  datatype Kind =
    | Shifting
    | Extending(token: Uuid, at: Time)
    | Removing(gone: set<Uuid>)
    | Ending(id: Uuid, outcome: Outcome)
    | Opening(claim: Claim)
    | Reviving(id: Uuid)
    | Arriving(id: Uuid)

  /** A pending job becomes running under a token never used before. */
  ghost predicate Opens(w: World, w': World, c: Claim) {
    && IsPending(w.db, c.job) && c.token !in w.used
    && w'.db.jobs == w.db.jobs[c.job := c.snapshot]
    && c.snapshot.state.Running? && c.snapshot.token == Some(c.token) && c.snapshot.spec == w.db.jobs[c.job].spec
    && c.snapshot.attempt == w.db.jobs[c.job].attempt
    && w'.log == Then(w.log, Opened(c))
  }

  /** No lease in force moves. */
  ghost predicate LeasesKept(w: World, w': World) {
    forall id | id in w.db.jobs && id in w'.db.jobs && w.db.jobs[id].token.Some? ::
      w'.db.jobs[id].deadline == w.db.jobs[id].deadline
  }

  /** The job has finished, was cancelled, or is in the dead letter: retention may take it. */
  predicate Disposed(db: Db, id: Uuid) {
    id in db.jobs && (db.jobs[id].state.Succeeded? || db.jobs[id].state.Cancelled? || (db.jobs[id].state.Dead? && id in db.dead))
  }

  ghost predicate Is(w: World, w': World, k: Kind) {
    match k
    case Shifting => Shift(w, w') && LeasesKept(w, w')
    case Extending(token, at) =>
      && Shift(w, w')
      && forall id | id in w.db.jobs ::
           w'.db.jobs[id].deadline ==
             if w.db.jobs[id].token == Some(token) then Some(at + HEARTBEAT_TTL) else w.db.jobs[id].deadline
    case Removing(gone) => Removal(w, w', gone)
    case Ending(id, o) => Ends(w, w', id, o)
    case Opening(c) => Opens(w, w', c)
    case Reviving(id) =>
      && id in w.db.jobs && w.db.jobs[id].state.Dead? && id in w'.db.jobs
      && w'.db.jobs == w.db.jobs[id := w'.db.jobs[id]] && w'.log == Then(w.log, Reset(id))
      && w'.db.jobs[id].state.Pending? && w'.db.jobs[id].token.None? && w'.db.jobs[id].spec == w.db.jobs[id].spec
    case Arriving(id) =>
      && id !in w.db.jobs && id in w'.db.jobs
      && w'.db.jobs == w.db.jobs[id := w'.db.jobs[id]] && w'.log == w.log
      && (w'.db.jobs[id].state.Pending? || w'.db.jobs[id].state.Scheduled?) && w'.db.jobs[id].token.None?
  }

  lemma ClassifyClaim(w: World, id: Uuid, worker: Uuid, token: Uuid, run: Uuid, at: Time) returns (k: Kind)
    ensures Is(w, DoClaim(w, id, worker, token, run, at), k)
    ensures k.Shifting? || (k.Opening? && k.claim.job == id)
  {
    k := Shifting;
    if IsPending(w.db, id) && FreshClaim(w, token, run, at) {
      k := Opening(DoClaim(w, id, worker, token, run, at).claims[token]);
    }
  }

  lemma ClassifyTry(w: World, id: Uuid, worker: Uuid, token: Uuid, run: Uuid, at: Time) returns (k: Kind)
    ensures Is(w, Step(w, TryClaim(id, worker, token, run, at)), k)
    ensures k.Shifting? || (k.Opening? && k.claim.job == id)
  {
    if RowLocked(w, id) {
      SameRowsShift(w, w);
      k := Shifting;
    } else {
      k := ClassifyClaim(w, id, worker, token, run, at);
    }
  }

  lemma ClassifyCommit(w: World, tx: Uuid, worker: Uuid, token: Uuid, run: Uuid, at: Time) returns (k: Kind)
    ensures Is(w, DoCommit(w, tx, worker, token, run, at), k)
    ensures k.Shifting? || (k.Opening? && tx in w.txs && w.txs[tx].Staged? && w.txs[tx].job == k.claim.job)
  {
    k := Shifting;
    if tx in w.txs && w.txs[tx].Staged? && FreshClaim(w, token, run, at) {
      var freed := w.(txs := w.txs - {tx});
      k := ClassifyClaim(freed, w.txs[tx].job, worker, token, run, at);
    } else {
      SameRowsShift(w, w);
    }
  }

  lemma ClassifyClaims(w: World, a: Action) returns (k: Kind)
    requires a.TryClaim? || a.CommitClaim?
    ensures Is(w, Step(w, a), k) && (k.Shifting? || k.Opening?)
    ensures k.Opening? && a.TryClaim? ==> k.claim.job == a.id
    ensures k.Opening? && a.CommitClaim? ==> a.tx in w.txs && w.txs[a.tx].Staged? && w.txs[a.tx].job == k.claim.job
  {
    match a {
      case TryClaim(id, worker, token, run, at) => k := ClassifyTry(w, id, worker, token, run, at);
      case CommitClaim(tx, worker, token, run, at) => k := ClassifyCommit(w, tx, worker, token, run, at);
    }
  }

  lemma ClassifyExtend(w: World, token: Uuid, at: Time) returns (k: Kind)
    requires OwnersOk(w.db.jobs, w.claims, w.log)
    ensures Is(w, DoExtend(w, token, at), k) && (k.Shifting? || k == Extending(token, at))
  {
    k := Shifting;
    if token in w.claims && at <= w.now && Holds(w.db, w.claims[token].job, token) {
      k := Extending(token, at);
    }
  }

  lemma ClassifyComplete(w: World, token: Uuid, at: Time) returns (k: Kind)
    requires Inv(w)
    ensures Is(w, DoComplete(w, token, at), k) && (k.Shifting? || (k.Ending? && k.outcome.Completed?))
  {
    k := Shifting;
    if token in w.claims && at <= w.now && Holds(w.db, w.claims[token].job, token) {
      CompleteEnds(w, token, at);
      k := Ending(w.claims[token].job, Completed);
    } else {
      SameRowsShift(w, w);
    }
  }

  lemma ClassifyFail(w: World, token: Uuid, err: string, retryAt: Time, at: Time) returns (k: Kind)
    requires Inv(w)
    ensures Is(w, DoFail(w, token, err, retryAt, at), k) && (k.Shifting? || (k.Ending? && k.outcome.FailedAttempt?))
  {
    k := Shifting;
    if token in w.claims && at <= w.now && Holds(w.db, w.claims[token].job, token) {
      FailEnds(w, token, err, retryAt, at);
      k := Ending(w.claims[token].job, FailedAttempt);
    } else {
      SameRowsShift(w, w);
    }
  }

  lemma ClassifyWorker(w: World, a: Action) returns (k: Kind)
    requires Inv(w) && (a.Extend? || a.Complete? || a.Fail?)
    ensures Is(w, Step(w, a), k)
    ensures k.Shifting? || (k.Ending? && !k.outcome.Reaped?) || (a.Extend? && k == Extending(a.token, a.at))
  {
    match a {
      case Extend(token, at) => k := ClassifyExtend(w, token, at);
      case Complete(token, at) => k := ClassifyComplete(w, token, at);
      case Fail(token, err, retryAt, at) => k := ClassifyFail(w, token, err, retryAt, at);
    }
  }

  lemma ShiftKeepsLeases(w: World, w': World)
    requires JobsOk(w.now, w.db.jobs, w.submitted) && Shift(w, w')
    requires forall id | id in w.db.jobs && id in w'.db.jobs && w'.db.jobs[id] != w.db.jobs[id] :: w.db.jobs[id].token.None?
    ensures Is(w, w', Shifting)
  {
  }

  lemma ClassifyPromoteScheduled(w: World, ids: set<Uuid>)
    requires JobsOk(w.now, w.db.jobs, w.submitted)
    ensures Is(w, DoPromoteScheduled(w, ids), Shifting)
  {
    if forall id | id in ids :: DueScheduled(w.db, id, w.now) {
      PromoteScheduledShifts(w, ids);
      ShiftKeepsLeases(w, DoPromoteScheduled(w, ids));
    } else {
      SameRowsShift(w, w);
    }
  }

  lemma ClassifyPromoteFailed(w: World, ids: set<Uuid>)
    requires JobsOk(w.now, w.db.jobs, w.submitted)
    ensures Is(w, DoPromoteFailed(w, ids), Shifting)
  {
    if forall id | id in ids :: ReadyFailed(w.db, id, w.now) {
      PromoteFailedShifts(w, ids);
      ShiftKeepsLeases(w, DoPromoteFailed(w, ids));
    } else {
      SameRowsShift(w, w);
    }
  }

  lemma ClassifyPromote(w: World, a: Action)
    requires JobsOk(w.now, w.db.jobs, w.submitted) && (a.PromoteScheduled? || a.PromoteFailed?)
    ensures Is(w, Step(w, a), Shifting)
  {
    match a {
      case PromoteScheduled(ids) => ClassifyPromoteScheduled(w, ids);
      case PromoteFailed(ids) => ClassifyPromoteFailed(w, ids);
    }
  }

  lemma ClassifyPruneFinished(w: World, ids: set<Uuid>, cutoff: Time) returns (k: Kind)
    ensures Is(w, DoPruneFinished(w, ids, cutoff), k) && (k.Shifting? || k.Removing?)
    ensures k.Removing? ==> forall id | id in k.gone :: Disposed(w.db, id)
  {
    if forall id | id in ids :: FinishedBefore(w.db, id, cutoff) {
      PruneFinishedRemoves(w, ids, cutoff);
      k := Removing(ids);
    } else {
      SameRowsShift(w, w);
      k := Shifting;
    }
  }

  lemma ClassifyPruneDead(w: World, ids: set<Uuid>, cutoff: Time) returns (k: Kind)
    requires RowsInv(w)
    ensures Is(w, DoPruneDead(w, ids, cutoff), k) && (k.Shifting? || k.Removing?)
    ensures k.Removing? ==> forall id | id in k.gone :: Disposed(w.db, id)
  {
    if forall id | id in ids :: MovedBefore(w.db, id, cutoff) {
      PruneDeadRemoves(w, ids, cutoff);
      k := Removing(ids);
    } else {
      SameRowsShift(w, w);
      k := Shifting;
    }
  }

  lemma ClassifyPrune(w: World, a: Action) returns (k: Kind)
    requires RowsInv(w) && (a.PruneFinished? || a.PruneDead?)
    ensures Is(w, Step(w, a), k) && (k.Shifting? || k.Removing?)
    ensures k.Removing? ==> forall id | id in k.gone :: Disposed(w.db, id)
  {
    match a {
      case PruneFinished(ids, cutoff) => k := ClassifyPruneFinished(w, ids, cutoff);
      case PruneDead(ids, cutoff) => k := ClassifyPruneDead(w, ids, cutoff);
    }
  }

  lemma ClassifyReap(w: World, id: Uuid) returns (k: Kind)
    requires Inv(w)
    ensures Is(w, DoReap(w, id), k) && (k.Shifting? || (k == Ending(id, Reaped) && Stale(w.db, id, w.now)))
  {
    if Stale(w.db, id, w.now) {
      ReapEnds(w, id);
      k := Ending(id, Reaped);
    } else {
      IdleReapShifts(w, id);
      k := Shifting;
    }
  }

  lemma ClassifyForceFail(w: World, id: Uuid) returns (k: Kind)
    requires Inv(w)
    ensures Is(w, DoForceFail(w, id), k) && (k.Shifting? || k == Ending(id, ForceFailed))
  {
    k := Shifting;
    if !RowLocked(w, id) && ForceFailable(w.db, id) {
      if w.db.jobs[id].state.Running? {
        ForceFailEnds(w, id);
        k := Ending(id, ForceFailed);
      } else {
        IdleForceFailShifts(w, id);
      }
    }
  }

  lemma ClassifySubmit(w: World, id: Uuid, j: Job) returns (k: Kind)
    requires JobsOk(w.now, w.db.jobs, w.submitted)
    ensures Is(w, DoSubmit(w, id, j), k) && (k.Shifting? || k.Arriving?)
  {
    k := Shifting;
    if !(id in w.submitted || !Fresh(j, w.now) || KeyTaken(w.db, j.spec.tenant, j.spec.key)) { k := Arriving(id); }
  }

  lemma ClassifyReplay(w: World, id: Uuid, tenant: Uuid) returns (k: Kind)
    requires JobsOk(w.now, w.db.jobs, w.submitted)
    ensures Is(w, DoReplay(w, id, tenant), k) && (k.Shifting? || k.Reviving?)
  {
    k := Shifting;
    if Replayable(w.db, id, tenant) { k := Reviving(id); }
  }

  lemma ClassifyCancel(w: World, id: Uuid, tenant: Uuid)
    requires JobsOk(w.now, w.db.jobs, w.submitted)
    ensures Is(w, DoCancel(w, id, tenant), Shifting)
  {
    if !RowLocked(w, id) && Cancellable(w.db, id, tenant) { CancelShifts(w, id, tenant); }
  }

  lemma ClassifyClient(w: World, a: Action) returns (k: Kind)
    requires JobsOk(w.now, w.db.jobs, w.submitted) && (a.Submit? || a.Cancel? || a.Replay?)
    ensures Is(w, Step(w, a), k) && (k.Shifting? || k.Reviving? || k.Arriving?)
  {
    k := Shifting;
    match a {
      case Submit(id, j) => k := ClassifySubmit(w, id, j);
      case Cancel(id, tenant) => ClassifyCancel(w, id, tenant);
      case Replay(id, tenant) => k := ClassifyReplay(w, id, tenant);
    }
  }

  lemma SameRowsShift(w: World, w': World)
    requires SameClaims(w, w') && w'.log == w.log && w'.db.jobs == w.db.jobs && w'.db.runs == w.db.runs
    ensures Is(w, w', Shifting)
  {
  }

  lemma QuietShifts(w: World, a: Action)
    requires a.Tick? || a.LockTenant? || a.CountRunning? || a.StageClaim? || a.Rollback? || a.MoveToDeadLetter?
    ensures Is(w, Step(w, a), Shifting)
  {
    SameRowsShift(w, Step(w, a));
  }

  /** Which kind a step is. Only the reaper reaps, and only past the deadline; only claims open. */
  lemma Classify(w: World, a: Action) returns (k: Kind)
    requires Inv(w)
    ensures Is(w, Step(w, a), k)
    ensures k.Ending? && k.outcome.Reaped? ==> Stale(w.db, k.id, w.now)
    ensures k.Removing? ==> forall id | id in k.gone :: Disposed(w.db, id)
    ensures k.Extending? ==> a == Extend(k.token, k.at)
    ensures k.Opening? && a.TryClaim? ==> k.claim.job == a.id
    ensures k.Opening? ==> a.TryClaim? || a.CommitClaim?
    ensures k.Opening? && a.CommitClaim? ==> a.tx in w.txs && w.txs[a.tx].Staged? && w.txs[a.tx].job == k.claim.job
  {
    if a.TryClaim? || a.CommitClaim? {
      k := ClassifyClaims(w, a);
    } else if a.Extend? || a.Complete? || a.Fail? {
      k := ClassifyWorker(w, a);
    } else if a.PruneFinished? || a.PruneDead? {
      k := ClassifyPrune(w, a);
    } else if a.Submit? || a.Cancel? || a.Replay? {
      k := ClassifyClient(w, a);
    } else if a.Reap? {
      k := ClassifyReap(w, a.id);
    } else if a.ForceFail? {
      k := ClassifyForceFail(w, a.id);
    } else if a.PromoteScheduled? || a.PromoteFailed? {
      ClassifyPromote(w, a);
      k := Shifting;
    } else {
      QuietShifts(w, a);
      k := Shifting;
    }
  }
}
