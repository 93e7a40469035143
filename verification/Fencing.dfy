/**
 Fencing. The protocol refines a lifecycle in which a job has at most one owner,
 an owner is a token never issued before, and a token ends at most once. So a
 worker that was paused, declared dead or duplicated cannot touch a job after
 it lost it.
 */
module Fencing {
  import opened Jobs
  import opened Storage
  import opened Protocol
  import opened Lifecycle

  // ---- the single-owner lifecycle -----------------------------------------------------

  datatype Phase = Parked | Ready | Owned(token: Uuid) | Finished | Buried

  /** Jobs and their phases, every job ever created, every token with its job, and how tokens ended. */
  datatype Ownership = Ownership(phase: map<Uuid, Phase>, created: set<Uuid>, issued: map<Uuid, Uuid>, ended: map<Uuid, Outcome>)

  const NOTHING := Ownership(map[], {}, map[], map[])

  datatype Deed =
    | Idle
    | Create(id: Uuid, start: Phase)
    | Release(ids: set<Uuid>)
    | Acquire(id: Uuid, token: Uuid)
    | Finish(id: Uuid, token: Uuid, outcome: Outcome, next: Phase)
    | Withdraw(id: Uuid, next: Phase)
    | Revive(id: Uuid)
    | Forget(ids: set<Uuid>)

  /** Where an outcome leaves the job. */
  predicate LeadsTo(outcome: Outcome, next: Phase) {
    match outcome
    case Completed => next.Finished?
    case FailedAttempt => next.Parked? || next.Buried?
    case Reaped => next.Ready? || next.Buried?
    case ForceFailed => next.Buried?
  }

  ghost predicate Allowed(o: Ownership, d: Deed) {
    match d
    case Idle => true
    case Create(id, start) => id !in o.created && (start.Ready? || start.Parked?)
    case Release(ids) => forall id | id in ids :: id in o.phase && o.phase[id].Parked?
    case Acquire(id, token) => id in o.phase && o.phase[id].Ready? && token !in o.issued
    case Finish(id, token, outcome, next) =>
      id in o.phase && o.phase[id] == Owned(token) && token !in o.ended && LeadsTo(outcome, next)
    case Withdraw(id, next) =>
      id in o.phase && (o.phase[id].Ready? || o.phase[id].Parked?) && (next.Finished? || next.Buried?)
    case Revive(id) => id in o.phase && o.phase[id].Buried?
    case Forget(ids) => forall id | id in ids :: id in o.phase && (o.phase[id].Finished? || o.phase[id].Buried?)
  }

  function Apply(o: Ownership, d: Deed): Ownership {
    match d
    case Idle => o
    case Create(id, start) => o.(phase := o.phase[id := start], created := o.created + {id})
    case Release(ids) => o.(phase := map id | id in o.phase :: if id in ids then Ready else o.phase[id])
    case Acquire(id, token) => o.(phase := o.phase[id := Owned(token)], issued := o.issued[token := id])
    case Finish(id, token, outcome, next) =>
      o.(phase := o.phase[id := next], ended := o.ended[token := outcome])
    case Withdraw(id, next) => o.(phase := o.phase[id := next])
    case Revive(id) => o.(phase := o.phase[id := Ready])
    case Forget(ids) => o.(phase := o.phase - ids)
  }

  function ApplyAll(o: Ownership, deeds: seq<Deed>): Ownership
    decreases |deeds|
  {
    if deeds == [] then o else ApplyAll(Apply(o, deeds[0]), deeds[1..])
  }

  ghost predicate Legal(o: Ownership, deeds: seq<Deed>)
    decreases |deeds|
  {
    deeds == [] || (Allowed(o, deeds[0]) && Legal(Apply(o, deeds[0]), deeds[1..]))
  }

  function Finishes(deeds: seq<Deed>, token: Uuid): nat
    decreases |deeds|
  {
    if deeds == [] then 0
    else Finishes(deeds[1..], token) + if deeds[0].Finish? && deeds[0].token == token then 1 else 0
  }

  /** A job that has finished for good: it may be forgotten, but not created or owned again. */
  predicate Over(o: Ownership, id: Uuid) {
    id in o.created && (id in o.phase ==> o.phase[id].Finished?)
  }

  /** Owners are tokens issued for their job that have not ended, and a completed job is over. */
  ghost predicate Sound(o: Ownership) {
    && o.phase.Keys <= o.created
    && o.ended.Keys <= o.issued.Keys
    && (forall id | id in o.phase && o.phase[id].Owned? ::
          o.phase[id].token in o.issued && o.issued[o.phase[id].token] == id && o.phase[id].token !in o.ended)
    && (forall t | t in o.ended && o.ended[t].Completed? :: Over(o, o.issued[t]))
  }

  lemma ApplyKeepsSound(o: Ownership, d: Deed)
    requires Sound(o) && Allowed(o, d)
    ensures Sound(Apply(o, d))
  {
  }

  lemma {:induction false} LegalKeepsSound(o: Ownership, deeds: seq<Deed>)
    requires Sound(o) && Legal(o, deeds)
    ensures Sound(ApplyAll(o, deeds))
    decreases |deeds|
  {
    if deeds != [] {
      ApplyKeepsSound(o, deeds[0]);
      LegalKeepsSound(Apply(o, deeds[0]), deeds[1..]);
    }
  }

  /** In the lifecycle, a token that has ended never ends again, and no token ends twice. */
  lemma {:induction false} FinishesOnce(o: Ownership, deeds: seq<Deed>, token: Uuid)
    requires Sound(o) && Legal(o, deeds)
    ensures Finishes(deeds, token) <= if token in o.ended then 0 else 1
    decreases |deeds|
  {
    if deeds != [] {
      ApplyKeepsSound(o, deeds[0]);
      FinishesOnce(Apply(o, deeds[0]), deeds[1..], token);
    }
  }

  /** An issued token that owns nothing. */
  ghost predicate Loose(o: Ownership, token: Uuid) {
    token in o.issued && forall id | id in o.phase :: o.phase[id] != Owned(token)
  }

  lemma {:induction false} LooseForGood(o: Ownership, deeds: seq<Deed>, token: Uuid)
    requires Legal(o, deeds) && Loose(o, token)
    ensures Loose(ApplyAll(o, deeds), token)
    decreases |deeds|
  {
    if deeds != [] {
      LooseForGood(Apply(o, deeds[0]), deeds[1..], token);
    }
  }

  /** Every token ever issued for a job. */
  function OwnersOf(o: Ownership, id: Uuid): set<Uuid> {
    set t | t in o.issued && o.issued[t] == id
  }

  lemma OverStays(o: Ownership, d: Deed, id: Uuid)
    requires Allowed(o, d) && Over(o, id)
    ensures Over(Apply(o, d), id) && OwnersOf(Apply(o, d), id) == OwnersOf(o, id)
  {
  }

  lemma {:induction false} OverForGood(o: Ownership, deeds: seq<Deed>, id: Uuid)
    requires Legal(o, deeds) && Over(o, id)
    ensures Over(ApplyAll(o, deeds), id) && OwnersOf(ApplyAll(o, deeds), id) == OwnersOf(o, id)
    decreases |deeds|
  {
    if deeds != [] {
      OverStays(o, deeds[0], id);
      OverForGood(Apply(o, deeds[0]), deeds[1..], id);
    }
  }

  // ---- how the protocol maps onto it -------------------------------------------------------

  function PhaseOf(j: Job): Phase {
    if j.token.Some? then Owned(j.token.value)
    else if j.state.Pending? then Ready
    else if j.state.Scheduled? || j.state.Failed? then Parked
    else if j.state.Dead? then Buried
    else Finished
  }

  function Phases(jobs: map<Uuid, Job>): map<Uuid, Phase> {
    map id | id in jobs :: PhaseOf(jobs[id])
  }

  function Ended(log: Log): map<Uuid, Outcome> {
    match log
    case Start => map[]
    case Then(past, Closed(_, t, o)) => Ended(past)[t := o]
    case Then(past, _) => Ended(past)
  }

  function Abstract(w: World): Ownership {
    Ownership(Phases(w.db.jobs), w.submitted.Keys, map t | t in w.claims :: w.claims[t].job, Ended(w.log))
  }

  ghost predicate Simulates(w: World, w': World, d: Deed) {
    Allowed(Abstract(w), d) && Abstract(w') == Apply(Abstract(w), d)
  }

  // ---- forward simulation ----------------------------------------------------------------------

  /** The part of the invariant the simulation rests on. */
  ghost predicate OwnedRows(w: World) {
    && JobsOk(w.now, w.db.jobs, w.submitted)
    && DeadOk(w.now, w.db.jobs, w.db.dead)
    && OwnersOk(w.db.jobs, w.claims, w.log)
    && FreshOk(w)
  }

  lemma {:induction false} EndedIsClosed(log: Log, token: Uuid)
    ensures token in Ended(log) <==> TimesClosed(log, token) > 0
  {
    match log
    case Start =>
    case Then(past, e) => EndedIsClosed(past, token);
  }

  lemma QuietSimulates(w: World, w': World)
    requires w'.claims == w.claims && w'.submitted == w.submitted && w'.log == w.log && w'.db.jobs.Keys == w.db.jobs.Keys
    requires forall id | id in w.db.jobs :: PhaseOf(w'.db.jobs[id]) == PhaseOf(w.db.jobs[id])
    ensures Simulates(w, w', Idle)
  {
    assert Phases(w'.db.jobs) == Phases(w.db.jobs);
  }

  lemma OneRowPhases(jobs: map<Uuid, Job>, id: Uuid, j: Job)
    ensures Phases(jobs[id := j]) == Phases(jobs)[id := PhaseOf(j)]
  {
  }

  lemma EndsSimulates(w: World, w': World, id: Uuid, o: Outcome)
    requires OwnersOk(w.db.jobs, w.claims, w.log) && Ends(w, w', id, o)
    ensures Simulates(w, w', Finish(id, w.db.jobs[id].token.value, o, PhaseOf(w'.db.jobs[id])))
  {
    EndedIsClosed(w.log, w.db.jobs[id].token.value);
    OneRowPhases(w.db.jobs, id, w'.db.jobs[id]);
  }

  lemma ClaimSimulates(w: World, id: Uuid, worker: Uuid, token: Uuid, run: Uuid, at: Time) returns (d: Deed)
    requires OwnedRows(w)
    ensures Simulates(w, DoClaim(w, id, worker, token, run, at), d)
  {
    d := Idle;
    if IsPending(w.db, id) && FreshClaim(w, token, run, at) {
      d := Acquire(id, token);
      OneRowPhases(w.db.jobs, id, DoClaim(w, id, worker, token, run, at).db.jobs[id]);
    }
  }

  lemma ExtendSimulates(w: World, token: Uuid, at: Time)
    ensures Simulates(w, DoExtend(w, token, at), Idle)
  {
    QuietSimulates(w, DoExtend(w, token, at));
  }

  lemma CompleteSimulates(w: World, token: Uuid, at: Time) returns (d: Deed)
    requires Inv(w)
    ensures Simulates(w, DoComplete(w, token, at), d)
  {
    d := Idle;
    if token in w.claims && at <= w.now && Holds(w.db, w.claims[token].job, token) {
      CompleteEnds(w, token, at);
      EndsSimulates(w, DoComplete(w, token, at), w.claims[token].job, Completed);
      d := Finish(w.claims[token].job, token, Completed, PhaseOf(DoComplete(w, token, at).db.jobs[w.claims[token].job]));
    }
  }

  lemma FailSimulates(w: World, token: Uuid, err: string, retryAt: Time, at: Time) returns (d: Deed)
    requires Inv(w)
    ensures Simulates(w, DoFail(w, token, err, retryAt, at), d)
  {
    d := Idle;
    if token in w.claims && at <= w.now && Holds(w.db, w.claims[token].job, token) {
      var w' := DoFail(w, token, err, retryAt, at);
      FailEnds(w, token, err, retryAt, at);
      EndsSimulates(w, w', w.claims[token].job, FailedAttempt);
      d := Finish(w.claims[token].job, token, FailedAttempt, PhaseOf(w'.db.jobs[w.claims[token].job]));
    }
  }

  lemma ReapSimulates(w: World, id: Uuid) returns (d: Deed)
    requires Inv(w)
    ensures Simulates(w, DoReap(w, id), d)
  {
    var w' := DoReap(w, id);
    if Stale(w.db, id, w.now) {
      ReapEnds(w, id);
      EndsSimulates(w, w', id, Reaped);
      d := Finish(id, w.db.jobs[id].token.value, Reaped, PhaseOf(w'.db.jobs[id]));
    } else {
      d := Idle;
    }
  }

  lemma ForceFailSimulates(w: World, id: Uuid) returns (d: Deed)
    requires Inv(w)
    ensures Simulates(w, DoForceFail(w, id), d)
  {
    d := Idle;
    if !RowLocked(w, id) && ForceFailable(w.db, id) {
      var w' := DoForceFail(w, id);
      if w.db.jobs[id].state.Running? {
        ForceFailEnds(w, id);
        EndsSimulates(w, w', id, ForceFailed);
        d := Finish(id, w.db.jobs[id].token.value, ForceFailed, PhaseOf(w'.db.jobs[id]));
      } else {
        OneRowPhases(w.db.jobs, id, w'.db.jobs[id]);
        d := Withdraw(id, Buried);
      }
    }
  }

  lemma CancelSimulates(w: World, id: Uuid, tenant: Uuid) returns (d: Deed)
    requires OwnedRows(w)
    ensures Simulates(w, DoCancel(w, id, tenant), d)
  {
    d := Idle;
    if !RowLocked(w, id) && Cancellable(w.db, id, tenant) {
      OneRowPhases(w.db.jobs, id, DoCancel(w, id, tenant).db.jobs[id]);
      d := Withdraw(id, Finished);
    }
  }

  lemma ReplaySimulates(w: World, id: Uuid, tenant: Uuid) returns (d: Deed)
    requires OwnedRows(w)
    ensures Simulates(w, DoReplay(w, id, tenant), d)
  {
    d := Idle;
    if Replayable(w.db, id, tenant) {
      OneRowPhases(w.db.jobs, id, DoReplay(w, id, tenant).db.jobs[id]);
      d := Revive(id);
    }
  }

  lemma SubmitSimulates(w: World, id: Uuid, j: Job) returns (d: Deed)
    requires OwnedRows(w)
    ensures Simulates(w, DoSubmit(w, id, j), d)
  {
    d := Idle;
    if !(id in w.submitted || !Fresh(j, w.now) || KeyTaken(w.db, j.spec.tenant, j.spec.key)) {
      OneRowPhases(w.db.jobs, id, j);
      d := Create(id, PhaseOf(j));
    }
  }

  lemma PromoteScheduledSimulates(w: World, ids: set<Uuid>) returns (d: Deed)
    requires JobsOk(w.now, w.db.jobs, w.submitted)
    ensures Simulates(w, DoPromoteScheduled(w, ids), d)
  {
    d := Idle;
    if forall id | id in ids :: DueScheduled(w.db, id, w.now) {
      d := Release(ids);
      assert Phases(DoPromoteScheduled(w, ids).db.jobs) == Apply(Abstract(w), d).phase;
    }
  }

  lemma PromoteFailedSimulates(w: World, ids: set<Uuid>) returns (d: Deed)
    requires JobsOk(w.now, w.db.jobs, w.submitted)
    ensures Simulates(w, DoPromoteFailed(w, ids), d)
  {
    d := Idle;
    if forall id | id in ids :: ReadyFailed(w.db, id, w.now) {
      d := Release(ids);
      assert Phases(DoPromoteFailed(w, ids).db.jobs) == Apply(Abstract(w), d).phase;
    }
  }

  lemma RemovalSimulates(w: World, w': World, gone: set<Uuid>)
    requires Removal(w, w', gone)
    requires forall id | id in gone :: id in w.db.jobs && (PhaseOf(w.db.jobs[id]).Finished? || PhaseOf(w.db.jobs[id]).Buried?)
    ensures Simulates(w, w', Forget(gone))
  {
    assert Phases(w'.db.jobs) == Phases(w.db.jobs) - gone;
  }

  lemma PruneFinishedSimulates(w: World, ids: set<Uuid>, cutoff: Time) returns (d: Deed)
    requires JobsOk(w.now, w.db.jobs, w.submitted)
    ensures Simulates(w, DoPruneFinished(w, ids, cutoff), d)
  {
    d := Idle;
    if forall id | id in ids :: FinishedBefore(w.db, id, cutoff) {
      PruneFinishedRemoves(w, ids, cutoff);
      RemovalSimulates(w, DoPruneFinished(w, ids, cutoff), ids);
      d := Forget(ids);
    }
  }

  lemma PruneDeadSimulates(w: World, ids: set<Uuid>, cutoff: Time) returns (d: Deed)
    requires JobsOk(w.now, w.db.jobs, w.submitted) && DeadOk(w.now, w.db.jobs, w.db.dead)
    ensures Simulates(w, DoPruneDead(w, ids, cutoff), d)
  {
    d := Idle;
    if forall id | id in ids :: MovedBefore(w.db, id, cutoff) {
      PruneDeadRemoves(w, ids, cutoff);
      RemovalSimulates(w, DoPruneDead(w, ids, cutoff), ids);
      d := Forget(ids);
    }
  }

  lemma CommitSimulates(w: World, tx: Uuid, worker: Uuid, token: Uuid, run: Uuid, at: Time) returns (d: Deed)
    requires OwnedRows(w)
    ensures Simulates(w, DoCommit(w, tx, worker, token, run, at), d)
  {
    d := Idle;
    if tx in w.txs && w.txs[tx].Staged? && FreshClaim(w, token, run, at) {
      d := ClaimSimulates(w.(txs := w.txs - {tx}), w.txs[tx].job, worker, token, run, at);
    }
  }

  lemma ClaimStepSimulates(w: World, a: Action) returns (d: Deed)
    requires OwnedRows(w) && (a.TryClaim? || a.CommitClaim?)
    ensures Simulates(w, Step(w, a), d)
  {
    d := Idle;
    match a {
      case TryClaim(id, worker, token, run, at) =>
        if !RowLocked(w, id) { d := ClaimSimulates(w, id, worker, token, run, at); }
      case CommitClaim(tx, worker, token, run, at) => d := CommitSimulates(w, tx, worker, token, run, at);
    }
  }

  lemma WorkerSimulates(w: World, a: Action) returns (d: Deed)
    requires Inv(w) && (a.Extend? || a.Complete? || a.Fail?)
    ensures Simulates(w, Step(w, a), d)
  {
    d := Idle;
    match a {
      case Extend(token, at) => ExtendSimulates(w, token, at);
      case Complete(token, at) => d := CompleteSimulates(w, token, at);
      case Fail(token, err, retryAt, at) => d := FailSimulates(w, token, err, retryAt, at);
    }
  }

  lemma PromoteSimulates(w: World, a: Action) returns (d: Deed)
    requires JobsOk(w.now, w.db.jobs, w.submitted) && (a.PromoteScheduled? || a.PromoteFailed?)
    ensures Simulates(w, Step(w, a), d)
  {
    match a {
      case PromoteScheduled(ids) => d := PromoteScheduledSimulates(w, ids);
      case PromoteFailed(ids) => d := PromoteFailedSimulates(w, ids);
    }
  }

  lemma PruneSimulates(w: World, a: Action) returns (d: Deed)
    requires JobsOk(w.now, w.db.jobs, w.submitted) && DeadOk(w.now, w.db.jobs, w.db.dead) && (a.PruneFinished? || a.PruneDead?)
    ensures Simulates(w, Step(w, a), d)
  {
    match a {
      case PruneFinished(ids, cutoff) => d := PruneFinishedSimulates(w, ids, cutoff);
      case PruneDead(ids, cutoff) => d := PruneDeadSimulates(w, ids, cutoff);
    }
  }

  lemma ClientSimulates(w: World, a: Action) returns (d: Deed)
    requires OwnedRows(w) && (a.Submit? || a.Cancel? || a.Replay?)
    ensures Simulates(w, Step(w, a), d)
  {
    match a {
      case Submit(id, j) => d := SubmitSimulates(w, id, j);
      case Cancel(id, tenant) => d := CancelSimulates(w, id, tenant);
      case Replay(id, tenant) => d := ReplaySimulates(w, id, tenant);
    }
  }

  lemma OperatorSimulates(w: World, a: Action) returns (d: Deed)
    requires Inv(w) && (a.Reap? || a.ForceFail?)
    ensures Simulates(w, Step(w, a), d)
  {
    match a {
      case Reap(id) => d := ReapSimulates(w, id);
      case ForceFail(id) => d := ForceFailSimulates(w, id);
    }
  }

  lemma OtherSimulates(w: World, a: Action)
    requires a.Tick? || a.LockTenant? || a.CountRunning? || a.StageClaim? || a.Rollback? || a.MoveToDeadLetter?
    ensures Simulates(w, Step(w, a), Idle)
  {
    QuietSimulates(w, Step(w, a));
  }

  /** Every step of the protocol is a step of the lifecycle. */
  lemma StepSimulates(w: World, a: Action) returns (d: Deed)
    requires Inv(w)
    ensures Simulates(w, Step(w, a), d)
  {
    if a.TryClaim? || a.CommitClaim? {
      d := ClaimStepSimulates(w, a);
    } else if a.Extend? || a.Complete? || a.Fail? {
      d := WorkerSimulates(w, a);
    } else if a.PromoteScheduled? || a.PromoteFailed? {
      d := PromoteSimulates(w, a);
    } else if a.PruneFinished? || a.PruneDead? {
      d := PruneSimulates(w, a);
    } else if a.Submit? || a.Cancel? || a.Replay? {
      d := ClientSimulates(w, a);
    } else if a.Reap? || a.ForceFail? {
      d := OperatorSimulates(w, a);
    } else {
      OtherSimulates(w, a);
      d := Idle;
    }
  }

  // ---- whole runs ----------------------------------------------------------------------------------

  /** Refinement: any run is a legal history of the single-owner lifecycle. */
  lemma {:induction false} ExecSimulates(w: World, acts: seq<Action>) returns (deeds: seq<Deed>)
    requires Inv(w)
    ensures Legal(Abstract(w), deeds) && ApplyAll(Abstract(w), deeds) == Abstract(Exec(w, acts))
    decreases |acts|
  {
    if acts == [] {
      deeds := [];
    } else {
      var d := StepSimulates(w, acts[0]);
      StepKeeps(w, acts[0]);
      var rest := ExecSimulates(Step(w, acts[0]), acts[1..]);
      deeds := [d] + rest;
      assert deeds[1..] == rest;
    }
  }

  lemma RunsRefineLifecycle(acts: seq<Action>)
    ensures exists deeds ::
              && Legal(NOTHING, deeds)
              && ApplyAll(NOTHING, deeds) == Abstract(Exec(INIT, acts))
              && forall token :: Finishes(deeds, token) <= 1
  {
    InitInv();
    var deeds := ExecSimulates(INIT, acts);
    assert Abstract(INIT) == NOTHING;
    forall token ensures Finishes(deeds, token) <= 1 {
      FinishesOnce(Abstract(INIT), deeds, token);
    }
  }

  /** Each claim token gets at most one outcome: complete, fail, reap or force-fail. */
  lemma AtMostOneOutcome(acts: seq<Action>, token: Uuid)
    ensures TimesClosed(Exec(INIT, acts).log, token) <= 1
  {
    InitInv();
    ExecKeeps(INIT, acts);
  }

  lemma {:induction false} LoggedIsEnded(log: Log, id: Uuid, t: Uuid, o: Outcome)
    requires Logged(log, Closed(id, t, o)) && TimesClosed(log, t) <= 1
    ensures t in Ended(log) && Ended(log)[t] == o
  {
    match log
    case Start =>
    case Then(past, e) =>
      if e != Closed(id, t, o) {
        LoggedIsEnded(past, id, t, o);
        EndedIsClosed(past, t);
      }
  }

  /** A job that was completed once is never claimed again, whatever is sent, replayed or pruned afterwards. */
  lemma CompletedNeverRunsAgain(acts: seq<Action>, more: seq<Action>, id: Uuid, token: Uuid)
    requires Logged(Exec(INIT, acts).log, Closed(id, token, Completed))
    ensures var w := Exec(INIT, acts);
            ClaimsOf(Exec(w, more).claims, id) == ClaimsOf(w.claims, id)
  {
    InitInv();
    ExecKeeps(INIT, acts);
    var w := Exec(INIT, acts);
    var deeds := ExecSimulates(INIT, acts);
    assert Abstract(INIT) == NOTHING;
    LegalKeepsSound(NOTHING, deeds);
    LoggedIsEnded(w.log, id, token, Completed);
    LoggedOutcome(w.log, w.claims, w.db.runs, id, token, Completed);
    assert Over(Abstract(w), id);
    var rest := ExecSimulates(w, more);
    OverForGood(Abstract(w), rest, id);
    OwnersAreClaims(w, id);
    OwnersAreClaims(Exec(w, more), id);
  }

  function ClaimsOf(claims: map<Uuid, Claim>, id: Uuid): set<Uuid> {
    set t | t in claims && claims[t].job == id
  }

  lemma OwnersAreClaims(w: World, id: Uuid)
    ensures OwnersOf(Abstract(w), id) == ClaimsOf(w.claims, id)
  {
  }

  lemma LooseWriteIsNoop(w: World, a: Action)
    requires (a.Extend? || a.Complete? || a.Fail?) && Loose(Abstract(w), a.token)
    ensures Step(w, a) == w
  {
    assert forall id | id in w.db.jobs :: Phases(w.db.jobs)[id] != Owned(a.token);
  }

  /** Once a token has lost its job, no later write under it changes anything, whatever happens in between. */
  lemma SupersededForGood(w: World, token: Uuid, acts: seq<Action>, a: Action)
    requires Inv(w) && token in w.claims && !Holds(w.db, w.claims[token].job, token)
    requires (a.Extend? || a.Complete? || a.Fail?) && a.token == token
    ensures Step(Exec(w, acts), a) == Exec(w, acts)
  {
    assert Loose(Abstract(w), token);
    var deeds := ExecSimulates(w, acts);
    LooseForGood(Abstract(w), deeds, token);
    LooseWriteIsNoop(Exec(w, acts), a);
  }

  lemma OutcomeReleases(w: World, a: Action)
    requires (a.Complete? || a.Fail?) && a.token in w.claims && a.at <= w.now
    ensures var w' := Step(w, a);
            w'.claims == w.claims && !Holds(w'.db, w.claims[a.token].job, a.token)
  {
  }

  /** A claim's own outcome write supersedes it, so repeating it (with any arguments) changes nothing. */
  lemma RepeatedOutcomeIsNoop(w: World, a: Action, acts: seq<Action>, again: Action)
    requires Inv(w) && (a.Complete? || a.Fail?) && a.token in w.claims && a.at <= w.now
    requires (again.Complete? || again.Fail?) && again.token == a.token
    ensures var w' := Exec(Step(w, a), acts); Step(w', again) == w'
  {
    var next := Step(w, a);
    assert Inv(next) by { StepKeeps(w, a); }
    assert next.claims == w.claims && !Holds(next.db, w.claims[a.token].job, a.token) by { OutcomeReleases(w, a); }
    SupersededForGood(next, a.token, acts, again);
  }
}
