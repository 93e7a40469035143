/**
 What every step of the protocol keeps. `Inv` is inductive, so each of its
 parts holds in every state of every run.
 */
module Lifecycle {
  import opened Jobs
  import opened Storage
  import opened Protocol

  predicate Terminal(s: JobState) {
    s.Succeeded? || s.Cancelled?
  }

  /** One job row. */
  predicate JobOk(now: Time, j: Job) {
    && !j.state.Claimed?
    && (j.state.Running? <==> j.token.Some?)
    && (j.state.Running? <==> j.deadline.Some?)
    && (Terminal(j.state) <==> j.completedAt.Some?)
    && (j.state.Pending? || j.state.Running? ==> j.runAt <= now)
    && (j.state.Running? ==> j.deadline.value <= now + HEARTBEAT_TTL && j.claimedAt.Some? && j.claimedBy.Some?)
    && (j.completedAt.Some? ==> j.completedAt.value <= now)
    && j.attempt <= j.spec.maxRetries + if j.state.Dead? then 1 else 0
  }

  ghost predicate JobsOk(now: Time, jobs: map<Uuid, Job>, submitted: map<Uuid, Spec>) {
    forall id | id in jobs :: JobOk(now, jobs[id]) && id in submitted && jobs[id].spec == submitted[id]
  }

  ghost predicate SubmittedOk(submitted: map<Uuid, Spec>) {
    forall id | id in submitted :: ValidLimits(submitted[id])
  }

  /** A dead-letter entry is the snapshot of a job that is dead now. */
  ghost predicate DeadOk(now: Time, jobs: map<Uuid, Job>, dead: map<Uuid, DeadEntry>) {
    forall id | id in dead ::
      && id in jobs && jobs[id].state.Dead?
      && dead[id] == DeadEntryOf(jobs[id], dead[id].movedAt)
      && dead[id].movedAt <= now
  }

  ghost predicate KeysOk(jobs: map<Uuid, Job>) {
    forall a, b | a in jobs && b in jobs && jobs[a].spec.key.Some?
                  && jobs[a].spec.key == jobs[b].spec.key && jobs[a].spec.tenant == jobs[b].spec.tenant :: a == b
  }

  /** A staged claim still finds its job pending. */
  ghost predicate StagedOk(txs: map<Uuid, Tx>, jobs: map<Uuid, Job>) {
    forall x | x in txs && txs[x].Staged? :: txs[x].job in jobs && jobs[txs[x].job].state.Pending?
  }

  /** At most one limited claim per tenant, and at most one staged claim per job. */
  ghost predicate LocksOk(txs: map<Uuid, Tx>) {
    && (forall x, y | x in txs && y in txs && txs[x].tenant == txs[y].tenant :: x == y)
    && (forall x, y | x in txs && y in txs && txs[x].Staged? && txs[y].Staged? && txs[x].job == txs[y].job :: x == y)
  }

  /** What each row satisfies. */
  ghost predicate RowsInv(w: World) {
    && JobsOk(w.now, w.db.jobs, w.submitted)
    && DeadOk(w.now, w.db.jobs, w.db.dead)
    && StagedOk(w.txs, w.db.jobs)
  }

  /** What holds between rows. */
  ghost predicate UniqueInv(w: World) {
    && SubmittedOk(w.submitted)
    && KeysOk(w.db.jobs)
    && LocksOk(w.txs)
  }

  /** A running job is held under the token of a claim of its own, taken at its current attempt and not yet ended. */
  ghost predicate OwnersOk(jobs: map<Uuid, Job>, claims: map<Uuid, Claim>, log: Log) {
    forall id | id in jobs && jobs[id].token.Some? ::
      var t := jobs[id].token.value;
      && t in claims && claims[t].job == id
      && claims[t].snapshot.attempt == jobs[id].attempt
      && TimesClosed(log, t) == 0
  }

  ghost predicate FreshOk(w: World) {
    w.claims.Keys <= w.used && w.runToken.Keys <= w.used
  }

  ghost predicate ClosedOk(claims: map<Uuid, Claim>, log: Log) {
    forall t :: TimesClosed(log, t) <= if t in claims then 1 else 0
  }

  /** Every claim opened a run of its own, kept as long as its job. */
  ghost predicate ClaimsOk(jobs: map<Uuid, Job>, runs: map<Uuid, Run>, submitted: map<Uuid, Spec>,
                           claims: map<Uuid, Claim>, runToken: map<Uuid, Uuid>) {
    forall t | t in claims ::
      var c := claims[t];
      && c.token == t
      && c.run in runToken && runToken[c.run] == t
      && c.job in submitted && c.snapshot.spec == submitted[c.job]
      && (c.job in jobs ==> c.run in runs)
  }

  /** An open run is the run of its job's current token. */
  ghost predicate RunsOk(jobs: map<Uuid, Job>, runs: map<Uuid, Run>,
                         claims: map<Uuid, Claim>, runToken: map<Uuid, Uuid>) {
    forall r | r in runs ::
      && r in runToken && runToken[r] in claims
      && claims[runToken[r]].run == r
      && claims[runToken[r]].job == runs[r].job
      && claims[runToken[r]].snapshot.attempt == runs[r].attempt
      && runs[r].job in jobs && runs[r].tenant == jobs[runs[r].job].spec.tenant
      && (runs[r].finishedAt.None? ==> jobs[runs[r].job].token == Some(runToken[r]))
  }

  /** Who owns what: tokens, claims and runs. */
  ghost predicate OwnershipInv(w: World) {
    && OwnersOk(w.db.jobs, w.claims, w.log)
    && FreshOk(w)
    && ClosedOk(w.claims, w.log)
    && ClaimsOk(w.db.jobs, w.db.runs, w.submitted, w.claims, w.runToken)
    && RunsOk(w.db.jobs, w.db.runs, w.claims, w.runToken)
  }

  /** How the run row of an ended claim must look. */
  predicate Records(run: Run, o: Outcome) {
    && run.finishedAt.Some?
    && (o.Completed? ==> run.state.Succeeded?)
    && (o.FailedAttempt? ==> (run.state.Failed? || run.state.Dead?) && run.error.Some?)
  }

  /** The run row of every ended claim records how it ended. */
  ghost predicate OutcomesOk(log: Log, claims: map<Uuid, Claim>, runs: map<Uuid, Run>)
  {
    match log
    case Start => true
    case Then(past, e) =>
      && OutcomesOk(past, claims, runs)
      && (e.Closed? ==>
            && e.token in claims && claims[e.token].job == e.job
            && (claims[e.token].run in runs ==> Records(runs[claims[e.token].run], e.outcome)))
  }

  function Iota(k: nat): seq<nat> {
    seq(k, i => i)
  }

  /** The states in which the current attempt has a run but no charge. */
  predicate Started(s: JobState) {
    s.Running? || s.Succeeded?
  }

  /** The runs since the last replay are attempts 0, 1, ..., and the budget bounds them. */
  ghost predicate PastOk(past: seq<nat>, charges: nat, id: Uuid, submitted: map<Uuid, Spec>, jobs: map<Uuid, Job>) {
    if id !in submitted then past == [] && charges == 0
    else
      && past == Iota(|past|)
      && |past| <= submitted[id].maxRetries + 1
      && (id in jobs ==>
            && charges == jobs[id].attempt
            && (Started(jobs[id].state) ==> |past| == jobs[id].attempt + 1)
            && (jobs[id].state.Dead? ==> jobs[id].attempt <= |past| <= jobs[id].attempt + 1)
            && (!Started(jobs[id].state) && !jobs[id].state.Dead? ==> |past| == jobs[id].attempt))
  }

  ghost predicate HistoryInv(w: World) {
    forall id :: PastOk(Attempts(w.log, id), Charges(w.log, id), id, w.submitted, w.db.jobs)
  }

  ghost predicate Inv(w: World) {
    && RowsInv(w)
    && UniqueInv(w)
    && OwnershipInv(w)
    && OutcomesOk(w.log, w.claims, w.db.runs)
    && HistoryInv(w)
  }

  lemma InitInv()
    ensures Inv(INIT)
  {
  }

  // ---- the kinds of step ---------------------------------------------------------

  predicate SameRun(r: Run, r': Run) {
    r.job == r'.job && r.tenant == r'.tenant && r.attempt == r'.attempt && r.startedAt == r'.startedAt
  }

  /** Finished runs are left alone and open ones are at most closed. */
  ghost predicate OnlyCloses(runs: map<Uuid, Run>, runs': map<Uuid, Run>) {
    && runs'.Keys == runs.Keys
    && forall r | r in runs ::
         runs'[r] == runs[r] || (runs[r].finishedAt.None? && runs'[r].finishedAt.Some? && SameRun(runs[r], runs'[r]))
  }

  predicate SameClaims(w: World, w': World) {
    w'.submitted == w.submitted && w'.claims == w.claims && w'.runToken == w.runToken && w'.used == w.used
  }

  predicate KeepsOwner(j: Job, j': Job) {
    && j'.token == j.token && j'.attempt == j.attempt && j'.spec == j.spec
    && (j'.state == j.state || (!Started(j.state) && !j.state.Dead? && !Started(j'.state) && !j'.state.Claimed?))
  }

  /** No claim starts or ends and no attempt is charged; rows may move between waiting states. */
  ghost predicate Shift(w: World, w': World) {
    && SameClaims(w, w') && w'.log == w.log
    && OnlyCloses(w.db.runs, w'.db.runs)
    && w'.db.jobs.Keys == w.db.jobs.Keys
    && forall id | id in w.db.jobs :: KeepsOwner(w.db.jobs[id], w'.db.jobs[id])
  }

  /** Exactly these jobs go, with their runs. */
  ghost predicate Removal(w: World, w': World, gone: set<Uuid>) {
    && SameClaims(w, w') && w'.log == w.log
    && w'.db.jobs == w.db.jobs - gone
    && w'.db.runs == WithoutRunsOf(w.db.runs, gone)
  }

  predicate Charged(o: Outcome) {
    o.FailedAttempt? || o.Reaped?
  }

  predicate EndState(o: Outcome, s: JobState) {
    match o
    case Completed => s.Succeeded?
    case FailedAttempt => s.Failed? || s.Dead?
    case Reaped => s.Pending? || s.Dead?
    case ForceFailed => s.Dead?
  }

  /** The claim holding job `id` ends with outcome `o`, and its run row records it. */
  ghost predicate Ends(w: World, w': World, id: Uuid, o: Outcome) {
    && SameClaims(w, w')
    && id in w.db.jobs && w.db.jobs[id].token.Some?
    && w'.log == Then(w.log, Closed(id, w.db.jobs[id].token.value, o))
    && id in w'.db.jobs && w'.db.jobs == w.db.jobs[id := w'.db.jobs[id]]
    && w'.db.jobs[id].token.None?
    && w'.db.jobs[id].spec == w.db.jobs[id].spec
    && w'.db.jobs[id].attempt == w.db.jobs[id].attempt + (if Charged(o) then 1 else 0)
    && EndState(o, w'.db.jobs[id].state)
    && w'.db.runs.Keys == w.db.runs.Keys
    && w.db.jobs[id].token.value in w.claims
    && var own := w.claims[w.db.jobs[id].token.value].run;
       && (own in w.db.runs ==> Records(w'.db.runs[own], o) && SameRun(w.db.runs[own], w'.db.runs[own]))
       && (forall r | r in w.db.runs && r != own ::
             w'.db.runs[r] == w.db.runs[r] || (w.db.runs[r].finishedAt.None? && w'.db.runs[r].finishedAt.Some? && SameRun(w.db.runs[r], w'.db.runs[r])))
       && (forall r | r in w.db.runs && w.db.runs[r].job == id :: w'.db.runs[r].finishedAt.Some?)
  }

  // ---- each kind of step keeps ownership and history --------------------------------

  lemma {:induction false} OutcomesCarry(log: Log, claims: map<Uuid, Claim>, claims': map<Uuid, Claim>,
                                         runs: map<Uuid, Run>, runs': map<Uuid, Run>)
    requires OutcomesOk(log, claims, runs)
    requires forall t | TimesClosed(log, t) > 0 && t in claims ::
               && t in claims' && claims'[t] == claims[t]
               && (claims[t].run in runs' ==>
                     && claims[t].run in runs
                     && (runs'[claims[t].run] == runs[claims[t].run] || runs[claims[t].run].finishedAt.None?))
    ensures OutcomesOk(log, claims', runs')
  {
    match log
    case Start =>
    case Then(past, e) =>
      OutcomesCarry(past, claims, claims', runs, runs');
  }

  lemma ShiftOwnership(w: World, w': World)
    requires OwnershipInv(w) && HistoryInv(w) && Shift(w, w')
    ensures OwnershipInv(w') && HistoryInv(w')
  {
  }

  lemma ShiftOutcomes(w: World, w': World)
    requires OutcomesOk(w.log, w.claims, w.db.runs) && Shift(w, w')
    ensures OutcomesOk(w'.log, w'.claims, w'.db.runs)
  {
    OutcomesCarry(w.log, w.claims, w.claims, w.db.runs, w'.db.runs);
  }

  lemma RemovalKeeps(w: World, w': World, gone: set<Uuid>)
    requires OwnershipInv(w) && OutcomesOk(w.log, w.claims, w.db.runs) && HistoryInv(w) && Removal(w, w', gone)
    ensures OwnershipInv(w') && OutcomesOk(w'.log, w'.claims, w'.db.runs) && HistoryInv(w')
  {
    OutcomesCarry(w.log, w.claims, w.claims, w.db.runs, w'.db.runs);
  }

  lemma EndsOwners(w: World, w': World, id: Uuid, o: Outcome)
    requires OwnersOk(w.db.jobs, w.claims, w.log) && ClosedOk(w.claims, w.log) && Ends(w, w', id, o)
    ensures OwnersOk(w'.db.jobs, w'.claims, w'.log) && ClosedOk(w'.claims, w'.log)
  {
  }

  lemma EndsRuns(w: World, w': World, id: Uuid, o: Outcome)
    requires OwnershipInv(w) && Ends(w, w', id, o)
    ensures ClaimsOk(w'.db.jobs, w'.db.runs, w'.submitted, w'.claims, w'.runToken)
    ensures RunsOk(w'.db.jobs, w'.db.runs, w'.claims, w'.runToken)
  {
  }

  lemma EndsOwnership(w: World, w': World, id: Uuid, o: Outcome)
    requires OwnershipInv(w) && Ends(w, w', id, o)
    ensures OwnershipInv(w')
  {
    EndsOwners(w, w', id, o);
    EndsRuns(w, w', id, o);
  }

  lemma EndsHistory(w: World, w': World, id: Uuid, o: Outcome)
    requires JobsOk(w.now, w.db.jobs, w.submitted) && HistoryInv(w) && Ends(w, w', id, o)
    ensures HistoryInv(w')
  {
  }

  lemma EndsOutcomes(w: World, w': World, id: Uuid, o: Outcome)
    requires OwnershipInv(w) && OutcomesOk(w.log, w.claims, w.db.runs) && Ends(w, w', id, o)
    ensures OutcomesOk(w'.log, w'.claims, w'.db.runs)
  {
    OutcomesCarry(w.log, w.claims, w.claims, w.db.runs, w'.db.runs);
  }

  lemma ClaimRuns(w: World, w': World, c: Claim)
    requires ClaimsOk(w.db.jobs, w.db.runs, w.submitted, w.claims, w.runToken)
    requires RunsOk(w.db.jobs, w.db.runs, w.claims, w.runToken)
    requires c.job in w.db.jobs && c.job in w.submitted && c.snapshot.spec == w.submitted[c.job] == w.db.jobs[c.job].spec
    requires w.db.jobs[c.job].token.None? && c.snapshot.token == Some(c.token)
    requires c.token !in w.claims && c.run !in w.runToken
    requires w'.db.jobs == w.db.jobs[c.job := c.snapshot] && w'.submitted == w.submitted
    requires c.run in w'.db.runs && w'.db.runs == w.db.runs[c.run := w'.db.runs[c.run]]
    requires var r := w'.db.runs[c.run]; r.job == c.job && r.tenant == c.snapshot.spec.tenant && r.attempt == c.snapshot.attempt
    requires w'.claims == w.claims[c.token := c] && w'.runToken == w.runToken[c.run := c.token]
    ensures ClaimsOk(w'.db.jobs, w'.db.runs, w'.submitted, w'.claims, w'.runToken)
    ensures RunsOk(w'.db.jobs, w'.db.runs, w'.claims, w'.runToken)
  {
  }

  lemma ClaimOwners(w: World, w': World, c: Claim)
    requires OwnersOk(w.db.jobs, w.claims, w.log) && ClosedOk(w.claims, w.log) && c.token !in w.claims
    requires w'.db.jobs == w.db.jobs[c.job := c.snapshot] && c.snapshot.token == Some(c.token)
    requires w'.claims == w.claims[c.token := c] && w'.log == Then(w.log, Opened(c))
    ensures OwnersOk(w'.db.jobs, w'.claims, w'.log) && ClosedOk(w'.claims, w'.log)
  {
    assert TimesClosed(w.log, c.token) == 0;
  }

  lemma ClaimOwnership(w: World, id: Uuid, worker: Uuid, token: Uuid, run: Uuid, at: Time)
    requires JobsOk(w.now, w.db.jobs, w.submitted) && OwnershipInv(w)
    requires IsPending(w.db, id) && FreshClaim(w, token, run, at)
    ensures OwnershipInv(DoClaim(w, id, worker, token, run, at))
  {
    var w' := DoClaim(w, id, worker, token, run, at);
    var c := Claim(id, token, run, w'.db.jobs[id]);
    ClaimOwners(w, w', c);
    ClaimRuns(w, w', c);
  }

  lemma ClaimHistory(w: World, id: Uuid, worker: Uuid, token: Uuid, run: Uuid, at: Time)
    requires JobsOk(w.now, w.db.jobs, w.submitted) && HistoryInv(w)
    requires IsPending(w.db, id) && FreshClaim(w, token, run, at)
    ensures HistoryInv(DoClaim(w, id, worker, token, run, at))
  {
  }

  lemma ClaimOutcomes(w: World, id: Uuid, worker: Uuid, token: Uuid, run: Uuid, at: Time)
    requires OwnershipInv(w) && OutcomesOk(w.log, w.claims, w.db.runs)
    requires IsPending(w.db, id) && FreshClaim(w, token, run, at)
    ensures var w' := DoClaim(w, id, worker, token, run, at); OutcomesOk(w'.log, w'.claims, w'.db.runs)
  {
    var w' := DoClaim(w, id, worker, token, run, at);
    OutcomesCarry(w.log, w.claims, w'.claims, w.db.runs, w'.db.runs);
  }

  lemma ReplayKeeps(w: World, id: Uuid, tenant: Uuid)
    requires Inv(w) && Replayable(w.db, id, tenant)
    ensures var w' := DoReplay(w, id, tenant);
            OwnershipInv(w') && OutcomesOk(w'.log, w'.claims, w'.db.runs) && HistoryInv(w')
  {
  }

  lemma SubmitKeeps(w: World, id: Uuid, j: Job)
    requires Inv(w)
    ensures var w' := DoSubmit(w, id, j);
            OwnershipInv(w') && OutcomesOk(w'.log, w'.claims, w'.db.runs) && HistoryInv(w')
  {
  }

  // ---- which kind of step each action is ----------------------------------------------

  lemma CompleteEnds(w: World, token: Uuid, at: Time)
    requires OwnershipInv(w) && token in w.claims && at <= w.now && Holds(w.db, w.claims[token].job, token)
    ensures Ends(w, DoComplete(w, token, at), w.claims[token].job, Completed)
  {
  }

  lemma FailEnds(w: World, token: Uuid, err: string, retryAt: Time, at: Time)
    requires OwnershipInv(w) && token in w.claims && at <= w.now && Holds(w.db, w.claims[token].job, token)
    ensures Ends(w, DoFail(w, token, err, retryAt, at), w.claims[token].job, FailedAttempt)
  {
  }

  lemma ReapEnds(w: World, id: Uuid)
    requires OwnershipInv(w) && Stale(w.db, id, w.now) && w.db.jobs[id].token.Some?
    ensures Ends(w, DoReap(w, id), id, Reaped)
  {
  }

  lemma IdleReapShifts(w: World, id: Uuid)
    requires !Stale(w.db, id, w.now)
    ensures Shift(w, DoReap(w, id))
  {
  }

  lemma ForceFailEnds(w: World, id: Uuid)
    requires OwnershipInv(w) && !RowLocked(w, id)
    requires ForceFailable(w.db, id) && w.db.jobs[id].state.Running? && w.db.jobs[id].token.Some?
    ensures Ends(w, DoForceFail(w, id), id, ForceFailed)
  {
  }

  lemma IdleForceFailShifts(w: World, id: Uuid)
    requires ForceFailable(w.db, id) && !InFlight(w.db.jobs[id].state) && w.db.jobs[id].token.None?
    ensures Shift(w, DoForceFail(w, id))
  {
  }

  lemma PruneFinishedRemoves(w: World, ids: set<Uuid>, cutoff: Time)
    requires forall id | id in ids :: FinishedBefore(w.db, id, cutoff)
    ensures Removal(w, DoPruneFinished(w, ids, cutoff), ids)
  {
  }

  lemma PruneDeadRemoves(w: World, ids: set<Uuid>, cutoff: Time)
    requires DeadOk(w.now, w.db.jobs, w.db.dead) && forall id | id in ids :: MovedBefore(w.db, id, cutoff)
    ensures Removal(w, DoPruneDead(w, ids, cutoff), ids)
  {
  }

  lemma PromoteScheduledShifts(w: World, ids: set<Uuid>)
    requires forall id | id in ids :: DueScheduled(w.db, id, w.now)
    ensures Shift(w, DoPromoteScheduled(w, ids))
  {
  }

  lemma PromoteFailedShifts(w: World, ids: set<Uuid>)
    requires forall id | id in ids :: ReadyFailed(w.db, id, w.now)
    ensures Shift(w, DoPromoteFailed(w, ids))
  {
  }

  // ---- the tables ------------------------------------------------------------------------

  /** Rows may change or go as long as each stays well formed and dead-lettered and locked ones are left alone. */
  ghost predicate RowsSafe(w: World, w': World) {
    && w.now <= w'.now && w'.submitted == w.submitted
    && (forall id | id in w'.db.jobs ::
          id in w.db.jobs && w'.db.jobs[id].spec == w.db.jobs[id].spec && JobOk(w'.now, w'.db.jobs[id]))
    && (forall id | id in w'.db.dead ::
          id in w.db.dead && w'.db.dead[id] == w.db.dead[id] && id in w'.db.jobs && w'.db.jobs[id] == w.db.jobs[id])
    && (forall x | x in w'.txs ::
          && x in w.txs && w'.txs[x] == w.txs[x]
          && (w.txs[x].Staged? ==> w.txs[x].job in w'.db.jobs && w'.db.jobs[w.txs[x].job].state.Pending?))
  }

  lemma RowsSafeKeeps(w: World, w': World)
    requires RowsInv(w) && UniqueInv(w) && RowsSafe(w, w')
    ensures RowsInv(w') && UniqueInv(w')
  {
  }

  /** One row changes to a well-formed one; it is not dead-lettered afterwards and not locked. */
  lemma OneRowSafe(w: World, w': World, id: Uuid)
    requires RowsInv(w)
    requires w'.now == w.now && w'.submitted == w.submitted && w'.txs == w.txs
    requires id in w.db.jobs && id in w'.db.jobs && w'.db.jobs == w.db.jobs[id := w'.db.jobs[id]]
    requires w'.db.jobs[id].spec == w.db.jobs[id].spec && JobOk(w.now, w'.db.jobs[id])
    requires w'.db.dead == w.db.dead - {id} || (w'.db.dead == w.db.dead && !w.db.jobs[id].state.Dead?)
    requires w.db.jobs[id].state.Pending? ==> !RowLocked(w, id)
    ensures RowsSafe(w, w')
  {
  }

  lemma ExtendRows(w: World, token: Uuid, at: Time)
    requires RowsInv(w) && token in w.claims && at <= w.now && Holds(w.db, w.claims[token].job, token)
    ensures RowsSafe(w, DoExtend(w, token, at))
  {
    OneRowSafe(w, DoExtend(w, token, at), w.claims[token].job);
  }

  lemma CompleteRows(w: World, token: Uuid, at: Time)
    requires RowsInv(w) && token in w.claims && at <= w.now && Holds(w.db, w.claims[token].job, token)
    ensures RowsSafe(w, DoComplete(w, token, at))
  {
    OneRowSafe(w, DoComplete(w, token, at), w.claims[token].job);
  }

  lemma FailRows(w: World, token: Uuid, err: string, retryAt: Time, at: Time)
    requires RowsInv(w) && token in w.claims && at <= w.now && Holds(w.db, w.claims[token].job, token)
    ensures RowsSafe(w, DoFail(w, token, err, retryAt, at))
  {
    OneRowSafe(w, DoFail(w, token, err, retryAt, at), w.claims[token].job);
  }

  lemma ReapRows(w: World, id: Uuid)
    requires RowsInv(w) && Stale(w.db, id, w.now)
    ensures RowsSafe(w, DoReap(w, id))
  {
    OneRowSafe(w, DoReap(w, id), id);
  }

  lemma CancelRows(w: World, id: Uuid, tenant: Uuid)
    requires RowsInv(w) && !RowLocked(w, id) && Cancellable(w.db, id, tenant)
    ensures RowsSafe(w, DoCancel(w, id, tenant))
  {
    OneRowSafe(w, DoCancel(w, id, tenant), id);
  }

  lemma ReplayRows(w: World, id: Uuid, tenant: Uuid)
    requires RowsInv(w) && Replayable(w.db, id, tenant)
    ensures RowsSafe(w, DoReplay(w, id, tenant))
  {
    OneRowSafe(w, DoReplay(w, id, tenant), id);
  }

  lemma ForceFailRows(w: World, id: Uuid)
    requires RowsInv(w) && !RowLocked(w, id) && ForceFailable(w.db, id)
    ensures RowsSafe(w, DoForceFail(w, id))
  {
    OneRowSafe(w, DoForceFail(w, id), id);
  }

  lemma ClaimRows(w: World, id: Uuid, worker: Uuid, token: Uuid, run: Uuid, at: Time)
    requires RowsInv(w) && !RowLocked(w, id) && IsPending(w.db, id) && FreshClaim(w, token, run, at)
    ensures RowsSafe(w, DoClaim(w, id, worker, token, run, at))
  {
    OneRowSafe(w, DoClaim(w, id, worker, token, run, at), id);
  }

  lemma CancelShifts(w: World, id: Uuid, tenant: Uuid)
    requires Cancellable(w.db, id, tenant)
    ensures Shift(w, DoCancel(w, id, tenant))
  {
  }

  lemma PromoteScheduledRowsSafe(w: World, ids: set<Uuid>)
    requires RowsInv(w) && forall id | id in ids :: DueScheduled(w.db, id, w.now)
    ensures RowsSafe(w, DoPromoteScheduled(w, ids))
  {
  }

  lemma PromoteFailedRowsSafe(w: World, ids: set<Uuid>)
    requires RowsInv(w) && forall id | id in ids :: ReadyFailed(w.db, id, w.now)
    ensures RowsSafe(w, DoPromoteFailed(w, ids))
  {
  }

  lemma PruneFinishedRowsSafe(w: World, ids: set<Uuid>, cutoff: Time)
    requires RowsInv(w) && forall id | id in ids :: FinishedBefore(w.db, id, cutoff)
    ensures RowsSafe(w, DoPruneFinished(w, ids, cutoff))
  {
  }

  lemma PruneDeadRowsSafe(w: World, ids: set<Uuid>, cutoff: Time)
    requires RowsInv(w) && forall id | id in ids :: MovedBefore(w.db, id, cutoff)
    ensures RowsSafe(w, DoPruneDead(w, ids, cutoff))
  {
  }

  lemma LockTables(w: World, tx: Uuid, tenant: Uuid, limit: nat)
    requires StagedOk(w.txs, w.db.jobs) && LocksOk(w.txs)
    ensures var txs := DoLock(w, tx, tenant, limit).txs; StagedOk(txs, w.db.jobs) && LocksOk(txs)
  {
  }

  lemma FewerTxs(txs: map<Uuid, Tx>, jobs: map<Uuid, Job>, tx: Uuid)
    requires StagedOk(txs, jobs) && LocksOk(txs)
    ensures StagedOk(txs - {tx}, jobs) && LocksOk(txs - {tx})
  {
  }

  lemma CountedTx(txs: map<Uuid, Tx>, jobs: map<Uuid, Job>, tx: Uuid)
    requires StagedOk(txs, jobs) && LocksOk(txs) && tx in txs
    ensures var txs' := txs[tx := Counted(txs[tx].tenant, txs[tx].limit)]; StagedOk(txs', jobs) && LocksOk(txs')
  {
  }

  lemma CountTables(w: World, tx: Uuid)
    requires StagedOk(w.txs, w.db.jobs) && LocksOk(w.txs)
    ensures var txs := DoCount(w, tx).txs; StagedOk(txs, w.db.jobs) && LocksOk(txs)
  {
    if tx in w.txs {
      FewerTxs(w.txs, w.db.jobs, tx);
      CountedTx(w.txs, w.db.jobs, tx);
    }
  }

  lemma StageTables(w: World, tx: Uuid, id: Uuid)
    requires StagedOk(w.txs, w.db.jobs) && LocksOk(w.txs)
    ensures var txs := DoStage(w, tx, id).txs; StagedOk(txs, w.db.jobs) && LocksOk(txs)
  {
  }

  lemma MoveTables(w: World, ids: set<Uuid>)
    requires DeadOk(w.now, w.db.jobs, w.db.dead)
    ensures DeadOk(w.now, w.db.jobs, DoMove(w, ids).db.dead)
  {
  }

  lemma SubmitRows(w: World, id: Uuid, j: Job)
    requires RowsInv(w)
    ensures RowsInv(DoSubmit(w, id, j))
  {
  }

  lemma SubmitUnique(w: World, id: Uuid, j: Job)
    requires UniqueInv(w)
    ensures UniqueInv(DoSubmit(w, id, j))
  {
  }

  lemma CommitUnlocks(w: World, tx: Uuid)
    requires RowsInv(w) && UniqueInv(w) && tx in w.txs && w.txs[tx].Staged?
    ensures !RowLocked(w.(txs := w.txs - {tx}), w.txs[tx].job) && IsPending(w.db, w.txs[tx].job)
  {
  }

  // ---- every step, every run ---------------------------------------------------------------

  lemma Shifts(w: World, w': World)
    requires Inv(w) && Shift(w, w') && RowsSafe(w, w')
    ensures Inv(w')
  {
    ShiftOwnership(w, w');
    ShiftOutcomes(w, w');
    RowsSafeKeeps(w, w');
  }

  lemma Removes(w: World, w': World, gone: set<Uuid>)
    requires Inv(w) && Removal(w, w', gone) && RowsSafe(w, w')
    ensures Inv(w')
  {
    RemovalKeeps(w, w', gone);
    RowsSafeKeeps(w, w');
  }

  lemma EndsClaim(w: World, w': World, id: Uuid, o: Outcome)
    requires Inv(w) && Ends(w, w', id, o) && RowsSafe(w, w')
    ensures Inv(w')
  {
    EndsOwnership(w, w', id, o);
    EndsHistory(w, w', id, o);
    EndsOutcomes(w, w', id, o);
    RowsSafeKeeps(w, w');
  }

  lemma ClaimKeeps(w: World, id: Uuid, worker: Uuid, token: Uuid, run: Uuid, at: Time)
    requires Inv(w) && !RowLocked(w, id)
    ensures Inv(DoClaim(w, id, worker, token, run, at))
  {
    if IsPending(w.db, id) && FreshClaim(w, token, run, at) {
      ClaimOwnership(w, id, worker, token, run, at);
      ClaimHistory(w, id, worker, token, run, at);
      ClaimOutcomes(w, id, worker, token, run, at);
      ClaimRows(w, id, worker, token, run, at);
      RowsSafeKeeps(w, DoClaim(w, id, worker, token, run, at));
    }
  }

  lemma CommitKeeps(w: World, tx: Uuid, worker: Uuid, token: Uuid, run: Uuid, at: Time)
    requires Inv(w)
    ensures Inv(DoCommit(w, tx, worker, token, run, at))
  {
    if tx in w.txs && w.txs[tx].Staged? {
      CommitUnlocks(w, tx);
      var open := w.(txs := w.txs - {tx});
      assert Shift(w, open) && RowsSafe(w, open);
      Shifts(w, open);
      ClaimKeeps(open, w.txs[tx].job, worker, token, run, at);
    }
  }

  lemma ExtendShifts(w: World, token: Uuid, at: Time)
    requires token in w.claims && at <= w.now && Holds(w.db, w.claims[token].job, token)
    ensures Shift(w, DoExtend(w, token, at))
  {
  }

  lemma ExtendKeeps(w: World, token: Uuid, at: Time)
    requires Inv(w)
    ensures Inv(DoExtend(w, token, at))
  {
    if token in w.claims && at <= w.now && Holds(w.db, w.claims[token].job, token) {
      ExtendRows(w, token, at);
      ExtendShifts(w, token, at);
      Shifts(w, DoExtend(w, token, at));
    } else {
      assert DoExtend(w, token, at) == w;
    }
  }

  lemma CompleteKeeps(w: World, token: Uuid, at: Time)
    requires Inv(w)
    ensures Inv(DoComplete(w, token, at))
  {
    if token in w.claims && at <= w.now && Holds(w.db, w.claims[token].job, token) {
      CompleteRows(w, token, at);
      CompleteEnds(w, token, at);
      EndsClaim(w, DoComplete(w, token, at), w.claims[token].job, Completed);
    }
  }

  lemma FailKeeps(w: World, token: Uuid, err: string, retryAt: Time, at: Time)
    requires Inv(w)
    ensures Inv(DoFail(w, token, err, retryAt, at))
  {
    if token in w.claims && at <= w.now && Holds(w.db, w.claims[token].job, token) {
      FailRows(w, token, err, retryAt, at);
      FailEnds(w, token, err, retryAt, at);
      EndsClaim(w, DoFail(w, token, err, retryAt, at), w.claims[token].job, FailedAttempt);
    }
  }

  lemma ReapKeeps(w: World, id: Uuid)
    requires Inv(w)
    ensures Inv(DoReap(w, id))
  {
    if Stale(w.db, id, w.now) {
      ReapRows(w, id);
      ReapEnds(w, id);
      EndsClaim(w, DoReap(w, id), id, Reaped);
    } else {
      IdleReapShifts(w, id);
      Shifts(w, DoReap(w, id));
    }
  }

  lemma ForceFailKeeps(w: World, id: Uuid)
    requires Inv(w)
    ensures Inv(DoForceFail(w, id))
  {
    if !RowLocked(w, id) && ForceFailable(w.db, id) {
      ForceFailRows(w, id);
      if w.db.jobs[id].state.Running? {
        ForceFailEnds(w, id);
        EndsClaim(w, DoForceFail(w, id), id, ForceFailed);
      } else {
        IdleForceFailShifts(w, id);
        Shifts(w, DoForceFail(w, id));
      }
    }
  }

  lemma CancelKeeps(w: World, id: Uuid, tenant: Uuid)
    requires Inv(w)
    ensures Inv(DoCancel(w, id, tenant))
  {
    if !RowLocked(w, id) && Cancellable(w.db, id, tenant) {
      CancelRows(w, id, tenant);
      CancelShifts(w, id, tenant);
      Shifts(w, DoCancel(w, id, tenant));
    }
  }

  lemma RevivalKeeps(w: World, id: Uuid, tenant: Uuid)
    requires Inv(w)
    ensures Inv(DoReplay(w, id, tenant))
  {
    if Replayable(w.db, id, tenant) {
      ReplayKeeps(w, id, tenant);
      ReplayRows(w, id, tenant);
      RowsSafeKeeps(w, DoReplay(w, id, tenant));
    }
  }

  lemma PromoteKeeps(w: World, ids: set<Uuid>)
    requires Inv(w)
    ensures Inv(DoPromoteScheduled(w, ids)) && Inv(DoPromoteFailed(w, ids))
  {
    if forall id | id in ids :: DueScheduled(w.db, id, w.now) {
      PromoteScheduledShifts(w, ids);
      PromoteScheduledRowsSafe(w, ids);
      Shifts(w, DoPromoteScheduled(w, ids));
    }
    if forall id | id in ids :: ReadyFailed(w.db, id, w.now) {
      PromoteFailedShifts(w, ids);
      PromoteFailedRowsSafe(w, ids);
      Shifts(w, DoPromoteFailed(w, ids));
    }
  }

  lemma PruneKeeps(w: World, ids: set<Uuid>, cutoff: Time)
    requires Inv(w)
    ensures Inv(DoPruneFinished(w, ids, cutoff)) && Inv(DoPruneDead(w, ids, cutoff))
  {
    if forall id | id in ids :: FinishedBefore(w.db, id, cutoff) {
      PruneFinishedRemoves(w, ids, cutoff);
      PruneFinishedRowsSafe(w, ids, cutoff);
      Removes(w, DoPruneFinished(w, ids, cutoff), ids);
    }
    if forall id | id in ids :: MovedBefore(w.db, id, cutoff) {
      PruneDeadRemoves(w, ids, cutoff);
      PruneDeadRowsSafe(w, ids, cutoff);
      Removes(w, DoPruneDead(w, ids, cutoff), ids);
    }
  }

  lemma TxsKeep(w: World, txs: map<Uuid, Tx>)
    requires Inv(w) && StagedOk(txs, w.db.jobs) && LocksOk(txs)
    ensures Inv(w.(txs := txs))
  {
  }

  lemma LockKeeps(w: World, tx: Uuid, tenant: Uuid, limit: nat)
    requires Inv(w)
    ensures Inv(DoLock(w, tx, tenant, limit))
  {
    LockTables(w, tx, tenant, limit);
    TxsKeep(w, DoLock(w, tx, tenant, limit).txs);
  }

  lemma CountKeeps(w: World, tx: Uuid)
    requires Inv(w)
    ensures Inv(DoCount(w, tx))
  {
    CountTables(w, tx);
    TxsKeep(w, DoCount(w, tx).txs);
  }

  lemma StageKeeps(w: World, tx: Uuid, id: Uuid)
    requires Inv(w)
    ensures Inv(DoStage(w, tx, id))
  {
    StageTables(w, tx, id);
    TxsKeep(w, DoStage(w, tx, id).txs);
  }

  lemma MoveKeeps(w: World, ids: set<Uuid>)
    requires Inv(w)
    ensures Inv(DoMove(w, ids))
  {
    MoveTables(w, ids);
  }

  lemma TickKeeps(w: World, d: nat)
    requires Inv(w)
    ensures Inv(w.(now := w.now + d))
  {
    RowsSafeKeeps(w, w.(now := w.now + d));
  }

  lemma ClientStep(w: World, a: Action)
    requires Inv(w) && (a.Submit? || a.Cancel? || a.Replay?)
    ensures Inv(Step(w, a))
  {
    match a {
      case Submit(id, j) => SubmitKeeps(w, id, j); SubmitRows(w, id, j); SubmitUnique(w, id, j);
      case Cancel(id, tenant) => CancelKeeps(w, id, tenant);
      case Replay(id, tenant) => RevivalKeeps(w, id, tenant);
    }
  }

  lemma OperatorStep(w: World, a: Action)
    requires Inv(w) && (a.ForceFail? || a.Reap? || a.MoveToDeadLetter?)
    ensures Inv(Step(w, a))
  {
    match a {
      case Reap(id) => ReapKeeps(w, id);
      case ForceFail(id) => ForceFailKeeps(w, id);
      case MoveToDeadLetter(ids) => MoveKeeps(w, ids);
    }
  }

  lemma PromoteStep(w: World, a: Action)
    requires Inv(w) && (a.Tick? || a.PromoteScheduled? || a.PromoteFailed?)
    ensures Inv(Step(w, a))
  {
    match a {
      case PromoteScheduled(ids) => PromoteKeeps(w, ids);
      case PromoteFailed(ids) => PromoteKeeps(w, ids);
      case Tick(d) => TickKeeps(w, d);
    }
  }

  lemma PruneStep(w: World, a: Action)
    requires Inv(w) && (a.PruneFinished? || a.PruneDead?)
    ensures Inv(Step(w, a))
  {
    match a {
      case PruneFinished(ids, cutoff) => PruneKeeps(w, ids, cutoff);
      case PruneDead(ids, cutoff) => PruneKeeps(w, ids, cutoff);
    }
  }

  lemma LimitedStep(w: World, a: Action)
    requires Inv(w)
    requires a.LockTenant? || a.CountRunning? || a.StageClaim? || a.CommitClaim? || a.Rollback?
    ensures Inv(Step(w, a))
  {
    match a
    case LockTenant(tx, tenant, limit) => LockKeeps(w, tx, tenant, limit);
    case CountRunning(tx) => CountKeeps(w, tx);
    case StageClaim(tx, id) => StageKeeps(w, tx, id);
    case CommitClaim(tx, worker, token, run, at) => CommitKeeps(w, tx, worker, token, run, at);
    case Rollback(tx) => TxsKeep(w, w.txs - {tx});
  }

  lemma WorkerStep(w: World, a: Action)
    requires Inv(w)
    requires a.TryClaim? || a.Extend? || a.Complete? || a.Fail?
    ensures Inv(Step(w, a))
  {
    match a
    case TryClaim(id, worker, token, run, at) =>
      if !RowLocked(w, id) { ClaimKeeps(w, id, worker, token, run, at); }
    case Extend(token, at) => ExtendKeeps(w, token, at);
    case Complete(token, at) => CompleteKeeps(w, token, at);
    case Fail(token, err, retryAt, at) => FailKeeps(w, token, err, retryAt, at);
  }

  lemma StepKeeps(w: World, a: Action)
    requires Inv(w)
    ensures Inv(Step(w, a))
  {
    if a.TryClaim? || a.Extend? || a.Complete? || a.Fail? {
      WorkerStep(w, a);
    } else if a.LockTenant? || a.CountRunning? || a.StageClaim? || a.CommitClaim? || a.Rollback? {
      LimitedStep(w, a);
    } else if a.Tick? || a.PromoteScheduled? || a.PromoteFailed? {
      PromoteStep(w, a);
    } else if a.PruneFinished? || a.PruneDead? {
      PruneStep(w, a);
    } else if a.Submit? || a.Cancel? || a.Replay? {
      ClientStep(w, a);
    } else {
      OperatorStep(w, a);
    }
  }

  lemma {:induction false} ExecKeeps(w: World, acts: seq<Action>)
    requires Inv(w)
    ensures Inv(Exec(w, acts))
    decreases |acts|
  {
    if acts != [] {
      StepKeeps(w, acts[0]);
      ExecKeeps(Step(w, acts[0]), acts[1..]);
    }
  }

  lemma {:induction false} LoggedOutcome(log: Log, claims: map<Uuid, Claim>, runs: map<Uuid, Run>, id: Uuid, t: Uuid, o: Outcome)
    requires OutcomesOk(log, claims, runs) && Logged(log, Closed(id, t, o))
    ensures t in claims && claims[t].job == id && (claims[t].run in runs ==> Records(runs[claims[t].run], o))
  {
    match log
    case Start =>
    case Then(past, e) =>
      if e != Closed(id, t, o) { LoggedOutcome(past, claims, runs, id, t, o); }
  }
}
