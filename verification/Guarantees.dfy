/** What the invariant says of every reachable state, spelled out. */
module Guarantees {
  import opened Jobs
  import opened Storage
  import opened Protocol
  import opened Lifecycle
  import opened Kinds

  /** The shape of the tables after any run. */
  lemma Structure(acts: seq<Action>)
    ensures var w := Exec(INIT, acts);
            && (forall id | id in w.db.jobs ::
                  var j := w.db.jobs[id];
                  && !j.state.Claimed?
                  && (j.state.Running? <==> j.token.Some?)
                  && (j.state.Running? <==> j.deadline.Some?)
                  && (j.completedAt.Some? <==> j.state.Succeeded? || j.state.Cancelled?)
                  && (j.state.Pending? ==> j.runAt <= w.now)
                  && (j.state.Running? ==> j.deadline.value <= w.now + HEARTBEAT_TTL)
                  && ValidLimits(j.spec))
            && (forall r | r in w.db.runs ::
                  && w.db.runs[r].job in w.db.jobs
                  && (w.db.runs[r].finishedAt.None? ==>
                        var j := w.db.jobs[w.db.runs[r].job];
                        j.state.Running? && j.token.Some? && j.token.value in w.claims && w.claims[j.token.value].run == r))
  {
    InitInv();
    ExecKeeps(INIT, acts);
  }

  lemma AtMostOneOpenRun(acts: seq<Action>, r: Uuid, r': Uuid)
    requires var runs := Exec(INIT, acts).db.runs;
             r in runs && r' in runs && runs[r].job == runs[r'].job && runs[r].finishedAt.None? && runs[r'].finishedAt.None?
    ensures r == r'
  {
    Structure(acts);
  }

  /**
   The retry budget, over whole runs: since its last replay a job was opened for
   attempts 0, 1, ..., k-1 in that order, with k at most max_retries + 1; its
   attempt column counts the failed and reaped ones; and while it is retained
   every one of its claims still has its run row.
   */
  lemma RetryBudget(acts: seq<Action>, id: Uuid)
    requires id in Exec(INIT, acts).submitted
    ensures var w := Exec(INIT, acts);
            var past := Attempts(w.log, id);
            && |past| <= w.submitted[id].maxRetries + 1
            && (forall i | 0 <= i < |past| :: past[i] == i)
            && (id in w.db.jobs ==> w.db.jobs[id].attempt == Charges(w.log, id))
            && (forall t | t in w.claims && w.claims[t].job == id && id in w.db.jobs ::
                  && w.claims[t].run in w.db.runs
                  && w.db.runs[w.claims[t].run].job == id
                  && w.db.runs[w.claims[t].run].attempt == w.claims[t].snapshot.attempt)
  {
    InitInv();
    ExecKeeps(INIT, acts);
    var w := Exec(INIT, acts);
    var past := Attempts(w.log, id);
    assert past == Iota(|past|);
  }

  /** A job with its budget spent is dead: it is never run an extra time. */
  lemma SpentMeansDead(acts: seq<Action>, id: Uuid)
    requires id in Exec(INIT, acts).db.jobs
    ensures var j := Exec(INIT, acts).db.jobs[id];
            |Attempts(Exec(INIT, acts).log, id)| == j.spec.maxRetries + 1 ==>
              j.state.Dead? || j.state.Running? || j.state.Succeeded?
  {
    InitInv();
    ExecKeeps(INIT, acts);
  }

  /** A claim ended by Complete or Fail has a run row recording that outcome in every later state that retains its job. */
  lemma OutcomeRecordedForGood(acts: seq<Action>, id: Uuid, t: Uuid, o: Outcome)
    requires Logged(Exec(INIT, acts).log, Closed(id, t, o)) && id in Exec(INIT, acts).db.jobs
    ensures var w := Exec(INIT, acts);
            && t in w.claims && w.claims[t].run in w.db.runs
            && var run := w.db.runs[w.claims[t].run];
               && run.job == id && run.finishedAt.Some?
               && (o.Completed? ==> run.state.Succeeded?)
               && (o.FailedAttempt? ==> (run.state.Failed? || run.state.Dead?) && run.error.Some?)
  {
    InitInv();
    ExecKeeps(INIT, acts);
    var w := Exec(INIT, acts);
    LoggedOutcome(w.log, w.claims, w.db.runs, id, t, o);
  }

  /**
   The worker decides about a retry from its claim-time snapshot, the database
   from the row: whenever the write applies they agree. So a job that goes to
   failed gets exactly the time the worker computed, and a dead one none.
   */
  lemma RetryDecisionsAgree(acts: seq<Action>, token: Uuid, err: string, retryAt: Time, at: Time)
    requires var w := Exec(INIT, acts);
             token in w.claims && at <= w.now && Holds(w.db, w.claims[token].job, token)
    ensures var w := Exec(INIT, acts);
            var c := w.claims[token];
            var after := DoFail(w, token, err, retryAt, at).db.jobs[c.job];
            && (ShouldRetry(c.snapshot) <==> !Exhausted(w.db.jobs[c.job]))
            && (ShouldRetry(c.snapshot) ==> after.state.Failed? && after.runAt == retryAt)
            && (!ShouldRetry(c.snapshot) ==> after.state.Dead? && after.runAt == w.db.jobs[c.job].runAt)
  {
    InitInv();
    ExecKeeps(INIT, acts);
  }

  /** Every dead-letter entry is the snapshot of a job that is dead now, through deaths, replays and prunes. */
  lemma DeadLetterIsFaithful(acts: seq<Action>, id: Uuid)
    requires id in Exec(INIT, acts).db.dead
    ensures var db := Exec(INIT, acts).db;
            && id in db.jobs && db.jobs[id].state.Dead?
            && db.dead[id].attemptCount == db.jobs[id].attempt
            && db.dead[id].finalError == db.jobs[id].lastError
            && db.dead[id].tenant == db.jobs[id].spec.tenant
            && db.dead[id].original == db.jobs[id]
  {
    InitInv();
    ExecKeeps(INIT, acts);
  }

  // ---- nothing is lost -----------------------------------------------------------------------

  lemma StepKeepsJob(w: World, a: Action, id: Uuid)
    requires Inv(w) && id in w.db.jobs
    ensures id in Step(w, a).db.jobs || Disposed(w.db, id)
  {
    var k := Classify(w, a);
  }

  lemma SubmittedIsStored(w: World, a: Action, id: Uuid)
    requires id in Step(w, a).submitted
    ensures id in w.submitted || id in Step(w, a).db.jobs
  {
  }

  /** After `n` steps of the run the job was done with. */
  ghost predicate DisposedAfter(w: World, acts: seq<Action>, n: nat, id: Uuid) {
    n <= |acts| && Disposed(Exec(w, acts[..n]).db, id)
  }

  lemma {:induction false} KeptUntilDisposed(w: World, acts: seq<Action>, id: Uuid)
    requires Inv(w) && (id in w.submitted ==> id in w.db.jobs) && id in Exec(w, acts).submitted
    ensures id in Exec(w, acts).db.jobs || exists n :: DisposedAfter(w, acts, n, id)
    decreases |acts|
  {
    if acts != [] {
      var w' := Step(w, acts[0]);
      StepKeeps(w, acts[0]);
      if id in w'.submitted { SubmittedIsStored(w, acts[0], id); }
      if id in w.db.jobs { StepKeepsJob(w, acts[0], id); }
      if id in w.db.jobs && id !in w'.db.jobs {
        assert DisposedAfter(w, acts, 0, id);
      } else {
        KeptUntilDisposed(w', acts[1..], id);
        if n: nat :| DisposedAfter(w', acts[1..], n, id) {
          assert acts[..n + 1][1..] == acts[1..][..n];
          assert DisposedAfter(w, acts, n + 1, id);
        }
      }
    }
  }

  /**
   Durability over whole runs: every job ever submitted is in the table, or was, at
   some earlier point of the run, succeeded, cancelled or dead with its entry in the
   dead letter.
   */
  lemma NothingIsLost(acts: seq<Action>, id: Uuid)
    requires id in Exec(INIT, acts).submitted
    ensures id in Exec(INIT, acts).db.jobs || exists n :: DisposedAfter(INIT, acts, n, id)
  {
    InitInv();
    KeptUntilDisposed(INIT, acts, id);
  }
}
