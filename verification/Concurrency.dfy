/**
 The per-tenant concurrency cap. TryClaimLimited locks the tenant row, counts in
 a fresh statement, claims and commits; the four parts interleave with every
 other step, and still no state has more of the tenant's jobs running than the cap.
 */
module Concurrency {
  import opened Jobs
  import opened Storage
  import opened Protocol
  import opened Lifecycle
  import opened Kinds

  /**
   What workers must do for tenant `t` to be capped at `cap`: claim its jobs only
   through a limited claim that locks `t` itself, with a limit of at most `cap`.
   */
  ghost predicate Respects(w: World, a: Action, t: Uuid, cap: nat) {
    match a
    case TryClaim(id, _, _, _, _) => id in w.db.jobs ==> w.db.jobs[id].spec.tenant != t
    case LockTenant(_, tenant, limit) => tenant == t ==> limit <= cap
    case StageClaim(tx, id) =>
      tx in w.txs && id in w.db.jobs && w.db.jobs[id].spec.tenant == t ==> w.txs[tx].tenant == t
    case _ => true
  }

  ghost predicate AllRespect(w: World, acts: seq<Action>, t: Uuid, cap: nat)
    decreases |acts|
  {
    acts == [] || (Respects(w, acts[0], t, cap) && AllRespect(Step(w, acts[0]), acts[1..], t, cap))
  }

  ghost predicate TxCapped(w: World, tx: Tx, t: Uuid, cap: nat) {
    && (tx.tenant == t ==> tx.limit <= cap && (!tx.Locked? ==> |RunningJobs(w.db, t)| < tx.limit))
    && (tx.Staged? && tx.job in w.db.jobs && w.db.jobs[tx.job].spec.tenant == t ==> tx.tenant == t)
  }

  /** The lock makes the count an upper bound until the claim commits. */
  ghost predicate Capped(w: World, t: Uuid, cap: nat) {
    && |RunningJobs(w.db, t)| <= cap
    && forall x | x in w.txs :: TxCapped(w, w.txs[x], t, cap)
  }

  /** Jobs keep their tenant, and only an opened claim adds a running one. */
  ghost predicate NoMoreRunning(w: World, w': World, t: Uuid) {
    && RunningJobs(w'.db, t) <= RunningJobs(w.db, t)
    && forall id | id in w.db.jobs && id in w'.db.jobs :: w'.db.jobs[id].spec == w.db.jobs[id].spec
  }

  lemma OthersRunNoMore(w: World, w': World, k: Kind, t: Uuid)
    requires JobsOk(w.now, w.db.jobs, w.submitted)
    requires Is(w, w', k) && !k.Opening?
    ensures NoMoreRunning(w, w', t)
  {
    forall id | id in RunningJobs(w'.db, t) ensures id in RunningJobs(w.db, t) {
      if k.Shifting? || k.Extending? { assert id in w.db.jobs && KeepsOwner(w.db.jobs[id], w'.db.jobs[id]); }
    }
    if k.Shifting? || k.Extending? {
      forall id | id in w.db.jobs ensures w'.db.jobs[id].spec == w.db.jobs[id].spec {
        assert KeepsOwner(w.db.jobs[id], w'.db.jobs[id]);
      }
    }
  }

  lemma OpeningRunsOneMore(w: World, w': World, c: Claim, t: Uuid)
    requires Opens(w, w', c)
    ensures if c.snapshot.spec.tenant == t
            then RunningJobs(w'.db, t) == RunningJobs(w.db, t) + {c.job}
            else RunningJobs(w'.db, t) == RunningJobs(w.db, t)
    ensures forall id | id in w.db.jobs && id in w'.db.jobs :: w'.db.jobs[id].spec == w.db.jobs[id].spec
  {
  }

  /** Transactions may end but none begins or advances. */
  ghost predicate TxsShrink(w: World, w': World) {
    forall x | x in w'.txs :: x in w.txs && w'.txs[x] == w.txs[x]
  }

  lemma OpeningWithinCap(w: World, w': World, c: Claim, tx: Uuid, t: Uuid, cap: nat)
    requires LocksOk(w.txs) && StagedOk(w.txs, w.db.jobs) && Capped(w, t, cap)
    requires Opens(w, w', c) && TxsShrink(w, w')
    requires c.snapshot.spec.tenant == t ==> tx in w.txs && tx !in w'.txs && w.txs[tx].Staged? && w.txs[tx].job == c.job
    ensures Capped(w', t, cap)
  {
    OpeningRunsOneMore(w, w', c, t);
    if c.snapshot.spec.tenant == t {
      assert TxCapped(w, w.txs[tx], t, cap);
    }
    forall x | x in w'.txs ensures TxCapped(w', w'.txs[x], t, cap) {
      assert TxCapped(w, w.txs[x], t, cap);
    }
  }

  lemma RestWithinCap(w: World, w': World, t: Uuid, cap: nat)
    requires StagedOk(w.txs, w.db.jobs) && Capped(w, t, cap) && NoMoreRunning(w, w', t) && TxsShrink(w, w')
    ensures Capped(w', t, cap)
  {
    SubsetIsSmaller(RunningJobs(w'.db, t), RunningJobs(w.db, t));
    forall x | x in w'.txs ensures TxCapped(w', w'.txs[x], t, cap) {
      assert TxCapped(w, w.txs[x], t, cap);
    }
  }

  lemma LockWithinCap(w: World, tx: Uuid, tenant: Uuid, limit: nat, t: Uuid, cap: nat)
    requires Capped(w, t, cap) && (tenant == t ==> limit <= cap)
    ensures Capped(DoLock(w, tx, tenant, limit), t, cap)
  {
    var w' := DoLock(w, tx, tenant, limit);
    forall x | x in w'.txs ensures TxCapped(w', w'.txs[x], t, cap) {
      if x in w.txs { assert TxCapped(w, w.txs[x], t, cap); }
    }
  }

  lemma CountWithinCap(w: World, tx: Uuid, t: Uuid, cap: nat)
    requires Capped(w, t, cap)
    ensures Capped(DoCount(w, tx), t, cap)
  {
    if tx in w.txs && w.txs[tx].Locked? {
      assert TxCapped(w, w.txs[tx], t, cap);
      if |RunningJobs(w.db, w.txs[tx].tenant)| >= w.txs[tx].limit {
        DropTxWithinCap(w, tx, t, cap);
      } else {
        NewTxWithinCap(w, tx, Counted(w.txs[tx].tenant, w.txs[tx].limit), t, cap);
      }
    }
  }

  lemma DropTxWithinCap(w: World, tx: Uuid, t: Uuid, cap: nat)
    requires Capped(w, t, cap)
    ensures Capped(w.(txs := w.txs - {tx}), t, cap)
  {
    var w' := w.(txs := w.txs - {tx});
    forall x | x in w'.txs ensures TxCapped(w', w'.txs[x], t, cap) {
      assert TxCapped(w, w.txs[x], t, cap);
    }
  }

  lemma NewTxWithinCap(w: World, tx: Uuid, next: Tx, t: Uuid, cap: nat)
    requires Capped(w, t, cap) && TxCapped(w, next, t, cap)
    ensures Capped(w.(txs := w.txs[tx := next]), t, cap)
  {
    var w' := w.(txs := w.txs[tx := next]);
    forall x | x in w'.txs ensures TxCapped(w', w'.txs[x], t, cap) {
      if x != tx { assert TxCapped(w, w.txs[x], t, cap); }
    }
  }

  lemma StageWithinCap(w: World, tx: Uuid, id: Uuid, t: Uuid, cap: nat)
    requires Capped(w, t, cap)
    requires tx in w.txs && id in w.db.jobs && w.db.jobs[id].spec.tenant == t ==> w.txs[tx].tenant == t
    ensures Capped(DoStage(w, tx, id), t, cap)
  {
    if tx in w.txs && w.txs[tx].Counted? {
      assert TxCapped(w, w.txs[tx], t, cap);
      if !IsPending(w.db, id) || RowLocked(w, id) {
        DropTxWithinCap(w, tx, t, cap);
      } else {
        NewTxWithinCap(w, tx, Staged(w.txs[tx].tenant, w.txs[tx].limit, id), t, cap);
      }
    }
  }

  lemma OthersShrinkTxs(w: World, a: Action)
    requires !a.LockTenant? && !a.CountRunning? && !a.StageClaim?
    ensures TxsShrink(w, Step(w, a))
  {
  }

  lemma CommitReleases(w: World, a: Action, c: Claim)
    requires a.CommitClaim? && a.tx in w.txs && w.txs[a.tx].Staged? && Opens(w, Step(w, a), c)
    ensures a.tx !in Step(w, a).txs
  {
  }

  lemma ClaimWithinCap(w: World, a: Action, k: Kind, t: Uuid, cap: nat)
    requires Inv(w) && Capped(w, t, cap) && Respects(w, a, t, cap) && (a.TryClaim? || a.CommitClaim?)
    requires k.Opening? && Is(w, Step(w, a), k) && TxsShrink(w, Step(w, a))
    requires a.TryClaim? ==> k.claim.job == a.id
    requires a.CommitClaim? ==> a.tx in w.txs && w.txs[a.tx].Staged? && w.txs[a.tx].job == k.claim.job
    ensures Capped(Step(w, a), t, cap)
  {
    if a.CommitClaim? {
      CommitReleases(w, a, k.claim);
      OpeningWithinCap(w, Step(w, a), k.claim, a.tx, t, cap);
    } else {
      OpeningWithinCap(w, Step(w, a), k.claim, 0, t, cap);
    }
  }

  lemma OtherStepWithinCap(w: World, a: Action, t: Uuid, cap: nat)
    requires Inv(w) && Capped(w, t, cap) && Respects(w, a, t, cap)
    requires !a.LockTenant? && !a.CountRunning? && !a.StageClaim?
    ensures Capped(Step(w, a), t, cap)
  {
    var k := Classify(w, a);
    OthersShrinkTxs(w, a);
    if k.Opening? {
      ClaimWithinCap(w, a, k, t, cap);
    } else {
      OthersRunNoMore(w, Step(w, a), k, t);
      RestWithinCap(w, Step(w, a), t, cap);
    }
  }

  lemma StepWithinCap(w: World, a: Action, t: Uuid, cap: nat)
    requires Inv(w) && Capped(w, t, cap) && Respects(w, a, t, cap)
    ensures Capped(Step(w, a), t, cap)
  {
    match a
    case LockTenant(tx, tenant, limit) => LockWithinCap(w, tx, tenant, limit, t, cap);
    case CountRunning(tx) => CountWithinCap(w, tx, t, cap);
    case StageClaim(tx, id) => StageWithinCap(w, tx, id, t, cap);
    case _ => OtherStepWithinCap(w, a, t, cap);
  }

  lemma {:induction false} ExecWithinCap(w: World, acts: seq<Action>, t: Uuid, cap: nat)
    requires Inv(w) && Capped(w, t, cap) && AllRespect(w, acts, t, cap)
    ensures Capped(Exec(w, acts), t, cap)
    decreases |acts|
  {
    if acts != [] {
      StepWithinCap(w, acts[0], t, cap);
      StepKeeps(w, acts[0]);
      ExecWithinCap(Step(w, acts[0]), acts[1..], t, cap);
    }
  }

  /** No reachable state has more than `cap` of the tenant's jobs in flight. */
  lemma NeverAboveCap(acts: seq<Action>, t: Uuid, cap: nat)
    requires AllRespect(INIT, acts, t, cap)
    ensures |RunningJobs(Exec(INIT, acts).db, t)| <= cap
  {
    InitInv();
    assert RunningJobs(INIT.db, t) == {};
    ExecWithinCap(INIT, acts, t, cap);
  }
}
