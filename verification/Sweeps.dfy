/** The scheduler's batch loops over the database: reaping, dead-lettering, retention. */
module Sweeps {
  import opened Jobs
  import opened Storage
  import opened Database
  import opened Queues
  import opened Cluster
  import opened Lifecycle

  const DEAD_LETTER_BATCH := 500
  const RETENTION_BATCH := 1000

  // ---- rebuilding entries ------------------------------------------------------------------

  /** What a push by row does when every marker has its entry: the job is queued, and nothing is unqueued. */
  lemma PushQueues(submitted: map<Uuid, Spec>, c: Cache, id: Uuid)
    requires Marked(submitted, c, NoDrain) && id in submitted
    ensures var c' := Push(c, Home(submitted[id]), id);
            && Marked(submitted, c', NoDrain)
            && Queued(submitted, c'.lists, id)
            && forall x | Queued(submitted, c.lists, x) :: Queued(submitted, c'.lists, x)
  {
    PushMembers(c, Home(submitted[id]), id);
    MarkedKept(submitted, c, Push(c, Home(submitted[id]), id), NoDrain);
  }

  // ---- the stale-claim reaper ----------------------------------------------------------------

  /** Rows after a pass that found `stale`. */
  ghost predicate Reaped(before: Db, after: Db, done: set<Uuid>) {
    && after.jobs.Keys == before.jobs.Keys && after.runs.Keys == before.runs.Keys && after.dead == before.dead
    && (forall id | id in before.jobs ::
          after.jobs[id] == if id in done then ReapedJob(before.jobs[id]) else before.jobs[id])
    && (forall r | r in before.runs ::
          if before.runs[r].job in done && before.runs[r].finishedAt.None?
          then after.runs[r].finishedAt.Some? && after.runs[r].state.Failed?
          else after.runs[r] == before.runs[r])
  }

  lemma ReapOneMore(before: Db, mid: Db, done: set<Uuid>, id: Uuid, now: Time)
    requires Reaped(before, mid, done) && Stale(before, id, now) && id !in done
    ensures Stale(mid, id, now)
    ensures Reaped(before, ReapRow(mid, id, now), done + {id})
  {
  }

  /** A reaped job is dead, or pending and queued. */
  ghost predicate Settled(submitted: map<Uuid, Spec>, jobs: map<Uuid, Job>, lists: map<ListName, seq<Uuid>>, done: set<Uuid>) {
    forall id | id in done :: id in jobs && (jobs[id].state.Dead? || (jobs[id].state.Pending? && Queued(submitted, lists, id)))
  }

  lemma SettleOneMore(submitted: map<Uuid, Spec>, db: Db, c: Cache, done: set<Uuid>, id: Uuid, now: Time)
    requires Settled(submitted, db.jobs, c.lists, done) && Marked(submitted, c, NoDrain)
    requires Stale(db, id, now) && id !in done && id in submitted
    ensures var isDead := Exhausted(db.jobs[id]);
            var c' := if isDead then c else Push(c, Home(submitted[id]), id);
            Settled(submitted, ReapRow(db, id, now).jobs, c'.lists, done + {id}) && Marked(submitted, c', NoDrain)
  {
    PushQueues(submitted, c, id);
  }

  function StaleJobs(db: Db, now: Time): set<Uuid> {
    set id | id in db.jobs && Stale(db, id, now)
  }

  /** Where a pass stands once it has handled `done`. */
  ghost predicate Reaping(submitted: map<Uuid, Spec>, before: Db, db: Db, c: Cache, done: set<Uuid>) {
    && Reaped(before, db, done)
    && Settled(submitted, db.jobs, c.lists, done)
    && Marked(submitted, c, NoDrain)
  }

  ghost predicate SpecsKnown(submitted: map<Uuid, Spec>, db: Db) {
    forall id | id in db.jobs :: id in submitted && db.jobs[id].spec == submitted[id]
  }

  lemma ReapingOneMore(submitted: map<Uuid, Spec>, before: Db, db: Db, c: Cache, done: set<Uuid>, id: Uuid, now: Time)
    requires Reaping(submitted, before, db, c, done) && SpecsKnown(submitted, before)
    requires id in StaleJobs(before, now) && id !in done
    ensures Stale(db, id, now) && id in submitted && db.jobs[id].spec == submitted[id]
    ensures Reaping(submitted, before, ReapRow(db, id, now),
                    if Exhausted(db.jobs[id]) then c else Push(c, Home(submitted[id]), id), done + {id})
  {
    ReapOneMore(before, db, done, id, now);
    SettleOneMore(submitted, db, c, done, id, now);
  }

  /**
   One undisturbed pass at time `now`: exactly the claims whose deadline has passed
   become pending or dead, and the pending ones are back in their queue.
   */
  method ReapStaleClaims(store: Store, queue: RedisQueue, now: Time, ghost submitted: map<Uuid, Spec>)
    requires SpecsKnown(submitted, store.Tables()) && Marked(submitted, queue.Contents(), NoDrain)
    modifies store, queue
    ensures Reaped(old(store.Tables()), store.Tables(), StaleJobs(old(store.Tables()), now))
    ensures Settled(submitted, store.jobs, queue.lists, StaleJobs(old(store.Tables()), now))
    ensures Marked(submitted, queue.Contents(), NoDrain)
  {
    ghost var before := store.Tables();
    var left := store.GetStaleClaims(now);
    ghost var stale := StaleJobs(before, now);
    assert left == stale;
    assert Reaping(submitted, before, before, queue.Contents(), stale - left);
    while left != {}
      invariant left <= stale
      invariant Reaping(submitted, before, store.Tables(), queue.Contents(), stale - left)
      decreases |left|
    {
      var id :| id in left;
      ReapingOneMore(submitted, before, store.Tables(), queue.Contents(), stale - left, id, now);
      assert stale - left + {id} == stale - (left - {id});
      var spec := store.jobs[id].spec;
      var isDead := store.RequeueStaleJob(id, now);
      if !isDead {
        queue.Enqueue(spec.tenant, id, spec.priority);
      }
      left := left - {id};
    }
    assert stale - left == stale;
  }

  // ---- the dead-letter promoter -----------------------------------------------------------------

  function UnmovedJobs(db: Db): set<Uuid> {
    set id | id in db.jobs && Unmoved(db, id)
  }

  /** Terminates whatever the backlog, and leaves every dead job with an entry that is its snapshot. */
  method PromoteDeadJobs(store: Store, now: Time)
    modifies store`dead
    ensures forall id | id in store.jobs && store.jobs[id].state.Dead? :: id in store.dead
    ensures forall id | id in old(store.dead) :: id in store.dead && store.dead[id] == old(store.dead)[id]
    ensures forall id | id in store.dead && id !in old(store.dead) ::
              && id in store.jobs && store.jobs[id].state.Dead?
              && store.dead[id] == DeadEntryOf(store.jobs[id], store.dead[id].movedAt) && now <= store.dead[id].movedAt
  {
    while true
      invariant forall id | id in old(store.dead) :: id in store.dead && store.dead[id] == old(store.dead)[id]
      invariant forall id | id in store.dead && id !in old(store.dead) ::
                  && id in store.jobs && store.jobs[id].state.Dead?
                  && store.dead[id] == DeadEntryOf(store.jobs[id], store.dead[id].movedAt) && now <= store.dead[id].movedAt
      decreases |UnmovedJobs(store.Tables())|
    {
      ghost var before := store.Tables();
      var at: Time :| now <= at;
      var n, moved := store.MoveToDeadLetter(DEAD_LETTER_BATCH, at);
      assert UnmovedJobs(store.Tables()) == UnmovedJobs(before) - moved;
      if n < DEAD_LETTER_BATCH { return; }
      assert moved <= UnmovedJobs(before);
    }
  }

  // ---- retention -----------------------------------------------------------------------------------

  predicate Keepable(s: JobState) {
    s.Pending? || s.Scheduled? || InFlight(s) || s.Failed?
  }

  /** Rows only go, runs go with their jobs, and no unfinished job goes. */
  ghost predicate Pruned(before: Db, after: Db) {
    && (forall id | id in after.jobs :: id in before.jobs && after.jobs[id] == before.jobs[id])
    && (forall id | id in before.jobs && Keepable(before.jobs[id].state) :: id in after.jobs)
    && (forall r | r in after.runs :: r in before.runs && after.runs[r] == before.runs[r])
    && (forall r | r in before.runs && before.runs[r].job in after.jobs :: r in after.runs)
    && (forall id | id in after.dead :: id in before.dead && after.dead[id] == before.dead[id])
  }

  ghost predicate RunsHaveJobs(db: Db) {
    forall r | r in db.runs :: db.runs[r].job in db.jobs
  }

  ghost predicate EntriesAreDead(db: Db) {
    forall id | id in db.dead :: id in db.jobs && db.jobs[id].state.Dead?
  }

  ghost predicate CompletionTimes(db: Db) {
    forall id | id in db.jobs && (db.jobs[id].state.Succeeded? || db.jobs[id].state.Cancelled?) :: db.jobs[id].completedAt.Some?
  }

  /**
   One undisturbed retention pass. It never deletes unfinished work, no run outlives
   its job, and nothing finished or dead-lettered before the cutoff is left. The
   premises are parts of the invariant every reachable state satisfies.
   */
  method EnforceRetention(store: Store, cutoff: Time)
    requires RunsHaveJobs(store.Tables()) && EntriesAreDead(store.Tables()) && CompletionTimes(store.Tables())
    modifies store
    ensures Pruned(old(store.Tables()), store.Tables())
    ensures RunsHaveJobs(store.Tables()) && EntriesAreDead(store.Tables())
    ensures forall id | id in store.jobs && (store.jobs[id].state.Succeeded? || store.jobs[id].state.Cancelled?) ::
              store.jobs[id].completedAt.Some? && cutoff <= store.jobs[id].completedAt.value
    ensures forall id | id in store.dead :: cutoff <= store.dead[id].movedAt
    ensures forall id | id in old(store.jobs) && id !in store.jobs ::
              FinishedBefore(old(store.Tables()), id, cutoff) || MovedBefore(old(store.Tables()), id, cutoff)
  {
    ghost var start := store.Tables();
    PruneFinishedLoop(store, cutoff, start);
    PruneDeadLoop(store, cutoff, start);
  }

  /** Everything a pass keeps while it goes on. */
  ghost predicate NoneFinished(db: Db, cutoff: Time) {
    forall id | id in db.jobs :: !FinishedBefore(db, id, cutoff)
  }

  ghost predicate NoneMoved(db: Db, cutoff: Time) {
    forall id | id in db.dead :: cutoff <= db.dead[id].movedAt
  }

  ghost predicate Retained(start: Db, db: Db, cutoff: Time) {
    && Pruned(start, db) && RunsHaveJobs(db) && EntriesAreDead(db)
    && forall id | id in start.jobs && id !in db.jobs :: FinishedBefore(start, id, cutoff) || MovedBefore(start, id, cutoff)
  }

  lemma PruneFinishedOnce(start: Db, db: Db, gone: set<Uuid>, cutoff: Time)
    requires Retained(start, db, cutoff) && forall id | id in gone :: FinishedBefore(db, id, cutoff)
    ensures Retained(start, PruneFinishedRows(db, gone), cutoff)
    ensures PruneFinishedRows(db, gone).jobs.Keys == db.jobs.Keys - gone && gone <= db.jobs.Keys
  {
  }

  lemma PruneDeadOnce(start: Db, db: Db, gone: set<Uuid>, cutoff: Time)
    requires Retained(start, db, cutoff) && forall id | id in gone :: MovedBefore(db, id, cutoff)
    ensures Retained(start, PruneDeadRows(db, gone), cutoff)
    ensures PruneDeadRows(db, gone).dead.Keys == db.dead.Keys - gone && gone <= db.dead.Keys
    ensures NoneFinished(db, cutoff) ==> NoneFinished(PruneDeadRows(db, gone), cutoff)
    ensures (forall id :: MovedBefore(db, id, cutoff) ==> id in gone) ==> NoneMoved(PruneDeadRows(db, gone), cutoff)
  {
    assert forall id | id in gone :: id in db.jobs && db.jobs[id].state.Dead?;
  }

  method PruneFinishedLoop(store: Store, cutoff: Time, ghost start: Db)
    requires Retained(start, store.Tables(), cutoff)
    modifies store
    ensures Retained(start, store.Tables(), cutoff)
    ensures NoneFinished(store.Tables(), cutoff)
  {
    while true
      invariant Retained(start, store.Tables(), cutoff)
      decreases |store.jobs.Keys|
    {
      ghost var before := store.Tables();
      var n, gone := store.PruneFinishedJobs(cutoff, RETENTION_BATCH);
      PruneFinishedOnce(start, before, gone, cutoff);
      if n < RETENTION_BATCH { return; }
    }
  }

  method PruneDeadLoop(store: Store, cutoff: Time, ghost start: Db)
    requires Retained(start, store.Tables(), cutoff) && NoneFinished(store.Tables(), cutoff)
    modifies store
    ensures Retained(start, store.Tables(), cutoff) && NoneFinished(store.Tables(), cutoff)
    ensures NoneMoved(store.Tables(), cutoff)
  {
    while true
      invariant Retained(start, store.Tables(), cutoff) && NoneFinished(store.Tables(), cutoff)
      decreases |store.dead.Keys|
    {
      ghost var before := store.Tables();
      var n, gone := store.PruneDeadLetter(cutoff, RETENTION_BATCH);
      PruneDeadOnce(start, before, gone, cutoff);
      if n < RETENTION_BATCH { return; }
    }
  }

  /** What the passes above, the reconciler, the recovery and the worker require holds after every run of the system. */
  lemma PassPremisesHold(acts: seq<SysAction>)
    ensures var s := SysExec(BOOT, acts);
            && SpecsKnown(s.w.submitted, s.w.db)
            && (s.drain.NoDrain? ==> Marked(s.w.submitted, s.c, NoDrain))
            && RunsHaveJobs(s.w.db) && EntriesAreDead(s.w.db) && CompletionTimes(s.w.db)
            && KeysOk(s.w.db.jobs)
            && forall id | id in s.w.db.jobs :: ValidLimits(s.w.db.jobs[id].spec)
  {
    BootKeeps(acts);
  }
}
