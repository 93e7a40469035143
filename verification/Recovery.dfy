/** Recovering the jobs a dead worker popped and never claimed. */
module Recovery {
  import opened Jobs
  import opened Queues
  import opened Cluster
  import opened Database
  import opened Sweeps

  ghost predicate PendingQueued(submitted: map<Uuid, Spec>, jobs: map<Uuid, Job>, lists: map<ListName, seq<Uuid>>, ids: seq<Uuid>) {
    forall x | x in ids && x in jobs && jobs[x].state.Pending? :: Queued(submitted, lists, x)
  }

  /**
   After a pass every pending job that a dead worker held is back in the list of its
   own tenant and lane, and no list of a live worker has changed.
   */
  method RecoverDeadWorkerJobs(store: Store, queue: RedisQueue, alive: set<Uuid>, ghost submitted: map<Uuid, Spec>)
    requires SpecsKnown(submitted, store.Tables()) && Marked(submitted, queue.Contents(), NoDrain)
    modifies queue
    ensures queue.processing == map w | w in old(queue.processing) && w in alive :: old(queue.processing)[w]
    ensures Marked(submitted, queue.Contents(), NoDrain)
    ensures forall id | Queued(submitted, old(queue.lists), id) :: Queued(submitted, queue.lists, id)
    ensures forall id | Stranded(old(queue.processing), alive, id) && id in store.jobs && store.jobs[id].state.Pending? ::
              Queued(submitted, queue.lists, id)
  {
    var ids := queue.DeadWorkerJobs(alive);
    ghost var held := queue.processing;
    var i := 0;
    while i < |ids|
      invariant i <= |ids| && queue.processing == held
      invariant Marked(submitted, queue.Contents(), NoDrain)
      invariant forall id | Queued(submitted, old(queue.lists), id) :: Queued(submitted, queue.lists, id)
      invariant PendingQueued(submitted, store.jobs, queue.lists, ids[..i])
    {
      var id := ids[i];
      assert ids[..i + 1] == ids[..i] + [id];
      if id in store.jobs && store.jobs[id].state.Pending? {
        PushQueues(submitted, queue.Contents(), id);
        queue.Enqueue(store.jobs[id].spec.tenant, id, store.jobs[id].spec.priority);
      }
      i := i + 1;
    }
    assert ids[..i] == ids;
  }
}
