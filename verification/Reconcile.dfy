/**
 The pending reconciler: keyset paging over a table that may change between
 pages, re-enqueueing every job it visits.
 */
module Reconcile {
  import opened Jobs
  import opened Storage
  import opened Ordering
  import opened Queues
  import opened Cluster
  import opened Sweeps
  import opened Protocol
  import opened Lifecycle

  const BATCH := 500
  const MAX_PER_PASS := 5000
  const MAX_PAGES := 10

  /** The zero cursor: no valid job ranks at or before it. */
  const START := Rank(0, 0, 0)

  function KeyOf(id: Uuid, s: Spec): Rank {
    Rank(s.priority, s.createdAt, id)
  }

  predicate Eligible(db: Db, cutoff: Time, id: Uuid) {
    id in db.jobs && db.jobs[id].state.Pending? && db.jobs[id].runAt <= cutoff
  }

  function RanksAfter(db: Db, cutoff: Time, after: Rank): map<Uuid, Rank> {
    map id | id in db.jobs && Eligible(db, cutoff, id) && Before(after, KeyOf(id, db.jobs[id].spec)) ::
      KeyOf(id, db.jobs[id].spec)
  }

  /** One page: the first `limit` eligible jobs after the cursor, and the cursor after them. */
  method GetPendingJobs(db: Db, cutoff: Time, after: Rank, limit: nat) returns (page: seq<Uuid>, next: Rank)
    ensures IsPage(RanksAfter(db, cutoff, after), limit, page)
    ensures next == if page == [] then after else KeyOf(page[|page| - 1], db.jobs[page[|page| - 1]].spec)
  {
    page := OrderBy(RanksAfter(db, cutoff, after), limit);
    next := after;
    if page != [] {
      var last := page[|page| - 1];
      next := KeyOf(last, db.jobs[last].spec);
    }
  }

  /** What the statements of a pass saw, one snapshot and one clock reading per page. */
  datatype View = View(db: Db, now: Time)

  predicate Seen(v: View, id: Uuid) {
    Eligible(v.db, v.now - PENDING_RECONCILE_AGE, id)
  }

  /** A job that was pending and due in every one of these views. */
  ghost predicate Stayed(views: seq<View>, id: Uuid) {
    forall p | 0 <= p < |views| :: Seen(views[p], id)
  }

  ghost predicate SeenOnce(views: seq<View>, id: Uuid) {
    exists p :: 0 <= p < |views| && Seen(views[p], id)
  }

  ghost predicate ViewsKnown(submitted: map<Uuid, Spec>, views: seq<View>) {
    && (forall p | 0 <= p < |views| :: SpecsKnown(submitted, views[p].db))
    && (forall id | id in submitted :: submitted[id].priority >= PRIORITY_HIGH)
  }

  /** The ids come in strictly ascending key order (so none twice), up to the cursor. */
  ghost predicate Ascending(submitted: map<Uuid, Spec>, ids: seq<Uuid>, cursor: Rank) {
    && (forall i | 0 <= i < |ids| :: ids[i] in submitted && NotAfter(KeyOf(ids[i], submitted[ids[i]]), cursor))
    && (forall i, j | 0 <= i < j < |ids| :: Before(KeyOf(ids[i], submitted[ids[i]]), KeyOf(ids[j], submitted[ids[j]])))
  }

  /** Where a pass stands after `views`: the jobs that stayed are visited or still ahead of the cursor. */
  ghost predicate Passing(submitted: map<Uuid, Spec>, views: seq<View>, visited: seq<Uuid>, cursor: Rank) {
    && Ascending(submitted, visited, cursor)
    && (forall i | 0 <= i < |visited| :: SeenOnce(views, visited[i]))
    && (forall id | id in submitted && Stayed(views, id) :: id in visited || Before(cursor, KeyOf(id, submitted[id])))
  }

  /** Every job that stayed has been visited. */
  ghost predicate Covered(submitted: map<Uuid, Spec>, views: seq<View>, visited: seq<Uuid>) {
    forall id | id in submitted && Stayed(views, id) :: id in visited
  }

  ghost predicate AllQueued(submitted: map<Uuid, Spec>, lists: map<ListName, seq<Uuid>>, ids: seq<Uuid>) {
    forall i | 0 <= i < |ids| :: Queued(submitted, lists, ids[i])
  }

  lemma PageAscends(submitted: map<Uuid, Spec>, v: View, visited: seq<Uuid>, cursor: Rank, page: seq<Uuid>, next: Rank, limit: nat)
    requires SpecsKnown(submitted, v.db) && Ascending(submitted, visited, cursor)
    requires IsPage(RanksAfter(v.db, v.now - PENDING_RECONCILE_AGE, cursor), limit, page)
    requires next == if page == [] then cursor else KeyOf(page[|page| - 1], v.db.jobs[page[|page| - 1]].spec)
    ensures Ascending(submitted, visited + page, next)
    ensures NotAfter(cursor, next)
  {
    var ranks := RanksAfter(v.db, v.now - PENDING_RECONCILE_AGE, cursor);
    assert forall i | 0 <= i < |page| :: page[i] in ranks && page[i] in submitted && ranks[page[i]] == KeyOf(page[i], submitted[page[i]]);
  }

  lemma PageCovers(submitted: map<Uuid, Spec>, views: seq<View>, v: View, visited: seq<Uuid>, cursor: Rank,
                   page: seq<Uuid>, next: Rank, limit: nat, id: Uuid)
    requires SpecsKnown(submitted, v.db) && Passing(submitted, views, visited, cursor)
    requires IsPage(RanksAfter(v.db, v.now - PENDING_RECONCILE_AGE, cursor), limit, page)
    requires next == if page == [] then cursor else KeyOf(page[|page| - 1], v.db.jobs[page[|page| - 1]].spec)
    requires id in submitted && Stayed(views + [v], id)
    ensures id in visited + page || Before(next, KeyOf(id, submitted[id]))
    ensures |page| < limit ==> id in visited + page
  {
    assert (views + [v])[|views|] == v;
    assert forall p | 0 <= p < |views| :: (views + [v])[p] == views[p];
    assert Stayed(views, id) && Seen(v, id);
    var ranks := RanksAfter(v.db, v.now - PENDING_RECONCILE_AGE, cursor);
    if id !in visited {
      assert id in ranks && ranks[id] == KeyOf(id, submitted[id]);
      if |page| < limit { ShortPageIsAll(ranks, limit, page); }
      if id !in page && page != [] {
        var last := page[|page| - 1];
        assert last in ranks && ranks[last].id == last && NotAfter(ranks[last], ranks[id]);
      }
    }
  }

  lemma PageAdvances(submitted: map<Uuid, Spec>, views: seq<View>, v: View, visited: seq<Uuid>, cursor: Rank,
                     page: seq<Uuid>, next: Rank, limit: nat)
    requires SpecsKnown(submitted, v.db) && Passing(submitted, views, visited, cursor)
    requires IsPage(RanksAfter(v.db, v.now - PENDING_RECONCILE_AGE, cursor), limit, page)
    requires next == if page == [] then cursor else KeyOf(page[|page| - 1], v.db.jobs[page[|page| - 1]].spec)
    ensures Passing(submitted, views + [v], visited + page, next)
    ensures |page| < limit ==> Covered(submitted, views + [v], visited + page)
  {
    PageAscends(submitted, v, visited, cursor, page, next, limit);
    var views', visited' := views + [v], visited + page;
    forall id | id in submitted && Stayed(views', id)
      ensures (id in visited' || Before(next, KeyOf(id, submitted[id]))) && (|page| < limit ==> id in visited')
    {
      PageCovers(submitted, views, v, visited, cursor, page, next, limit, id);
    }
    forall i | 0 <= i < |visited'| ensures SeenOnce(views', visited'[i]) {
      if i < |visited| {
        assert SeenOnce(views, visited[i]);
        var p :| 0 <= p < |views| && Seen(views[p], visited[i]);
        assert Seen(views'[p], visited'[i]);
      } else {
        assert page[i - |visited|] in RanksAfter(v.db, v.now - PENDING_RECONCILE_AGE, cursor);
        assert Seen(views'[|views|], visited'[i]);
      }
    }
  }

  /** Reads the next page and re-enqueues it, job by job. */
  method VisitPage(v: View, after: Rank, queue: RedisQueue, ghost submitted: map<Uuid, Spec>, ghost views: seq<View>, ghost visited: seq<Uuid>)
    returns (page: seq<Uuid>, next: Rank)
    requires SpecsKnown(submitted, v.db) && Marked(submitted, queue.Contents(), NoDrain)
    requires Passing(submitted, views, visited, after)
    modifies queue
    ensures |page| <= BATCH
    ensures Passing(submitted, views + [v], visited + page, next)
    ensures |page| < BATCH ==> Covered(submitted, views + [v], visited + page)
    ensures Marked(submitted, queue.Contents(), NoDrain) && AllQueued(submitted, queue.lists, page)
    ensures StillQueued(submitted, old(queue.lists), queue.lists)
  {
    page, next := GetPendingJobs(v.db, v.now - PENDING_RECONCILE_AGE, after, BATCH);
    assert forall i | 0 <= i < |page| :: page[i] in v.db.jobs by {
      assert forall i | 0 <= i < |page| :: page[i] in RanksAfter(v.db, v.now - PENDING_RECONCILE_AGE, after);
    }
    PageAdvances(submitted, views, v, visited, after, page, next, BATCH);
    EnqueuePage(page, v.db, queue, submitted);
  }

  ghost predicate StillQueued(submitted: map<Uuid, Spec>, lists: map<ListName, seq<Uuid>>, lists': map<ListName, seq<Uuid>>) {
    forall id | Queued(submitted, lists, id) :: Queued(submitted, lists', id)
  }

  method EnqueuePage(page: seq<Uuid>, db: Db, queue: RedisQueue, ghost submitted: map<Uuid, Spec>)
    requires SpecsKnown(submitted, db) && forall i | 0 <= i < |page| :: page[i] in db.jobs
    requires Marked(submitted, queue.Contents(), NoDrain)
    modifies queue
    ensures Marked(submitted, queue.Contents(), NoDrain) && AllQueued(submitted, queue.lists, page)
    ensures StillQueued(submitted, old(queue.lists), queue.lists)
  {
    var k := 0;
    while k < |page|
      invariant k <= |page| && Marked(submitted, queue.Contents(), NoDrain)
      invariant AllQueued(submitted, queue.lists, page[..k]) && StillQueued(submitted, old(queue.lists), queue.lists)
    {
      var spec := db.jobs[page[k]].spec;
      PushQueues(submitted, queue.Contents(), page[k]);
      assert page[..k + 1] == page[..k] + [page[k]];
      queue.Enqueue(spec.tenant, page[k], spec.priority);
      k := k + 1;
    }
    assert page[..k] == page;
  }

  /** How many jobs `p` full pages hold, and the page that visit `i` was on. */
  function Cut(p: nat): nat {
    500 * p
  }

  function PageIndex(i: nat): nat {
    i / 500
  }

  /** `held` is what Redis held right after each page: every job visited on it was queued then. */
  ghost predicate QueuedWhenVisited(submitted: map<Uuid, Spec>, held: seq<Cache>, visited: seq<Uuid>) {
    forall i | 0 <= i < |visited| :: PageIndex(i) < |held| && Queued(submitted, held[PageIndex(i)].lists, visited[i])
  }

  lemma VisitedOneMore(submitted: map<Uuid, Spec>, held: seq<Cache>, visited: seq<Uuid>, page: seq<Uuid>, c: Cache)
    requires QueuedWhenVisited(submitted, held, visited) && |visited| == Cut(|held|) && |page| <= BATCH
    requires AllQueued(submitted, c.lists, page)
    ensures QueuedWhenVisited(submitted, held + [c], visited + page)
  {
    var held', visited' := held + [c], visited + page;
    forall i | 0 <= i < |visited'| ensures PageIndex(i) < |held'| && Queued(submitted, held'[PageIndex(i)].lists, visited'[i]) {
      if i < |visited| {
        assert held'[PageIndex(i)] == held[PageIndex(i)] && visited'[i] == visited[i];
      } else {
        assert PageIndex(i) == |held| && visited'[i] == page[i - |visited|];
      }
    }
  }

  lemma StaysQueued(submitted: map<Uuid, Spec>, before: map<ListName, seq<Uuid>>, lists: map<ListName, seq<Uuid>>,
                    visited: seq<Uuid>, page: seq<Uuid>)
    requires StillQueued(submitted, before, lists) && AllQueued(submitted, before, visited) && AllQueued(submitted, lists, page)
    ensures AllQueued(submitted, lists, visited + page)
  {
  }

  /** What other clients made of the queues before a page is read, if they touched them. */
  method Disturb(queue: RedisQueue, others: Option<Cache>)
    modifies queue
    ensures queue.Contents() == if others.Some? then others.value else old(queue.Contents())
  {
    if others.Some? {
      queue.lists, queue.markers, queue.processing := others.value.lists, others.value.markers, others.value.processing;
    }
  }

  /** The queues after the pages visited so far: their markers are backed, and what was visited was queued. */
  ghost predicate Requeued(submitted: map<Uuid, Spec>, c: Cache, held: seq<Cache>, visited: seq<Uuid>, alone: bool) {
    && Marked(submitted, c, NoDrain)
    && QueuedWhenVisited(submitted, held, visited)
    && (alone ==> AllQueued(submitted, c.lists, visited))
  }

  /** The next page of a pass, after other clients had their turn. */
  method VisitNext(v: View, others: Option<Cache>, after: Rank, queue: RedisQueue, ghost submitted: map<Uuid, Spec>,
                   ghost views: seq<View>, ghost visited: seq<Uuid>, ghost held: seq<Cache>, ghost alone: bool)
    returns (page: seq<Uuid>, next: Rank)
    requires SpecsKnown(submitted, v.db) && (others.Some? ==> Marked(submitted, others.value, NoDrain))
    requires Passing(submitted, views, visited, after) && |visited| == Cut(|held|)
    requires Requeued(submitted, queue.Contents(), held, visited, alone)
    modifies queue
    ensures |page| <= BATCH && Passing(submitted, views + [v], visited + page, next)
    ensures |page| < BATCH ==> Covered(submitted, views + [v], visited + page)
    ensures Requeued(submitted, queue.Contents(), held + [queue.Contents()], visited + page, alone && others.None?)
  {
    Disturb(queue, others);
    ghost var before := queue.lists;
    page, next := VisitPage(v, after, queue, submitted, views, visited);
    VisitedOneMore(submitted, held, visited, page, queue.Contents());
    if alone && others.None? { StaysQueued(submitted, before, queue.lists, visited, page); }
  }

  /** Nobody else touched the queues before these pages. */
  predicate Undisturbed(others: seq<Option<Cache>>) {
    forall p | 0 <= p < |others| :: others[p].None?
  }

  /**
   One pass, whatever the table and the queues do between its pages. It visits jobs in
   strictly ascending (priority, created_at, id) order, so none twice; every job it
   visits is queued after its page, and, if nobody else touched the queues, at the end;
   and if it ends on a short page it has visited every job that stayed pending and due
   throughout. Otherwise it has visited 5000.
   */
  method ReconcilePending(views: seq<View>, others: seq<Option<Cache>>, queue: RedisQueue, ghost submitted: map<Uuid, Spec>)
    returns (visited: seq<Uuid>, short: bool, ghost held: seq<Cache>, ghost cursor: Rank)
    requires |views| == MAX_PAGES == |others| && ViewsKnown(submitted, views) && Marked(submitted, queue.Contents(), NoDrain)
    requires forall p | 0 <= p < |others| && others[p].Some? :: Marked(submitted, others[p].value, NoDrain)
    modifies queue
    ensures 0 < |held| <= MAX_PAGES && |visited| <= MAX_PER_PASS
    ensures Passing(submitted, views[..|held|], visited, cursor)
    ensures short ==> Covered(submitted, views[..|held|], visited)
    ensures !short ==> |visited| == MAX_PER_PASS
    ensures Requeued(submitted, queue.Contents(), held, visited, Undisturbed(others[..|held|]))
  {
    visited, short, held, cursor := [], false, [], START;
    var after, checked, p := START, 0, 0;
    while checked < MAX_PER_PASS && !short
      invariant p == |held| <= MAX_PAGES && checked == |visited| && cursor == after
      invariant if short then 0 < p && checked <= MAX_PER_PASS else checked == Cut(p)
      invariant Passing(submitted, views[..p], visited, after)
      invariant short ==> Covered(submitted, views[..p], visited)
      invariant Requeued(submitted, queue.Contents(), held, visited, Undisturbed(others[..p]))
      decreases !short, MAX_PAGES - p
    {
      assert views[..p + 1] == views[..p] + [views[p]];
      assert Undisturbed(others[..p + 1]) <==> Undisturbed(others[..p]) && others[p].None? by {
        assert others[..p + 1] == others[..p] + [others[p]];
      }
      var page, next := VisitNext(views[p], others[p], after, queue, submitted, views[..p], visited, held, Undisturbed(others[..p]));
      visited, checked, after, p := visited + page, checked + |page|, next, p + 1;
      held, cursor := held + [queue.Contents()], next;
      short := |page| < BATCH;
    }
  }

  lemma AscendingIsPage(submitted: map<Uuid, Spec>, ranks: map<Uuid, Rank>, visited: seq<Uuid>, cursor: Rank, limit: nat)
    requires Ascending(submitted, visited, cursor)
    requires forall id | id in ranks :: id in submitted && ranks[id] == KeyOf(id, submitted[id])
    requires forall i | 0 <= i < |visited| :: visited[i] in ranks
    requires forall id | id in ranks :: id in visited || Before(cursor, ranks[id])
    requires |visited| == limit || (|visited| <= limit && forall id | id in ranks :: id in visited)
    ensures IsPage(ranks, limit, visited)
  {
    assert Sorted(ranks, visited);
    var members := set x | x in visited;
    PageSize(visited, members);
    SubsetIsSmaller(members, ranks.Keys);
    if |visited| != limit { assert members == ranks.Keys; }
  }

  lemma UnchangedRanks(submitted: map<Uuid, Spec>, views: seq<View>, id: Uuid)
    requires views != [] && ViewsKnown(submitted, views)
    requires forall p | 0 <= p < |views| :: Seen(views[p], id) <==> Seen(views[0], id)
    ensures var ranks := RanksAfter(views[0].db, views[0].now - PENDING_RECONCILE_AGE, START);
            && (id in ranks ==> id in submitted && Stayed(views, id) && ranks[id] == KeyOf(id, submitted[id]))
            && (forall p | 0 <= p < |views| :: Seen(views[p], id) ==> id in ranks)
  {
    assert SpecsKnown(submitted, views[0].db);
  }

  /** On a table that does not change, a pass visits exactly the first min(N, 5000) jobs in key order. */
  lemma UnchangedTableVisitsTheFirst(submitted: map<Uuid, Spec>, views: seq<View>, visited: seq<Uuid>, cursor: Rank)
    requires views != [] && ViewsKnown(submitted, views) && Passing(submitted, views, visited, cursor)
    requires forall p, id | 0 <= p < |views| :: Seen(views[p], id) <==> Seen(views[0], id)
    requires |visited| == MAX_PER_PASS ||
             (|visited| <= MAX_PER_PASS && forall id | id in submitted && Stayed(views, id) :: id in visited)
    ensures IsPage(RanksAfter(views[0].db, views[0].now - PENDING_RECONCILE_AGE, START), MAX_PER_PASS, visited)
  {
    var ranks := RanksAfter(views[0].db, views[0].now - PENDING_RECONCILE_AGE, START);
    forall id | id in ranks
      ensures id in submitted && ranks[id] == KeyOf(id, submitted[id]) && Stayed(views, id)
    {
      UnchangedRanks(submitted, views, id);
    }
    forall i | 0 <= i < |visited| ensures visited[i] in ranks {
      UnchangedRanks(submitted, views, visited[i]);
    }
    AscendingIsPage(submitted, ranks, visited, cursor, MAX_PER_PASS);
  }

  // ---- the premises hold of every run ---------------------------------------------------------------

  lemma {:induction false} SubmittedPersists(w: World, acts: seq<Action>)
    ensures Extends(w.submitted, Exec(w, acts).submitted)
    decreases |acts|
  {
    if acts != [] {
      SubmittedGrows(w, acts[0]);
      SubmittedPersists(Step(w, acts[0]), acts[1..]);
    }
  }

  /** Any state a run passed through is a legitimate view for a pass that ends later in it. */
  lemma RunsGiveKnownViews(w: World, acts: seq<Action>)
    requires Inv(w)
    ensures SpecsKnown(Exec(w, acts).submitted, w.db)
    ensures forall id | id in Exec(w, acts).submitted :: Exec(w, acts).submitted[id].priority >= PRIORITY_HIGH
  {
    SubmittedPersists(w, acts);
    ExecKeeps(w, acts);
  }
}
