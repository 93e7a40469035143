/**
 Releasing due jobs: the scheduler promotes them in batches and pushes them in
 order, and workers take them in that order.
 */
module Release {
  import opened Jobs
  import opened Storage
  import opened Ordering
  import opened Database
  import opened Queues

  const RELEASE_BATCH := 1000
  const RELEASE_MAX_BATCHES := 20

  // ---- a list is first in, first out -----------------------------------------------------

  function Reverse(q: seq<Uuid>): (r: seq<Uuid>)
    ensures |r| == |q| && forall i | 0 <= i < |q| :: r[i] == q[|q| - 1 - i]
  {
    if q == [] then [] else [q[|q| - 1]] + Reverse(q[..|q| - 1])
  }

  /** The entries that are new to a list: named for it, not marked before, and the first of their job. */
  function NewIn(es: seq<Item>, l: ListName, markers: set<Uuid>): seq<Uuid> {
    if es == [] then []
    else
      var init := es[..|es| - 1];
      var e := es[|es| - 1];
      if e.list == l && e.job !in markers && (forall i | 0 <= i < |init| :: init[i].job != e.job)
      then NewIn(init, l, markers) + [e.job]
      else NewIn(init, l, markers)
  }

  lemma {:induction false} PushAllMarks(c: Cache, es: seq<Item>)
    ensures forall id :: id in PushAll(c, es).markers <==> id in c.markers || exists i :: 0 <= i < |es| && es[i].job == id
    decreases |es|
  {
    if es != [] {
      var init := es[..|es| - 1];
      PushAllMarks(c, init);
      forall id ensures id in PushAll(c, es).markers <==> id in c.markers || exists i :: 0 <= i < |es| && es[i].job == id {
        if i :| 0 <= i < |es| && es[i].job == id {
          if i < |init| { assert init[i].job == id; }
        }
        if i :| 0 <= i < |init| && init[i].job == id { assert es[i].job == id; }
        if id == es[|es| - 1].job { assert es[|es| - 1].job == id; }
      }
    }
  }

  /** What a list holds after a batch: the new entries ahead of the old ones, newest first. */
  lemma {:induction false} PushAllWaiting(c: Cache, es: seq<Item>, l: ListName)
    ensures Waiting(PushAll(c, es).lists, l) == Reverse(NewIn(es, l, c.markers)) + Waiting(c.lists, l)
    decreases |es|
  {
    if es != [] {
      var init := es[..|es| - 1];
      var e := es[|es| - 1];
      PushAllWaiting(c, init, l);
      PushAllMarks(c, init);
      var added := NewIn(init, l, c.markers);
      assert Reverse(added + [e.job]) == [e.job] + Reverse(added) by {
        assert (added + [e.job])[..|added|] == added;
      }
    }
  }

  predicate Names(es: seq<Item>, id: Uuid) {
    exists k :: 0 <= k < |es| && es[k].job == id
  }

  /** Whatever holds between earlier and later entries of a batch holds between the new ones of a list. */
  lemma {:induction false} NewInInherits(es: seq<Item>, l: ListName, markers: set<Uuid>, rel: (Uuid, Uuid) -> bool)
    requires forall i, j | 0 <= i < j < |es| :: rel(es[i].job, es[j].job)
    ensures forall i, j | 0 <= i < j < |NewIn(es, l, markers)| :: rel(NewIn(es, l, markers)[i], NewIn(es, l, markers)[j])
    ensures forall x | x in NewIn(es, l, markers) :: Names(es, x)
    decreases |es|
  {
    if es != [] {
      var init := es[..|es| - 1];
      var e := es[|es| - 1];
      NewInInherits(init, l, markers, rel);
      var before := NewIn(init, l, markers);
      forall x | x in before ensures Names(es, x) && rel(x, e.job) {
        var k :| 0 <= k < |init| && init[k].job == x;
        assert es[k].job == x;
      }
      assert es[|es| - 1].job == e.job;
    }
  }

  /** The jobs that `n` pops of one list return, oldest first. */
  function Drawn(c: Cache, l: ListName, worker: Uuid, n: nat): seq<Uuid>
    requires n <= |Waiting(c.lists, l)|
    decreases n
  {
    if n == 0 then []
    else [Last(Waiting(c.lists, l))] + Drawn(Take(c, l, worker), l, worker, n - 1)
  }

  lemma {:induction false} DrawnInOrder(c: Cache, l: ListName, worker: Uuid, n: nat)
    requires n <= |Waiting(c.lists, l)|
    ensures |Drawn(c, l, worker, n)| == n
    ensures forall i | 0 <= i < n :: Drawn(c, l, worker, n)[i] == Waiting(c.lists, l)[|Waiting(c.lists, l)| - 1 - i]
    decreases n
  {
    if n > 0 {
      DrawnInOrder(Take(c, l, worker), l, worker, n - 1);
    }
  }

  lemma DrawnIsReversed(c: Cache, l: ListName, worker: Uuid)
    ensures Drawn(c, l, worker, |Waiting(c.lists, l)|) == Reverse(Waiting(c.lists, l))
  {
    DrawnInOrder(c, l, worker, |Waiting(c.lists, l)|);
  }

  lemma ReverseTwice(a: seq<Uuid>, b: seq<Uuid>)
    ensures Reverse(Reverse(a) + b) == Reverse(b) + a
  {
  }

  /** Draining a list after a batch yields what it held, oldest first, and then the new entries in push order. */
  lemma BatchComesOutInOrder(c: Cache, es: seq<Item>, l: ListName, worker: Uuid)
    ensures var c' := PushAll(c, es);
            var all := Waiting(c'.lists, l);
            Drawn(c', l, worker, |all|) == Reverse(Waiting(c.lists, l)) + NewIn(es, l, c.markers)
  {
    PushAllWaiting(c, es, l);
    DrawnIsReversed(PushAll(c, es), l, worker);
    ReverseTwice(NewIn(es, l, c.markers), Waiting(c.lists, l));
  }

  lemma {:induction false} PushAllAppend(c: Cache, a: seq<Item>, b: seq<Item>)
    ensures PushAll(PushAll(c, a), b) == PushAll(c, a + b)
    decreases |b|
  {
    if b == [] {
      assert a + b == a;
    } else {
      PushAllAppend(c, a, b[..|b| - 1]);
      assert (a + b)[..|a + b| - 1] == a + b[..|b| - 1];
    }
  }

  // ---- a poll, batch by batch ---------------------------------------------------------------------

  function RankOf(j: Job): Rank {
    Rank(j.spec.priority, j.runAt, 0)
  }

  /** The ranks of the jobs of this kind that are due and not among `gone`. */
  function LeftRanks(start: map<Uuid, Job>, kind: JobState, gone: seq<Uuid>, now: Time): map<Uuid, Rank> {
    map id | id in start && start[id].state == kind && start[id].runAt <= now && id !in gone :: RankOf(start[id])
  }

  /** How many jobs `n` full batches release. */
  function Cut(n: int): int {
    1000 * n
  }

  /** The batch that the job at index `j` came out in. */
  function BatchOf(j: nat): nat {
    j / 1000
  }

  /** The part of `released` that batch `b` contributed. */
  function PageOf(released: seq<Uuid>, b: nat): seq<Uuid>
    requires Cut(b) <= |released|
  {
    released[Cut(b)..if |released| < Cut(b + 1) then |released| else Cut(b + 1)]
  }

  ghost predicate IsBatch(start: map<Uuid, Job>, kind: JobState, now: Time, released: seq<Uuid>, b: nat) {
    && Cut(b) <= |released|
    && exists ranks ::
         ranks == LeftRanks(start, kind, released[..Cut(b)], now) && IsPage(ranks, RELEASE_BATCH, PageOf(released, b))
  }

  /** `released` came out in `n` batches, read at the clocks `nows`, of which all but the last were full. */
  ghost predicate InBatches(start: map<Uuid, Job>, kind: JobState, nows: seq<Time>, released: seq<Uuid>, n: nat) {
    && n <= |nows| && Cut(n - 1) <= |released| <= Cut(n)
    && forall b | 0 <= b < n :: IsBatch(start, kind, nows[b], released, b)
  }

  /** A whole poll: it ends with the first short batch, or with the twentieth. */
  ghost predicate IsPoll(start: map<Uuid, Job>, kind: JobState, nows: seq<Time>, released: seq<Uuid>, n: nat) {
    && |nows| == RELEASE_MAX_BATCHES && 1 <= n && InBatches(start, kind, nows, released, n)
    && (n < RELEASE_MAX_BATCHES ==> |released| < Cut(n))
  }

  lemma BatchStays(start: map<Uuid, Job>, kind: JobState, now: Time, released: seq<Uuid>, page: seq<Uuid>, b: nat)
    requires IsBatch(start, kind, now, released, b) && Cut(b + 1) <= |released|
    ensures IsBatch(start, kind, now, released + page, b)
  {
    assert (released + page)[..Cut(b)] == released[..Cut(b)];
    assert PageOf(released + page, b) == PageOf(released, b);
  }

  lemma BatchAdded(start: map<Uuid, Job>, kind: JobState, now: Time, released: seq<Uuid>, page: seq<Uuid>, n: nat)
    requires |released| == Cut(n) && IsPage(LeftRanks(start, kind, released, now), RELEASE_BATCH, page)
    ensures IsBatch(start, kind, now, released + page, n)
  {
    assert (released + page)[..Cut(n)] == released;
    assert PageOf(released + page, n) == page;
  }

  lemma BatchesOneMore(start: map<Uuid, Job>, kind: JobState, nows: seq<Time>, released: seq<Uuid>, n: nat, page: seq<Uuid>)
    requires n < |nows| && |released| == Cut(n) && InBatches(start, kind, nows, released, n)
    requires IsPage(LeftRanks(start, kind, released, nows[n]), RELEASE_BATCH, page)
    ensures InBatches(start, kind, nows, released + page, n + 1)
  {
    BatchAdded(start, kind, nows[n], released, page, n);
    forall b | 0 <= b < n ensures IsBatch(start, kind, nows[b], released + page, b) {
      BatchStays(start, kind, nows[b], released, page, b);
    }
  }

  /** What batch j / 1000 says of the job at index j. */
  lemma ReleasedInBatch(start: map<Uuid, Job>, kind: JobState, nows: seq<Time>, released: seq<Uuid>, n: nat, j: nat)
    requires InBatches(start, kind, nows, released, n) && j < |released|
    ensures var b := BatchOf(j);
            b < n && released[j] in start && start[released[j]].state == kind && start[released[j]].runAt <= nows[b]
            && released[j] !in released[..Cut(b)]
  {
    var b := BatchOf(j);
    assert IsBatch(start, kind, nows[b], released, b);
    assert PageOf(released, b)[j - Cut(b)] == released[j];
  }

  lemma SameBatch(start: map<Uuid, Job>, kind: JobState, now: Time, released: seq<Uuid>, b: nat, i: nat, j: nat)
    requires IsBatch(start, kind, now, released, b) && Cut(b) <= i < j < Cut(b + 1) && j < |released|
    ensures released[i] != released[j] && released[i] in start && released[j] in start
    ensures NotAfter(RankOf(start[released[i]]), RankOf(start[released[j]]))
  {
    var page := PageOf(released, b);
    assert page[i - Cut(b)] == released[i] && page[j - Cut(b)] == released[j];
  }

  lemma ReleasedOnce(start: map<Uuid, Job>, kind: JobState, nows: seq<Time>, released: seq<Uuid>, n: nat, i: nat, j: nat)
    requires InBatches(start, kind, nows, released, n) && i < j < |released|
    ensures released[i] != released[j]
    ensures BatchOf(i) == BatchOf(j) ==>
              released[i] in start && released[j] in start && NotAfter(RankOf(start[released[i]]), RankOf(start[released[j]]))
  {
    var b := BatchOf(j);
    ReleasedInBatch(start, kind, nows, released, n, j);
    if i < Cut(b) {
      assert released[i] in released[..Cut(b)];
    } else {
      assert IsBatch(start, kind, nows[b], released, b);
      SameBatch(start, kind, nows[b], released, b, i, j);
    }
  }

  // ---- the order of a poll ---------------------------------------------------------------------

  /** The job at index `i` may go ahead of `y`: it ranks no later, or `y` was not due yet when its batch was read. */
  predicate InOrder(start: map<Uuid, Job>, nows: seq<Time>, released: seq<Uuid>, i: nat, y: Uuid) {
    && i < |released| && BatchOf(i) < |nows| && released[i] in start && y in start
    && (NotAfter(RankOf(start[released[i]]), RankOf(start[y])) || nows[BatchOf(i)] < start[y].runAt)
  }

  /** Every released job goes, in that sense rightly, ahead of those released after it and of those left. */
  ghost predicate OrderKept(start: map<Uuid, Job>, kind: JobState, nows: seq<Time>, released: seq<Uuid>) {
    forall i, y | 0 <= i < |released| && y in start && start[y].state == kind && y !in released[..i + 1] ::
      InOrder(start, nows, released, i, y)
  }

  lemma BatchGoesAhead(start: map<Uuid, Job>, kind: JobState, now: Time, released: seq<Uuid>, b: nat, i: nat, y: Uuid)
    requires IsBatch(start, kind, now, released, b) && Cut(b) <= i < Cut(b + 1) && i < |released|
    requires y in start && start[y].state == kind && start[y].runAt <= now && forall k | 0 <= k <= i :: released[k] != y
    ensures released[i] in start && NotAfter(RankOf(start[released[i]]), RankOf(start[y]))
  {
    var page := PageOf(released, b);
    assert page[i - Cut(b)] == released[i];
    assert y in LeftRanks(start, kind, released[..Cut(b)], now);
    if y in page {
      var k :| 0 <= k < |page| && page[k] == y;
      assert released[Cut(b) + k] == y;
    }
  }

  lemma BatchesKeepOrder(start: map<Uuid, Job>, kind: JobState, nows: seq<Time>, released: seq<Uuid>, n: nat)
    requires InBatches(start, kind, nows, released, n)
    ensures OrderKept(start, kind, nows, released)
  {
    forall i, y | 0 <= i < |released| && y in start && start[y].state == kind && y !in released[..i + 1]
      ensures InOrder(start, nows, released, i, y)
    {
      var b := BatchOf(i);
      ReleasedInBatch(start, kind, nows, released, n, i);
      assert forall k | 0 <= k <= i :: released[..i + 1][k] == released[k];
      if start[y].runAt <= nows[b] { BatchGoesAhead(start, kind, nows[b], released, b, i, y); }
    }
  }

  // ---- the rows and the queue --------------------------------------------------------------------

  function EntriesOf(jobs: map<Uuid, Job>, ids: seq<Uuid>): seq<Item>
    requires forall i | 0 <= i < |ids| :: ids[i] in jobs
  {
    seq(|ids|, i requires 0 <= i < |ids| => Item(ids[i], Home(jobs[ids[i]].spec)))
  }

  /** A retry is due from its release on; a scheduled job keeps its time. */
  function ReleasedRow(j: Job, kind: JobState, now: Time): Job {
    if kind.Failed? then j.(state := Pending, runAt := now) else j.(state := Pending)
  }

  /** The table once the jobs in `clock` were released, each at its time. */
  function Rows(start: map<Uuid, Job>, kind: JobState, clock: map<Uuid, Time>): map<Uuid, Job> {
    map id | id in start :: if id in clock then ReleasedRow(start[id], kind, clock[id]) else start[id]
  }

  function Stamped(page: seq<Uuid>, now: Time): map<Uuid, Time> {
    map id | id in page :: now
  }

  function Clocked(clock: map<Uuid, Time>, page: seq<Uuid>, now: Time): map<Uuid, Time> {
    clock + Stamped(page, now)
  }

  /** `clock` has the time of the batch of every released job. */
  ghost predicate ClockIs(clock: map<Uuid, Time>, nows: seq<Time>, released: seq<Uuid>) {
    && (forall x :: x in clock <==> x in released)
    && (forall j | 0 <= j < |released| :: released[j] in clock && BatchOf(j) < |nows| && clock[released[j]] == nows[BatchOf(j)])
  }

  lemma ClockOneMore(clock: map<Uuid, Time>, nows: seq<Time>, released: seq<Uuid>, n: nat, page: seq<Uuid>)
    requires ClockIs(clock, nows, released) && n < |nows| && |released| == Cut(n) && |page| <= RELEASE_BATCH
    requires forall x | x in page :: x !in released
    ensures ClockIs(Clocked(clock, page, nows[n]), nows, released + page)
  {
    var all, clock' := released + page, Clocked(clock, page, nows[n]);
    forall j | 0 <= j < |all| ensures all[j] in clock' && BatchOf(j) < |nows| && clock'[all[j]] == nows[BatchOf(j)] {
      if j < |released| {
        assert all[j] == released[j] && released[j] in released;
      } else {
        assert all[j] == page[j - |released|] && BatchOf(j) == n;
      }
    }
  }

  lemma DueIsLeft(start: map<Uuid, Job>, kind: JobState, released: seq<Uuid>, clock: map<Uuid, Time>, now: Time)
    requires !kind.Pending? && forall x :: x in clock <==> x in released
    ensures DueRanks(Rows(start, kind, clock), kind, now) == LeftRanks(start, kind, released, now)
  {
  }

  lemma RowsOneMore(start: map<Uuid, Job>, kind: JobState, clock: map<Uuid, Time>, page: seq<Uuid>, now: Time)
    requires forall x | x in page :: x !in clock
    ensures Rows(Rows(start, kind, clock), kind, Stamped(page, now)) == Rows(start, kind, Clocked(clock, page, now))
  {
  }

  lemma AppendEntries(start: map<Uuid, Job>, kind: JobState, clock: map<Uuid, Time>, c: Cache, released: seq<Uuid>, page: seq<Uuid>)
    requires forall i | 0 <= i < |released| :: released[i] in start
    requires forall i | 0 <= i < |page| :: page[i] in start
    ensures PushAll(PushAll(c, EntriesOf(start, released)), EntriesOf(Rows(start, kind, clock), page)) ==
            PushAll(c, EntriesOf(start, released + page))
  {
    assert EntriesOf(start, released + page) == EntriesOf(start, released) + EntriesOf(Rows(start, kind, clock), page);
    PushAllAppend(c, EntriesOf(start, released), EntriesOf(Rows(start, kind, clock), page));
  }

  // ---- the poll ---------------------------------------------------------------------------------------

  ghost predicate NoneDue(jobs: map<Uuid, Job>, kind: JobState, now: Time) {
    forall id | id in jobs && jobs[id].state == kind :: now < jobs[id].runAt
  }

  /** What a poll has done after `n` batches. */
  ghost predicate Polled(start: map<Uuid, Job>, jobs: map<Uuid, Job>, c: Cache, c': Cache, kind: JobState, nows: seq<Time>,
                         released: seq<Uuid>, clock: map<Uuid, Time>, n: nat)
  {
    && InBatches(start, kind, nows, released, n)
    && ClockIs(clock, nows, released)
    && jobs == Rows(start, kind, clock)
    && (forall i | 0 <= i < |released| :: released[i] in start)
    && c' == PushAll(c, EntriesOf(start, released))
  }

  lemma PageIsNew(start: map<Uuid, Job>, kind: JobState, released: seq<Uuid>, now: Time, page: seq<Uuid>)
    requires Sorted(LeftRanks(start, kind, released, now), page)
    ensures forall x | x in page :: x !in released && x in start
    ensures forall i | 0 <= i < |page| :: page[i] in start
  {
  }

  lemma PolledOneMore(start: map<Uuid, Job>, jobs: map<Uuid, Job>, c: Cache, c': Cache, kind: JobState, nows: seq<Time>,
                      released: seq<Uuid>, clock: map<Uuid, Time>, n: nat, page: seq<Uuid>)
    requires !kind.Pending? && n < |nows| && |released| == Cut(n) && Polled(start, jobs, c, c', kind, nows, released, clock, n)
    requires IsPage(DueRanks(jobs, kind, nows[n]), RELEASE_BATCH, page)
    ensures forall i | 0 <= i < |page| :: page[i] in jobs
    ensures Polled(start, Rows(jobs, kind, Stamped(page, nows[n])), c, PushAll(c', EntriesOf(jobs, page)), kind, nows,
                   released + page, Clocked(clock, page, nows[n]), n + 1)
  {
    DueIsLeft(start, kind, released, clock, nows[n]);
    PageIsNew(start, kind, released, nows[n], page);
    BatchesOneMore(start, kind, nows, released, n, page);
    ClockOneMore(clock, nows, released, n, page);
    RowsOneMore(start, kind, clock, page, nows[n]);
    AppendEntries(start, kind, clock, c, released, page);
  }

  lemma ShortBatchLeavesNoneDue(jobs: map<Uuid, Job>, kind: JobState, page: seq<Uuid>, now: Time)
    requires !kind.Pending? && IsPage(DueRanks(jobs, kind, now), RELEASE_BATCH, page) && |page| < RELEASE_BATCH
    ensures NoneDue(Rows(jobs, kind, Stamped(page, now)), kind, now)
  {
    ShortPageIsAll(DueRanks(jobs, kind, now), RELEASE_BATCH, page);
  }

  lemma PromotedRows(db: Db, page: seq<Uuid>, now: Time)
    ensures PromoteScheduledRows(db, Members(page)).jobs == Rows(db.jobs, Scheduled, Stamped(page, now))
    ensures PromoteFailedRows(db, Members(page), now).jobs == Rows(db.jobs, Failed, Stamped(page, now))
  {
    assert forall id :: id in Members(page) <==> id in page;
  }

  method PromoteBatch(store: Store, kind: JobState, now: Time) returns (page: seq<Uuid>)
    requires kind.Scheduled? || kind.Failed?
    modifies store
    ensures IsPage(DueRanks(old(store.jobs), kind, now), RELEASE_BATCH, page) && |page| <= RELEASE_BATCH
    ensures store.jobs == Rows(old(store.jobs), kind, Stamped(page, now))
  {
    ghost var before := store.Tables();
    if kind.Scheduled? {
      page := store.PromoteDueScheduled(RELEASE_BATCH, now);
    } else {
      page := store.PromoteReadyFailed(RELEASE_BATCH, now);
    }
    PromotedRows(before, page, now);
  }

  lemma PageIsInTable(jobs: map<Uuid, Job>, kind: JobState, now: Time, page: seq<Uuid>)
    requires Sorted(DueRanks(jobs, kind, now), page)
    ensures forall i | 0 <= i < |page| :: page[i] in jobs
  {
    assert forall i | 0 <= i < |page| :: page[i] in DueRanks(jobs, kind, now);
  }

  /** The table and the queues between two batches. */
  datatype Stage = Stage(jobs: map<Uuid, Job>, cache: Cache)

  /** What one batch does: the first 1000 due jobs become pending and are pushed in order. */
  ghost predicate Follows(s: Stage, t: Stage, kind: JobState, now: Time, page: seq<Uuid>) {
    exists ranks ::
      && ranks == DueRanks(s.jobs, kind, now) && IsPage(ranks, RELEASE_BATCH, page)
      && (forall i | 0 <= i < |page| :: page[i] in s.jobs)
      && t == Stage(Rows(s.jobs, kind, Stamped(page, now)), PushAll(s.cache, EntriesOf(s.jobs, page)))
  }

  /** One batch: promote, then push in the order returned. */
  method ReleaseBatch(store: Store, queue: RedisQueue, kind: JobState, now: Time) returns (page: seq<Uuid>)
    requires kind.Scheduled? || kind.Failed?
    modifies store, queue
    ensures Follows(old(Stage(store.jobs, queue.Contents())), Stage(store.jobs, queue.Contents()), kind, now, page)
    ensures |page| <= RELEASE_BATCH && (|page| < RELEASE_BATCH ==> NoneDue(store.jobs, kind, now))
  {
    ghost var start := store.jobs;
    page := PromoteBatch(store, kind, now);
    PageIsInTable(start, kind, now, page);
    if |page| < RELEASE_BATCH { ShortBatchLeavesNoneDue(start, kind, page, now); }
    var jobs := store.jobs;
    var entries := EntriesOf(jobs, page);
    assert entries == EntriesOf(start, page);
    queue.EnqueueMany(entries);
  }

  /** What a poll has done after `n` batches, the release times left open. */
  ghost predicate Polling(start: Stage, end: Stage, kind: JobState, nows: seq<Time>, released: seq<Uuid>, n: nat) {
    exists clock :: Polled(start.jobs, end.jobs, start.cache, end.cache, kind, nows, released, clock, n)
  }

  lemma PollStarts(start: Stage, kind: JobState, nows: seq<Time>)
    ensures Polling(start, start, kind, nows, [], 0)
  {
    assert EntriesOf(start.jobs, []) == [];
    assert Polled(start.jobs, start.jobs, start.cache, start.cache, kind, nows, [], map[], 0);
  }

  lemma PollGoesOn(start: Stage, mid: Stage, end: Stage, kind: JobState, nows: seq<Time>, released: seq<Uuid>, n: nat, page: seq<Uuid>)
    requires !kind.Pending? && n < |nows| && |released| == Cut(n)
    requires Polling(start, mid, kind, nows, released, n) && Follows(mid, end, kind, nows[n], page)
    ensures Polling(start, end, kind, nows, released + page, n + 1)
  {
    var clock :| Polled(start.jobs, mid.jobs, start.cache, mid.cache, kind, nows, released, clock, n);
    PolledOneMore(start.jobs, mid.jobs, start.cache, mid.cache, kind, nows, released, clock, n, page);
  }

  function Flat(pages: seq<seq<Uuid>>): seq<Uuid> {
    if pages == [] then [] else Flat(pages[..|pages| - 1]) + pages[|pages| - 1]
  }

  /** Batch after batch from one stage to another, all but the last of them full. */
  ghost predicate Chain(start: Stage, end: Stage, kind: JobState, nows: seq<Time>, pages: seq<seq<Uuid>>)
    decreases |pages|
  {
    if pages == [] then end == start
    else
      var n := |pages| - 1;
      && n < |nows| && |Flat(pages[..n])| == Cut(n)
      && exists mid :: Chain(start, mid, kind, nows, pages[..n]) && Follows(mid, end, kind, nows[n], pages[n])
  }

  lemma ChainOneMore(start: Stage, mid: Stage, end: Stage, kind: JobState, nows: seq<Time>, pages: seq<seq<Uuid>>, page: seq<Uuid>)
    requires Chain(start, mid, kind, nows, pages) && |pages| < |nows| && |Flat(pages)| == Cut(|pages|)
    requires Follows(mid, end, kind, nows[|pages|], page)
    ensures Chain(start, end, kind, nows, pages + [page]) && Flat(pages + [page]) == Flat(pages) + page
  {
    assert (pages + [page])[..|pages|] == pages;
  }

  lemma {:induction false} ChainIsPoll(start: Stage, end: Stage, kind: JobState, nows: seq<Time>, pages: seq<seq<Uuid>>)
    requires !kind.Pending? && Chain(start, end, kind, nows, pages)
    ensures Polling(start, end, kind, nows, Flat(pages), |pages|)
    decreases |pages|
  {
    if pages == [] {
      PollStarts(start, kind, nows);
    } else {
      var n := |pages| - 1;
      var mid :| Chain(start, mid, kind, nows, pages[..n]) && Follows(mid, end, kind, nows[n], pages[n]);
      ChainIsPoll(start, mid, kind, nows, pages[..n]);
      PollGoesOn(start, mid, end, kind, nows, Flat(pages[..n]), n, pages[n]);
    }
  }

  /** A finished poll: its batches, their order, the rows and queues it left, and that one that ended short left nothing due. */
  ghost predicate PollDone(start: map<Uuid, Job>, jobs: map<Uuid, Job>, c: Cache, c': Cache, kind: JobState, nows: seq<Time>,
                           released: seq<Uuid>, clock: map<Uuid, Time>, n: nat)
  {
    && IsPoll(start, kind, nows, released, n)
    && OrderKept(start, kind, nows, released)
    && Polled(start, jobs, c, c', kind, nows, released, clock, n)
    && (|released| < Cut(n) ==> NoneDue(jobs, kind, nows[n - 1]))
  }

  /** From one table and cache to another by one poll at these clocks. */
  ghost predicate ByPoll(start: Stage, end: Stage, kind: JobState, nows: seq<Time>, released: seq<Uuid>) {
    exists clock, n :: PollDone(start.jobs, end.jobs, start.cache, end.cache, kind, nows, released, clock, n)
  }

  lemma PollEnds(start: Stage, end: Stage, kind: JobState, nows: seq<Time>, released: seq<Uuid>, n: nat)
    requires |nows| == RELEASE_MAX_BATCHES && 0 < n <= RELEASE_MAX_BATCHES && Polling(start, end, kind, nows, released, n)
    requires if |released| < Cut(n) then NoneDue(end.jobs, kind, nows[n - 1]) else n == RELEASE_MAX_BATCHES
    ensures ByPoll(start, end, kind, nows, released)
  {
    var clock :| Polled(start.jobs, end.jobs, start.cache, end.cache, kind, nows, released, clock, n);
    BatchesKeepOrder(start.jobs, kind, nows, released, n);
    assert PollDone(start.jobs, end.jobs, start.cache, end.cache, kind, nows, released, clock, n);
  }

  /**
   One poll, undisturbed except by the clock. Jobs leave in (priority, due time)
   order across batches: a job goes ahead of another only if it ranks no later, or
   if the other was not due yet when it went. A poll that ends on a short batch
   leaves no job of its kind that was due.
   */
  method ReleaseDue(store: Store, queue: RedisQueue, kind: JobState, nows: seq<Time>) returns (released: seq<Uuid>)
    requires (kind.Scheduled? || kind.Failed?) && |nows| == RELEASE_MAX_BATCHES
    modifies store, queue
    ensures ByPoll(old(Stage(store.jobs, queue.Contents())), Stage(store.jobs, queue.Contents()), kind, nows, released)
  {
    ghost var start := Stage(store.jobs, queue.Contents());
    released := [];
    ghost var pages := [];
    var n, full := 0, true;
    while n < RELEASE_MAX_BATCHES && full
      invariant n == |pages| <= RELEASE_MAX_BATCHES && released == Flat(pages)
      invariant if full then |released| == Cut(n) else 0 < n && |released| < Cut(n) && NoneDue(store.jobs, kind, nows[n - 1])
      invariant Chain(start, Stage(store.jobs, queue.Contents()), kind, nows, pages)
      decreases RELEASE_MAX_BATCHES - n
    {
      ghost var mid := Stage(store.jobs, queue.Contents());
      var page := ReleaseBatch(store, queue, kind, nows[n]);
      ChainOneMore(start, mid, Stage(store.jobs, queue.Contents()), kind, nows, pages, page);
      released, n, full := released + page, n + 1, |page| == RELEASE_BATCH;
      pages := pages + [page];
    }
    ChainIsPoll(start, Stage(store.jobs, queue.Contents()), kind, nows, pages);
    PollEnds(start, Stage(store.jobs, queue.Contents()), kind, nows, released, n);
  }

  /** `x` may be served before `y`, both released at the times in `clock`. */
  predicate ServedBefore(start: map<Uuid, Job>, clock: map<Uuid, Time>, x: Uuid, y: Uuid) {
    x in start && y in start && x in clock && (NotAfter(RankOf(start[x]), RankOf(start[y])) || clock[x] < start[y].runAt)
  }

  lemma PollServesInOrder(start: map<Uuid, Job>, kind: JobState, nows: seq<Time>, released: seq<Uuid>, n: nat, clock: map<Uuid, Time>, i: nat, j: nat)
    requires InBatches(start, kind, nows, released, n) && ClockIs(clock, nows, released) && i < j < |released|
    ensures ServedBefore(start, clock, released[i], released[j])
  {
    BatchesKeepOrder(start, kind, nows, released, n);
    ReleasedInBatch(start, kind, nows, released, n, j);
    forall k | 0 <= k <= i ensures released[k] != released[j] {
      ReleasedOnce(start, kind, nows, released, n, k, j);
    }
    assert InOrder(start, nows, released, i, released[j]);
  }

  /**
   End to end: after a poll, draining a lane list returns what was waiting before
   and then the newly enqueued jobs, in (priority, due time) order.
   */
  lemma PollComesOutInOrder(start: map<Uuid, Job>, jobs: map<Uuid, Job>, c: Cache, c': Cache, kind: JobState, nows: seq<Time>,
                            released: seq<Uuid>, clock: map<Uuid, Time>, n: nat, l: ListName, worker: Uuid)
    requires Polled(start, jobs, c, c', kind, nows, released, clock, n)
    ensures var added := NewIn(EntriesOf(start, released), l, c.markers);
            && Drawn(c', l, worker, |Waiting(c'.lists, l)|) == Reverse(Waiting(c.lists, l)) + added
            && forall i, j | 0 <= i < j < |added| :: ServedBefore(start, clock, added[i], added[j])
  {
    var es := EntriesOf(start, released);
    BatchComesOutInOrder(c, es, l, worker);
    forall i, j | 0 <= i < j < |es| ensures ServedBefore(start, clock, es[i].job, es[j].job) {
      PollServesInOrder(start, kind, nows, released, n, clock, i, j);
    }
    NewInInherits(es, l, c.markers, (x: Uuid, y: Uuid) => ServedBefore(start, clock, x, y));
  }
}
