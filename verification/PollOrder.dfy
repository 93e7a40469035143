/**
 When a release poll as a whole is in (priority, due time) order: a condition on the
 table before it and on the clocks of its batches.
 */
module PollOrder {
  import opened Jobs
  import opened Ordering
  import opened Release

  ghost predicate FullyOrdered(start: map<Uuid, Job>, released: seq<Uuid>) {
    forall i, j | 0 <= i < j < |released| && released[i] in start && released[j] in start ::
      NotAfter(RankOf(start[released[i]]), RankOf(start[released[j]]))
  }

  predicate Ascends(nows: seq<Time>) {
    forall i, j | 0 <= i < j < |nows| :: nows[i] <= nows[j]
  }

  function DueBy(start: map<Uuid, Job>, kind: JobState, t: Time): set<Uuid> {
    set id | id in start && start[id].state == kind && start[id].runAt <= t
  }

  /** The jobs due by `t` that rank no later than `y`. */
  function AheadOf(start: map<Uuid, Job>, kind: JobState, t: Time, y: Uuid): set<Uuid>
    requires y in start
  {
    set x | x in DueBy(start, kind, t) && NotAfter(RankOf(start[x]), RankOf(start[y]))
  }

  /** Enough jobs fall due for the poll to read batch `m`: all before it are full. */
  ghost predicate Reaches(start: map<Uuid, Job>, kind: JobState, nows: seq<Time>, m: nat) {
    m < |nows| && forall b | 0 <= b < m :: |DueBy(start, kind, nows[b])| >= Cut(b + 1)
  }

  /** Job `y` falls due between the clocks of batches `m - 1` and `m`. */
  predicate FallsDue(start: map<Uuid, Job>, kind: JobState, nows: seq<Time>, m: nat, y: Uuid) {
    1 <= m < |nows| && y in start && start[y].state == kind && nows[m - 1] < start[y].runAt <= nows[m]
  }

  /**
   A condition on the table before a poll and on its clocks: a job that falls due between
   two batches the poll reaches has at least as many jobs due ahead of it as the batches
   before have room for.
   */
  ghost predicate LateJobsFit(start: map<Uuid, Job>, kind: JobState, nows: seq<Time>) {
    forall m: nat, y | Reaches(start, kind, nows, m) && FallsDue(start, kind, nows, m, y) ::
      |AheadOf(start, kind, nows[m - 1], y)| >= Cut(m)
  }

  /** The first `m` full batches are that many different jobs, all due by the clock of the last of them. */
  lemma FirstsAreDue(start: map<Uuid, Job>, kind: JobState, nows: seq<Time>, released: seq<Uuid>, n: nat, m: nat) returns (firsts: set<Uuid>)
    requires InBatches(start, kind, nows, released, n) && Ascends(nows) && Cut(m) <= |released| && m <= n
    ensures forall x :: x in firsts <==> x in released[..Cut(m)]
    ensures |firsts| == Cut(m)
    ensures m > 0 ==> firsts <= DueBy(start, kind, nows[m - 1]) && |DueBy(start, kind, nows[m - 1])| >= Cut(m)
  {
    var head := released[..Cut(m)];
    firsts := set x | x in head;
    forall i, j | 0 <= i < j < |head| ensures head[i] != head[j] {
      ReleasedOnce(start, kind, nows, released, n, i, j);
    }
    PageSize(head, firsts);
    forall x | x in firsts && m > 0 ensures x in DueBy(start, kind, nows[m - 1]) {
      var j :| 0 <= j < |head| && head[j] == x;
      ReleasedInBatch(start, kind, nows, released, n, j);
      assert BatchOf(j) <= m - 1;
    }
    if m > 0 { SubsetIsSmaller(firsts, DueBy(start, kind, nows[m - 1])); }
  }

  lemma FullBatchesReach(start: map<Uuid, Job>, kind: JobState, nows: seq<Time>, released: seq<Uuid>, n: nat, m: nat)
    requires InBatches(start, kind, nows, released, n) && Ascends(nows) && m <= n && m < |nows| && Cut(m) <= |released|
    ensures Reaches(start, kind, nows, m)
  {
    forall b | 0 <= b < m ensures |DueBy(start, kind, nows[b])| >= Cut(b + 1) {
      var firsts := FirstsAreDue(start, kind, nows, released, n, b + 1);
    }
  }

  /** Conversely, if enough jobs fall due, the poll gets there. */
  lemma {:induction false} ReachedIsRead(start: map<Uuid, Job>, kind: JobState, nows: seq<Time>, released: seq<Uuid>, n: nat, m: nat)
    requires IsPoll(start, kind, nows, released, n) && Ascends(nows) && Reaches(start, kind, nows, m)
    ensures m < n && Cut(m) <= |released|
    decreases m
  {
    if m > 0 {
      var b := m - 1;
      ReachedIsRead(start, kind, nows, released, n, b);
      var firsts := FirstsAreDue(start, kind, nows, released, n, b);
      assert IsBatch(start, kind, nows[b], released, b);
      var due := DueBy(start, kind, nows[b]);
      var left := LeftRanks(start, kind, released[..Cut(b)], nows[b]);
      assert left.Keys == due - firsts;
      assert firsts <= due;
      assert |left| == |left.Keys| == |due| - |firsts|;
    }
  }

  /** Every job due by `t` that is not among `gone` ranks no earlier than any that is. */
  ghost predicate Behind(start: map<Uuid, Job>, kind: JobState, t: Time, gone: seq<Uuid>) {
    forall x, z | x in gone && z in DueBy(start, kind, t) && z !in gone && x in start :: NotAfter(RankOf(start[x]), RankOf(start[z]))
  }

  /** If that holds when batch `m` is read, a job that fell due since, and fits, has nothing before it that it outranks. */
  lemma LateJobIsBehind(start: map<Uuid, Job>, kind: JobState, t: Time, gone: seq<Uuid>, firsts: set<Uuid>, x: Uuid, y: Uuid)
    requires Behind(start, kind, t, gone) && (forall z :: z in firsts <==> z in gone) && firsts <= DueBy(start, kind, t)
    requires y in start && |AheadOf(start, kind, t, y)| >= |firsts| && x in gone
    ensures x in start && NotAfter(RankOf(start[x]), RankOf(start[y]))
  {
    assert x in firsts;
    var ahead := AheadOf(start, kind, t, y);
    if ahead <= firsts - {x} { SubsetIsSmaller(ahead, firsts - {x}); }
    if z :| z in ahead && z !in firsts {
      assert NotAfter(RankOf(start[x]), RankOf(start[z]));
    }
  }

  lemma LateJobsAreBehind(start: map<Uuid, Job>, kind: JobState, nows: seq<Time>, gone: seq<Uuid>, firsts: set<Uuid>, m: nat)
    requires 0 < m && LateJobsFit(start, kind, nows) && Reaches(start, kind, nows, m)
    requires Behind(start, kind, nows[m - 1], gone) && |firsts| == Cut(m)
    requires (forall z :: z in firsts <==> z in gone) && firsts <= DueBy(start, kind, nows[m - 1])
    ensures Behind(start, kind, nows[m], gone)
  {
    forall x, z | x in gone && z in DueBy(start, kind, nows[m]) && z !in gone && x in start
      ensures NotAfter(RankOf(start[x]), RankOf(start[z]))
    {
      if z !in DueBy(start, kind, nows[m - 1]) {
        assert FallsDue(start, kind, nows, m, z);
        LateJobIsBehind(start, kind, nows[m - 1], gone, firsts, x, z);
      }
    }
  }

  lemma {:induction false} FirstsStayAhead(start: map<Uuid, Job>, kind: JobState, nows: seq<Time>, released: seq<Uuid>, n: nat, m: nat)
    requires InBatches(start, kind, nows, released, n) && Ascends(nows) && LateJobsFit(start, kind, nows)
    requires m < n && Cut(m) <= |released|
    ensures Behind(start, kind, nows[m], released[..Cut(m)])
    decreases m
  {
    if m > 0 {
      FirstsStayAhead(start, kind, nows, released, n, m - 1);
      assert IsBatch(start, kind, nows[m - 1], released, m - 1);
      BatchStaysAhead(start, kind, nows[m - 1], released, m - 1);
      var firsts := FirstsAreDue(start, kind, nows, released, n, m);
      FullBatchesReach(start, kind, nows, released, n, m);
      LateJobsAreBehind(start, kind, nows, released[..Cut(m)], firsts, m);
    }
  }

  lemma BatchStaysAhead(start: map<Uuid, Job>, kind: JobState, now: Time, released: seq<Uuid>, b: nat)
    requires IsBatch(start, kind, now, released, b) && Cut(b + 1) <= |released|
    requires Behind(start, kind, now, released[..Cut(b)])
    ensures Behind(start, kind, now, released[..Cut(b + 1)])
  {
    var before, gone, page := released[..Cut(b)], released[..Cut(b + 1)], PageOf(released, b);
    assert gone == before + page;
    var ranks := LeftRanks(start, kind, before, now);
    forall x, z | x in gone && z in DueBy(start, kind, now) && z !in gone && x in start
      ensures NotAfter(RankOf(start[x]), RankOf(start[z]))
    {
      if x !in before {
        var i :| 0 <= i < |page| && page[i] == x;
        assert z in ranks && NotAfter(ranks[page[i]], ranks[z]);
      }
    }
  }

  lemma FitIsOrdered(start: map<Uuid, Job>, kind: JobState, nows: seq<Time>, released: seq<Uuid>, n: nat)
    requires InBatches(start, kind, nows, released, n) && Ascends(nows) && LateJobsFit(start, kind, nows)
    ensures FullyOrdered(start, released)
  {
    forall i, j | 0 <= i < j < |released| && released[i] in start && released[j] in start
      ensures NotAfter(RankOf(start[released[i]]), RankOf(start[released[j]]))
    {
      var m := BatchOf(j);
      ReleasedOnce(start, kind, nows, released, n, i, j);
      if BatchOf(i) != m {
        ReleasedInBatch(start, kind, nows, released, n, j);
        FirstsStayAhead(start, kind, nows, released, n, m);
        assert released[i] in released[..Cut(m)];
      }
    }
  }

  /** A job that falls due and does not fit outranks one released before; the next batch then starts too early. */
  lemma MisfitBreaksOrder(start: map<Uuid, Job>, kind: JobState, nows: seq<Time>, released: seq<Uuid>, n: nat, m: nat, y: Uuid)
    requires IsPoll(start, kind, nows, released, n) && Ascends(nows)
    requires Reaches(start, kind, nows, m) && FallsDue(start, kind, nows, m, y)
    requires |AheadOf(start, kind, nows[m - 1], y)| < Cut(m)
    ensures !FullyOrdered(start, released)
  {
    ReachedIsRead(start, kind, nows, released, n, m);
    var firsts := FirstsAreDue(start, kind, nows, released, n, m);
    var gone := released[..Cut(m)];
    var x := OneIsOutranked(start, kind, nows[m - 1], firsts, y);
    assert x in gone && y !in firsts;
    var i :| 0 <= i < |gone| && gone[i] == x;
    assert IsBatch(start, kind, nows[m], released, m);
    NextStartsNoLater(LeftRanks(start, kind, gone, nows[m]), PageOf(released, m), y);
    assert PageOf(released, m)[0] == released[Cut(m)] && released[i] == x;
    assert !NotAfter(RankOf(start[released[i]]), RankOf(start[released[Cut(m)]]));
  }

  lemma OneIsOutranked(start: map<Uuid, Job>, kind: JobState, t: Time, firsts: set<Uuid>, y: Uuid) returns (x: Uuid)
    requires y in start && firsts <= DueBy(start, kind, t) && |AheadOf(start, kind, t, y)| < |firsts|
    ensures x in firsts && x in start && Before(RankOf(start[y]), RankOf(start[x]))
  {
    var ahead := AheadOf(start, kind, t, y);
    if firsts <= ahead { SubsetIsSmaller(firsts, ahead); }
    x :| x in firsts && x !in ahead;
  }

  lemma NextStartsNoLater(ranks: map<Uuid, Rank>, page: seq<Uuid>, y: Uuid)
    requires IsPage(ranks, RELEASE_BATCH, page) && y in ranks
    ensures page != [] && page[0] in ranks && NotAfter(ranks[page[0]], ranks[y])
  {
    assert |ranks| == |ranks.Keys| && ranks.Keys != {};
    if y in page {
      var i :| 0 <= i < |page| && page[i] == y;
    }
  }

  /**
   A poll is in (priority, due time) order as a whole if and only if every job that
   falls due between two of its batches fits behind the jobs already due. The condition
   is on the table before the poll and on the clocks at which its batches are read.
   */
  lemma FullyOrderedIff(start: map<Uuid, Job>, kind: JobState, nows: seq<Time>, released: seq<Uuid>, n: nat)
    requires IsPoll(start, kind, nows, released, n) && Ascends(nows)
    ensures FullyOrdered(start, released) <==> LateJobsFit(start, kind, nows)
  {
    if LateJobsFit(start, kind, nows) {
      FitIsOrdered(start, kind, nows, released, n);
    } else {
      var m: nat, y :| Reaches(start, kind, nows, m) && FallsDue(start, kind, nows, m, y)
                  && |AheadOf(start, kind, nows[m - 1], y)| < Cut(m);
      MisfitBreaksOrder(start, kind, nows, released, n, m, y);
    }
  }

  function DueAt(priority: int, at: Time): Job {
    Job(Spec(1, priority, 3, 30, None, 0), Scheduled, at, None, None, None, None, 0, None, None)
  }

  function Crowd(n: nat): (jobs: map<Uuid, Job>)
    ensures |jobs.Keys| == n
    ensures forall id: Uuid :: id in jobs <==> id < n
    ensures forall id | id in jobs :: jobs[id] == DueAt(5, 0)
  {
    if n == 0 then map[]
    else
      var rest := Crowd(n - 1);
      assert rest[n - 1 := DueAt(5, 0)].Keys == rest.Keys + {n - 1};
      rest[n - 1 := DueAt(5, 0)]
  }

  /** A thousand jobs of priority 5 due at once, and one of priority 4 due a moment later, all of one tenant. */
  function LateComer(): map<Uuid, Job> {
    Crowd(RELEASE_BATCH)[RELEASE_BATCH := DueAt(4, 1)]
  }

  lemma LateComerDoesNotFit(nows: seq<Time>)
    requires |nows| == RELEASE_MAX_BATCHES && nows[0] == 0 && nows[1] == 1
    ensures !LateJobsFit(LateComer(), Scheduled, nows)
  {
    var start := LateComer();
    assert DueBy(start, Scheduled, 0) == Crowd(RELEASE_BATCH).Keys;
    assert Reaches(start, Scheduled, nows, 1);
    assert FallsDue(start, Scheduled, nows, 1, RELEASE_BATCH);
    assert AheadOf(start, Scheduled, nows[0], RELEASE_BATCH) == {};
  }

  /** Any poll of that table whose first batch is read at 0 and second at 1 is out of order. */
  lemma LateComerGoesLast(nows: seq<Time>, released: seq<Uuid>, n: nat)
    requires IsPoll(LateComer(), Scheduled, nows, released, n) && Ascends(nows) && nows[0] == 0 && nows[1] == 1
    ensures !FullyOrdered(LateComer(), released)
  {
    LateComerDoesNotFit(nows);
    FullyOrderedIff(LateComer(), Scheduled, nows, released, n);
  }
}
