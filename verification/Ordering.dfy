/** ORDER BY ... LIMIT over rows ranked by priority, a time and (where it is part of the key) the id. */
module Ordering {
  import opened Jobs

  datatype Rank = Rank(priority: int, time: Time, id: int)

  /** Strictly before, lexicographically. */
  predicate Before(a: Rank, b: Rank) {
    || a.priority < b.priority
    || (a.priority == b.priority && a.time < b.time)
    || (a.priority == b.priority && a.time == b.time && a.id < b.id)
  }

  predicate NotAfter(a: Rank, b: Rank) {
    a == b || Before(a, b)
  }

  ghost predicate Sorted(rank: map<Uuid, Rank>, page: seq<Uuid>) {
    && (forall i | 0 <= i < |page| :: page[i] in rank)
    && (forall i, j | 0 <= i < j < |page| :: page[i] != page[j] && NotAfter(rank[page[i]], rank[page[j]]))
  }

  /** The first `limit` rows in rank order; ties go either way. */
  ghost predicate IsPage(rank: map<Uuid, Rank>, limit: nat, page: seq<Uuid>) {
    && Sorted(rank, page)
    && |page| == (if |rank| < limit then |rank| else limit)
    && forall x, i | x in rank && x !in page && 0 <= i < |page| :: NotAfter(rank[page[i]], rank[x])
  }

  lemma {:induction false} LeastExists(rank: map<Uuid, Rank>, left: set<Uuid>)
    requires left != {} && left <= rank.Keys
    ensures exists x :: x in left && forall y | y in left :: NotAfter(rank[x], rank[y])
  {
    var x :| x in left;
    if left == {x} {
      assert forall y | y in left :: NotAfter(rank[x], rank[y]);
    } else {
      LeastExists(rank, left - {x});
      var m :| m in left - {x} && forall y | y in left - {x} :: NotAfter(rank[m], rank[y]);
      if NotAfter(rank[x], rank[m]) {
        assert forall y | y in left :: NotAfter(rank[x], rank[y]);
      } else {
        assert forall y | y in left :: NotAfter(rank[m], rank[y]);
      }
    }
  }

  lemma {:induction false} PageSize(page: seq<Uuid>, s: set<Uuid>)
    requires forall i, j | 0 <= i < j < |page| :: page[i] != page[j]
    requires forall x :: x in s <==> x in page
    ensures |s| == |page|
    decreases |page|
  {
    if page == [] {
      assert s == {};
    } else {
      var x := page[|page| - 1];
      PageSize(page[..|page| - 1], s - {x});
    }
  }

  /** A short page has every row. */
  lemma ShortPageIsAll(ranks: map<Uuid, Rank>, limit: nat, page: seq<Uuid>)
    requires IsPage(ranks, limit, page) && |page| < limit
    ensures forall x | x in ranks :: x in page
  {
    var members := set x | x in page;
    PageSize(page, members);
    if x :| x in ranks && x !in page {
      assert members <= ranks.Keys - {x};
      SubsetIsSmaller(members, ranks.Keys - {x});
    }
  }

  method OrderBy(rank: map<Uuid, Rank>, limit: nat) returns (page: seq<Uuid>)
    ensures IsPage(rank, limit, page)
  {
    page := [];
    var left := rank.Keys;
    while |page| < limit && left != {}
      invariant |page| <= limit && left <= rank.Keys && |left| + |page| == |rank|
      invariant forall x :: x in rank <==> x in left || x in page
      invariant forall x | x in left :: x !in page
      invariant Sorted(rank, page)
      invariant forall x, i | x in left && 0 <= i < |page| :: NotAfter(rank[page[i]], rank[x])
      decreases |left|
    {
      LeastExists(rank, left);
      var x :| x in left && forall y | y in left :: NotAfter(rank[x], rank[y]);
      page := page + [x];
      left := left - {x};
    }
  }
}
