/** The weighted-random tenant order workers dequeue in. */
module Shuffle {
  import opened Jobs

  datatype TenantWeight = TenantWeight(id: Uuid, weight: int)

  predicate Positive(ts: seq<TenantWeight>) {
    forall i | 0 <= i < |ts| :: ts[i].weight > 0
  }

  function Total(ts: seq<TenantWeight>): int {
    if ts == [] then 0 else ts[0].weight + Total(ts[1..])
  }

  function Ids(ts: seq<TenantWeight>): seq<Uuid> {
    seq(|ts|, i requires 0 <= i < |ts| => ts[i].id)
  }

  function Without<T>(s: seq<T>, i: nat): seq<T>
    requires i < |s|
  {
    s[..i] + s[i + 1..]
  }

  /** The weight a tenant row is loaded with: rows without a positive one count as 100. */
  function LoadedWeight(weight: int): (w: int)
    ensures w > 0 && (weight > 0 ==> w == weight)
  {
    if weight <= 0 then 100 else weight
  }

  lemma {:induction false} TotalAppend(ts: seq<TenantWeight>, t: TenantWeight)
    ensures Total(ts + [t]) == Total(ts) + t.weight
  {
    if ts == [] {
      assert ts + [t] == [t];
    } else {
      assert (ts + [t])[1..] == ts[1..] + [t];
      TotalAppend(ts[1..], t);
    }
  }

  lemma {:induction false} PrefixTotal(ts: seq<TenantWeight>, i: nat)
    requires i < |ts|
    ensures Total(ts[..i + 1]) == Total(ts[..i]) + ts[i].weight
  {
    assert ts[..i + 1] == ts[..i] + [ts[i]];
    TotalAppend(ts[..i], ts[i]);
  }

  lemma {:induction false} PrefixTotalsGrow(ts: seq<TenantWeight>, i: nat, j: nat)
    requires Positive(ts) && i <= j <= |ts|
    ensures Total(ts[..i]) <= Total(ts[..j])
    ensures i < j ==> Total(ts[..i]) < Total(ts[..j])
    decreases j - i
  {
    if i < j {
      PrefixTotal(ts, i);
      PrefixTotalsGrow(ts, i + 1, j);
    }
  }

  /** Tenant `i` is selected by the draws from the weight before it up to the weight through it. */
  predicate Selects(ts: seq<TenantWeight>, r: int, i: nat)
    requires i < |ts|
  {
    Total(ts[..i]) <= r < Total(ts[..i + 1])
  }

  /** The draws, out of all that rand.Intn(total) can return, that select a tenant. */
  function Winners(ts: seq<TenantWeight>, i: nat): set<int>
    requires i < |ts|
  {
    set r | 0 <= r < Total(ts) && Selects(ts, r, i)
  }

  function Interval(lo: int, hi: int): (s: set<int>)
    ensures forall r :: r in s <==> lo <= r < hi
    ensures |s| == if lo <= hi then hi - lo else 0
    decreases hi - lo
  {
    if hi <= lo then {} else Interval(lo, hi - 1) + {hi - 1}
  }

  /** Of the `total` equally likely draws, exactly `weight` select each tenant. */
  lemma FairShare(ts: seq<TenantWeight>, i: nat)
    requires Positive(ts) && i < |ts|
    ensures |Winners(ts, i)| == ts[i].weight
  {
    PrefixTotal(ts, i);
    PrefixTotalsGrow(ts, 0, i);
    PrefixTotalsGrow(ts, i + 1, |ts|);
    assert ts[..|ts|] == ts;
    assert Winners(ts, i) == Interval(Total(ts[..i]), Total(ts[..i + 1]));
  }

  /** Every draw below the total selects exactly one tenant. */
  lemma OneWinner(ts: seq<TenantWeight>, r: int, i: nat, j: nat)
    requires Positive(ts) && i < |ts| && j < |ts| && Selects(ts, r, i) && Selects(ts, r, j)
    ensures i == j
  {
    if i < j { PrefixTotalsGrow(ts, i + 1, j); }
    if j < i { PrefixTotalsGrow(ts, j + 1, i); }
  }

  /** The order a sequence of draws produces, one round per draw. */
  ghost predicate Produces(ts: seq<TenantWeight>, draws: seq<int>, out: seq<Uuid>)
    decreases |ts|
  {
    if ts == [] then draws == [] && out == []
    else
      && draws != [] && out != [] && 0 <= draws[0] < Total(ts)
      && exists i :: 0 <= i < |ts| && Selects(ts, draws[0], i) && out[0] == ts[i].id
                     && Produces(Without(ts, i), draws[1..], out[1..])
  }

  lemma WithoutIds(ts: seq<TenantWeight>, i: nat)
    requires i < |ts|
    ensures multiset(Ids(ts)) == multiset(Ids(Without(ts, i))) + multiset{ts[i].id}
    ensures Positive(ts) ==> Positive(Without(ts, i))
  {
    assert Ids(ts) == Ids(ts)[..i] + [ts[i].id] + Ids(ts)[i + 1..];
    assert Ids(Without(ts, i)) == Ids(ts)[..i] + Ids(ts)[i + 1..];
  }

  lemma FirstProduced(ts: seq<TenantWeight>, draws: seq<int>, out: seq<Uuid>) returns (i: nat)
    requires ts != [] && Produces(ts, draws, out)
    ensures draws != [] && out != [] && i < |ts| && out[0] == ts[i].id && Produces(Without(ts, i), draws[1..], out[1..])
  {
    i :| 0 <= i < |ts| && Selects(ts, draws[0], i) && out[0] == ts[i].id && Produces(Without(ts, i), draws[1..], out[1..]);
  }

  /** Any draws whatever produce a permutation of the tenant ids. */
  lemma {:induction false} ProducesPermutation(ts: seq<TenantWeight>, draws: seq<int>, out: seq<Uuid>)
    requires Produces(ts, draws, out)
    ensures multiset(out) == multiset(Ids(ts)) && |draws| == |out| == |ts|
    decreases |ts|
  {
    if ts == [] {
      assert Ids(ts) == [];
    } else {
      var i := FirstProduced(ts, draws, out);
      ProducesPermutation(Without(ts, i), draws[1..], out[1..]);
      WithoutIds(ts, i);
      assert out == [out[0]] + out[1..];
    }
  }

  /** However the tenants left over are ordered, it continues this order of the first ones. */
  ghost predicate Continues(start: seq<TenantWeight>, left: seq<TenantWeight>, draws: seq<int>, out: seq<Uuid>) {
    forall d, o | Produces(left, d, o) :: Produces(start, draws + d, out + o)
  }

  lemma ContinuesItself(start: seq<TenantWeight>)
    ensures Continues(start, start, [], [])
  {
    assert forall d: seq<int>, o: seq<Uuid> :: [] + d == d && [] + o == o;
  }

  lemma NothingLeft(start: seq<TenantWeight>, draws: seq<int>, out: seq<Uuid>)
    requires Continues(start, [], draws, out)
    ensures Produces(start, draws, out) && multiset(out) == multiset(Ids(start))
  {
    assert Produces([], [], []);
    assert draws + [] == draws && out + [] == out;
    ProducesPermutation(start, draws, out);
  }

  lemma ProducesOneMore(left: seq<TenantWeight>, r: int, i: nat, d: seq<int>, o: seq<Uuid>)
    requires 0 <= r < Total(left) && i < |left| && Selects(left, r, i) && Produces(Without(left, i), d, o)
    ensures Produces(left, [r] + d, [left[i].id] + o)
  {
    assert ([r] + d)[1..] == d && ([left[i].id] + o)[1..] == o;
  }

  lemma ContinuesThrough(start: seq<TenantWeight>, left: seq<TenantWeight>, draws: seq<int>, out: seq<Uuid>, r: int, i: nat,
                         d: seq<int>, o: seq<Uuid>)
    requires i < |left| && Continues(start, left, draws, out) && Produces(left, [r] + d, [left[i].id] + o)
    ensures Produces(start, draws + [r] + d, out + [left[i].id] + o)
  {
    assert draws + ([r] + d) == draws + [r] + d && out + ([left[i].id] + o) == out + [left[i].id] + o;
  }

  lemma ContinuesOne(start: seq<TenantWeight>, left: seq<TenantWeight>, draws: seq<int>, out: seq<Uuid>, r: int, i: nat)
    requires Continues(start, left, draws, out)
    requires 0 <= r < Total(left) && i < |left| && Selects(left, r, i)
    ensures Continues(start, Without(left, i), draws + [r], out + [left[i].id])
  {
    forall d, o | Produces(Without(left, i), d, o) ensures Produces(start, draws + [r] + d, out + [left[i].id] + o) {
      ProducesOneMore(left, r, i, d, o);
      ContinuesThrough(start, left, draws, out, r, i, d, o);
    }
  }

  // ---- the loops ---------------------------------------------------------------------

  /** Removes index `i` by shifting the rest of the first `n` elements down. */
  method RemoveAt(a: array<TenantWeight>, n: nat, i: nat)
    requires i < n <= a.Length
    modifies a
    ensures a[..n - 1] == Without(old(a[..n]), i)
  {
    var k := i;
    while k < n - 1
      invariant i <= k <= n - 1
      invariant forall m | 0 <= m < i :: a[m] == old(a[m])
      invariant forall m | i <= m < k :: a[m] == old(a[m + 1])
      invariant forall m | k <= m < n :: a[m] == old(a[m])
    {
      a[k] := a[k + 1];
      k := k + 1;
    }
  }

  method Sum(a: array<TenantWeight>, n: nat) returns (total: int)
    requires n <= a.Length
    ensures total == Total(a[..n])
  {
    total := 0;
    var k := 0;
    while k < n
      invariant k <= n && total == Total(a[..k])
    {
      TotalAppend(a[..k], a[k]);
      assert a[..k + 1] == a[..k] + [a[k]];
      total := total + a[k].weight;
      k := k + 1;
    }
  }

  /** The inner loop: walk the running sum up to the draw. It always selects. */
  method Select(a: array<TenantWeight>, n: nat, r: int) returns (i: nat)
    requires n <= a.Length && Positive(a[..n]) && 0 <= r < Total(a[..n])
    ensures i < n && Selects(a[..n], r, i)
  {
    i := 0;
    var cum := 0;
    assert a[..n][..n] == a[..n];
    while true
      invariant i < n && cum == Total(a[..i]) && cum <= r
      decreases n - i
    {
      ghost var all := a[..n];
      assert all[..i] == a[..i] && all[..i + 1] == a[..i + 1];
      PrefixTotal(all, i);
      cum := cum + a[i].weight;
      if r < cum { return; }
      i := i + 1;
    }
  }

  /**
   weightedShuffle, on a copy of the caller's slice (there is no modifies clause,
   so the caller's is unchanged). The draws it made are a ghost result.
   */
  method WeightedShuffle(tenants: array<TenantWeight>) returns (out: seq<Uuid>, ghost draws: seq<int>)
    requires Positive(tenants[..])
    ensures Produces(tenants[..], draws, out)
    ensures multiset(out) == multiset(Ids(tenants[..]))
  {
    var remaining := new TenantWeight[tenants.Length](i requires 0 <= i < tenants.Length reads tenants => tenants[i]);
    var n := tenants.Length;
    out, draws := [], [];
    ghost var start := tenants[..];
    assert remaining[..n] == start;
    ContinuesItself(start);
    while n > 0
      invariant n <= remaining.Length && fresh(remaining) && Positive(remaining[..n])
      invariant Continues(start, remaining[..n], draws, out)
      decreases n
    {
      ghost var left := remaining[..n];
      var total := Sum(remaining, n);
      PrefixTotalsGrow(left, 0, n);
      assert left[..n] == left;
      var r :| 0 <= r < total;
      var i := Select(remaining, n, r);
      out := out + [remaining[i].id];
      RemoveAt(remaining, n, i);
      ContinuesOne(start, left, draws, out[..|out| - 1], r, i);
      WithoutIds(left, i);
      draws := draws + [r];
      n := n - 1;
    }
    assert remaining[..n] == [];
    NothingLeft(start, draws, out);
  }
}
