/**
 The Redis queue: lane lists, `enqueued:` markers and processing lists, and the
 scripts over them. A list's head is index 0: LPUSH adds there, RPOP takes the
 other end.
 */
module Queues {
  import opened Jobs
  import opened Shuffle

  datatype Item = Item(job: Uuid, list: ListName)

  datatype Cache = Cache(lists: map<ListName, seq<Uuid>>, markers: set<Uuid>, processing: map<Uuid, seq<Uuid>>)

  const EMPTY := Cache(map[], {}, map[])

  /** Redis reads a missing list as empty. */
  function Waiting(lists: map<ListName, seq<Uuid>>, l: ListName): seq<Uuid> {
    if l in lists then lists[l] else []
  }

  function InHand(c: Cache, worker: Uuid): seq<Uuid> {
    if worker in c.processing then c.processing[worker] else []
  }

  /** enqueueScript: push only if the marker was newly set. */
  function Push(c: Cache, l: ListName, id: Uuid): Cache {
    if id in c.markers then c
    else c.(lists := c.lists[l := [id] + Waiting(c.lists, l)], markers := c.markers + {id})
  }

  /** popScript once it found a nonempty list: the oldest entry goes to the worker and loses its marker. */
  function Take(c: Cache, l: ListName, worker: Uuid): Cache
    requires Waiting(c.lists, l) != []
  {
    var q := Waiting(c.lists, l);
    var id := q[|q| - 1];
    Cache(c.lists[l := q[..|q| - 1]], c.markers - {id}, c.processing[worker := [id] + InHand(c, worker)])
  }

  function PushAll(c: Cache, es: seq<Item>): Cache {
    if es == [] then c
    else Push(PushAll(c, es[..|es| - 1]), es[|es| - 1].list, es[|es| - 1].job)
  }

  function Last(q: seq<Uuid>): Uuid
    requires q != []
  {
    q[|q| - 1]
  }

  function Remove(q: seq<Uuid>, id: Uuid): (r: seq<Uuid>)
    ensures forall x :: x in r <==> x in q && x != id
  {
    if q == [] then [] else (if q[0] == id then [] else [q[0]]) + Remove(q[1..], id)
  }

  /** A job in the processing list of a worker that is not alive. */
  predicate Stranded(processing: map<Uuid, seq<Uuid>>, alive: set<Uuid>, id: Uuid) {
    exists w | w in processing && w !in alive :: id in processing[w]
  }

  /** How many entries these lists hold together, each counted once. */
  function Entries(lists: map<ListName, seq<Uuid>>, keys: seq<ListName>): nat {
    if keys == [] then 0
    else
      var init, last := keys[..|keys| - 1], keys[|keys| - 1];
      Entries(lists, init) + if last in init then 0 else |Waiting(lists, last)|
  }

  lemma EntriesOneMore(lists: map<ListName, seq<Uuid>>, keys: seq<ListName>, i: nat)
    requires i < |keys|
    ensures Entries(lists, keys[..i + 1]) == Entries(lists, keys[..i]) + if keys[i] in keys[..i] then 0 else |Waiting(lists, keys[i])|
    ensures forall l :: l in keys[..i + 1] <==> l in keys[..i] || l == keys[i]
  {
    assert keys[..i + 1] == keys[..i] + [keys[i]];
  }

  /** What is left once the nonempty lists among `keys` are deleted. */
  function Kept(lists: map<ListName, seq<Uuid>>, keys: seq<ListName>): map<ListName, seq<Uuid>> {
    map l | l in lists && (l !in keys || lists[l] == []) :: lists[l]
  }

  lemma KeptOneMore(lists: map<ListName, seq<Uuid>>, keys: seq<ListName>, i: nat)
    requires i < |keys|
    ensures var kept := Kept(lists, keys[..i]);
            && Kept(lists, keys[..i + 1]) == (if Waiting(kept, keys[i]) == [] then kept else kept - {keys[i]})
            && |Waiting(kept, keys[i])| == (if keys[i] in keys[..i] then 0 else |Waiting(lists, keys[i])|)
  {
    assert keys[..i + 1] == keys[..i] + [keys[i]];
  }

  // ---- the keys a pop looks at ------------------------------------------------------

  const LANES := [High, Normal, Low]

  function Rank(lane: Lane): nat {
    match lane case High => 0 case Normal => 1 case Low => 2
  }

  function LaneKeys(lane: Lane, order: seq<Uuid>): seq<ListName> {
    seq(|order|, i requires 0 <= i < |order| => ListName(lane, order[i]))
  }

  function PopKeys(order: seq<Uuid>): seq<ListName> {
    LaneKeys(High, order) + LaneKeys(Normal, order) + LaneKeys(Low, order)
  }

  /** Lanes are listed strictly by priority, and each (lane, tenant) pair exactly once. */
  lemma KeysAreStrict(order: seq<Uuid>)
    ensures forall i, j | 0 <= i < j < |PopKeys(order)| :: Rank(PopKeys(order)[i].lane) <= Rank(PopKeys(order)[j].lane)
    ensures forall lane, t :: ListName(lane, t) in PopKeys(order) <==> t in order
    ensures (forall i, j | 0 <= i < j < |order| :: order[i] != order[j]) ==>
              forall i, j | 0 <= i < j < |PopKeys(order)| :: PopKeys(order)[i] != PopKeys(order)[j]
  {
    forall lane, t ensures ListName(lane, t) in PopKeys(order) <==> t in order {
      if t in order {
        var i :| 0 <= i < |order| && order[i] == t;
        assert PopKeys(order)[Rank(lane) * |order| + i] == ListName(lane, t);
      }
    }
  }

  lemma SameMembers(a: seq<Uuid>, b: seq<Uuid>)
    requires multiset(a) == multiset(b)
    ensures forall x :: x in a <==> x in b
  {
    assert forall x :: x in a <==> x in multiset(a);
    assert forall x :: x in b <==> x in multiset(b);
  }

  /** If every key before `at` is empty, so is every higher lane of every tenant. */
  lemma EmptyBefore(c: Cache, order: seq<Uuid>, at: nat)
    requires at <= |PopKeys(order)| && forall k | 0 <= k < at :: Waiting(c.lists, PopKeys(order)[k]) == []
    ensures forall lane, t | t in order && (at < |PopKeys(order)| ==> Rank(lane) < Rank(PopKeys(order)[at].lane)) ::
              Waiting(c.lists, ListName(lane, t)) == []
    ensures at < |PopKeys(order)| ==> PopKeys(order)[at].tenant in order
  {
    KeysAreStrict(order);
    var keys := PopKeys(order);
    if at < |keys| { assert ListName(keys[at].lane, keys[at].tenant) in keys; }
    forall lane, t | t in order && (at < |keys| ==> Rank(lane) < Rank(keys[at].lane))
      ensures Waiting(c.lists, ListName(lane, t)) == []
    {
      var k :| 0 <= k < |keys| && keys[k] == ListName(lane, t);
    }
  }

  class RedisQueue {
    var lists: map<ListName, seq<Uuid>>
    var markers: set<Uuid>
    var processing: map<Uuid, seq<Uuid>>

    ghost function Contents(): Cache
      reads this
    {
      Cache(lists, markers, processing)
    }

    constructor ()
      ensures Contents() == EMPTY
    {
      lists, markers, processing := map[], {}, map[];
    }

    /** enqueueScript. */
    method PushTo(l: ListName, id: Uuid) returns (added: bool)
      modifies this
      ensures Contents() == Push(old(Contents()), l, id)
      ensures added <==> id !in old(markers)
    {
      added := id !in markers;
      if added {
        markers := markers + {id};
        lists := lists[l := [id] + if l in lists then lists[l] else []];
      }
    }

    method Enqueue(tenant: Uuid, id: Uuid, priority: int)
      modifies this
      ensures Contents() == Push(old(Contents()), ListName(LaneFor(priority), tenant), id)
    {
      var added := PushTo(ListName(LaneFor(priority), tenant), id);
    }

    method Requeue(item: Item)
      modifies this
      ensures Contents() == Push(old(Contents()), item.list, item.job)
    {
      var added := PushTo(item.list, item.job);
    }

    /** EnqueueMany: one script call per entry, in order. */
    method EnqueueMany(entries: seq<Item>)
      modifies this
      ensures Contents() == PushAll(old(Contents()), entries)
    {
      var i := 0;
      while i < |entries|
        invariant i <= |entries| && Contents() == PushAll(old(Contents()), entries[..i])
      {
        var added := PushTo(entries[i].list, entries[i].job);
        assert entries[..i + 1][..i] == entries[..i];
        i := i + 1;
      }
      assert entries[..i] == entries;
    }

    /** popScript: the first nonempty list of the keys, and how far it got. */
    method PopScript(keys: seq<ListName>, worker: Uuid) returns (item: Option<Item>, ghost at: nat)
      modifies this
      ensures at <= |keys| && forall k | 0 <= k < at :: Waiting(old(Contents()).lists, keys[k]) == []
      ensures item.None? <==> at == |keys|
      ensures item.None? ==> Contents() == old(Contents())
      ensures item.Some? ==>
                && item.value.list == keys[at]
                && Waiting(old(Contents()).lists, keys[at]) != []
                && item.value.job == Last(Waiting(old(Contents()).lists, keys[at]))
                && Contents() == Take(old(Contents()), keys[at], worker)
    {
      var i := 0;
      while i < |keys|
        invariant i <= |keys| && Contents() == old(Contents())
        invariant forall k | 0 <= k < i :: Waiting(Contents().lists, keys[k]) == []
      {
        if keys[i] in lists && lists[keys[i]] != [] {
          var q := lists[keys[i]];
          var id := q[|q| - 1];
          lists := lists[keys[i] := q[..|q| - 1]];
          markers := markers - {id};
          processing := processing[worker := [id] + if worker in processing then processing[worker] else []];
          return Some(Item(id, keys[i])), i;
        }
        i := i + 1;
      }
      return None, |keys|;
    }

    /**
     Pop: strict lanes, weighted-random tenants within a lane, first in first out
     within a list. The entry it returns is in the worker's processing list.
     */
    method Pop(worker: Uuid, tenants: array<TenantWeight>) returns (item: Option<Item>)
      requires Positive(tenants[..])
      modifies this
      ensures item.None? ==>
                && Contents() == old(Contents())
                && forall lane, t | t in Ids(tenants[..]) :: Waiting(old(Contents()).lists, ListName(lane, t)) == []
      ensures item.Some? ==>
                var was := old(Contents());
                var l := item.value.list;
                && l.tenant in Ids(tenants[..])
                && Waiting(was.lists, l) != []
                && item.value.job == Last(Waiting(was.lists, l))
                && Contents() == Take(was, l, worker)
                && item.value.job in InHand(Contents(), worker)
                && forall lane, t | t in Ids(tenants[..]) && Rank(lane) < Rank(l.lane) :: Waiting(was.lists, ListName(lane, t)) == []
    {
      var order, draws := WeightedShuffle(tenants);
      SameMembers(order, Ids(tenants[..]));
      var keys := PopKeyList(order);
      ghost var at;
      item, at := PopScript(keys, worker);
      EmptyBefore(old(Contents()), order, at);
    }

    /** Empties the processing lists of dead workers; those of live ones stay as they are. */
    method DeadWorkerJobs(alive: set<Uuid>) returns (ids: seq<Uuid>)
      modifies this
      ensures Contents() == old(Contents()).(processing := map w | w in old(processing) && w in alive :: old(processing)[w])
      ensures forall x :: x in ids <==> Stranded(old(processing), alive, x)
    {
      ids := [];
      var left := processing.Keys;
      while left != {}
        invariant left <= processing.Keys && lists == old(lists) && markers == old(markers)
        invariant processing == map w | w in old(processing) && (w in left || w in alive) :: old(processing)[w]
        invariant forall x :: x in ids <==> exists w | w in old(processing) - left && w !in alive :: x in old(processing)[w]
        decreases |left|
      {
        var w :| w in left;
        if w !in alive {
          ids := ids + processing[w];
          processing := processing - {w};
        }
        left := left - {w};
      }
    }

    /**
     The drain command, undisturbed: nonempty lists go first, then the markers; processing
     lists stay. `keys` is what the scan returned, in any order and perhaps repeated.
     */
    method Drain(keys: seq<ListName>) returns (drained: nat)
      requires forall l | l in lists :: l in keys
      modifies this
      ensures (forall l :: Waiting(lists, l) == []) && markers == {} && processing == old(processing)
      ensures drained == Entries(old(lists), keys)
    {
      drained := DrainLists(keys);
      DrainMarkers();
    }

    method DrainLists(keys: seq<ListName>) returns (drained: nat)
      modifies this`lists
      ensures lists == Kept(old(lists), keys) && drained == Entries(old(lists), keys)
    {
      drained := 0;
      var i := 0;
      assert Kept(lists, []) == lists;
      while i < |keys|
        invariant i <= |keys| && drained == Entries(old(lists), keys[..i]) && lists == Kept(old(lists), keys[..i])
      {
        EntriesOneMore(old(lists), keys, i);
        KeptOneMore(old(lists), keys, i);
        if keys[i] in lists && |lists[keys[i]]| > 0 {
          drained := drained + |lists[keys[i]]|;
          lists := lists - {keys[i]};
        }
        i := i + 1;
      }
      assert keys[..i] == keys;
    }

    method DrainMarkers()
      modifies this`markers
      ensures markers == {}
    {
      while markers != {}
        decreases |markers|
      {
        var page :| page <= markers && page != {};
        markers := markers - page;
      }
    }

    /** LREM 0: every copy goes. */
    method RemoveFromProcessing(worker: Uuid, id: Uuid)
      modifies this
      ensures var was := old(Contents());
              Contents() == was.(processing := was.processing[worker := Remove(InHand(was, worker), id)])
    {
      processing := processing[worker := Remove(if worker in processing then processing[worker] else [], id)];
    }
  }

  method PopKeyList(order: seq<Uuid>) returns (keys: seq<ListName>)
    ensures keys == PopKeys(order)
  {
    keys := [];
    var b := 0;
    while b < |LANES|
      invariant b <= 3
      invariant keys == if b == 0 then [] else if b == 1 then LaneKeys(High, order)
                        else if b == 2 then LaneKeys(High, order) + LaneKeys(Normal, order) else PopKeys(order)
    {
      ghost var before := keys;
      var i := 0;
      while i < |order|
        invariant i <= |order| && keys == before + LaneKeys(LANES[b], order[..i])
      {
        assert LaneKeys(LANES[b], order[..i + 1]) == LaneKeys(LANES[b], order[..i]) + [ListName(LANES[b], order[i])];
        keys := keys + [ListName(LANES[b], order[i])];
        i := i + 1;
      }
      assert order[..i] == order;
      b := b + 1;
    }
  }
}
