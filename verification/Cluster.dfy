/**
 Postgres and Redis together. Redis is a cache that anything may lose: markers
 and processing lists expire, FLUSHALL and the drain command empty it, workers
 die holding what they popped, and a crash may fall between a Postgres commit
 and the push that should follow it (the push is a step of its own that need
 not come). The queue never affects the safety of Postgres, and can always be
 rebuilt from it.
 */
module Cluster {
  import opened Jobs
  import opened Storage
  import opened Protocol
  import opened Lifecycle
  import opened Queues
  import opened Concurrency

  /** cmdDrain deletes lists, then scans and deletes markers; `todo` is what the scan still owes. */
  datatype Drain = NoDrain | ClearingLists | ClearingMarkers(todo: set<Uuid>)

  /** `popped` and `lost` are history: items ever popped, and markers lost other than by a pop. */
  datatype Sys = Sys(w: World, c: Cache, popped: set<Item>, lost: map<Uuid, nat>, drain: Drain)

  const BOOT := Sys(INIT, EMPTY, {}, map[], NoDrain)

  datatype SysAction =
    | Store(a: Action)
    | ClaimPopped(item: Item, worker: Uuid, token: Uuid, run: Uuid, at: Time)
    | StagePopped(tx: Uuid, item: Item)
    | Enqueue(id: Uuid)
    | Requeue(item: Item)
    | Pop(l: ListName, worker: Uuid)
    | ExpireMarker(id: Uuid)
    | DropProcessing(worker: Uuid)
    | Done(worker: Uuid, id: Uuid)
    | Flush
    | BeginDrain
    | DrainList(l: ListName)
    | ScanMarkers
    | DrainMarkers(ids: set<Uuid>)
    | EndDrain

  function LostOf(lost: map<Uuid, nat>, id: Uuid): nat {
    if id in lost then lost[id] else 0
  }

  function Lose(lost: map<Uuid, nat>, ids: set<Uuid>): map<Uuid, nat> {
    map id | id in lost.Keys + ids :: LostOf(lost, id) + if id in ids then 1 else 0
  }

  /** The statement a step sends to Postgres, if any. Workers claim only what they popped, under the tenant of its list. */
  function Statement(s: Sys, a: SysAction): Option<Action> {
    match a
    case Store(b) => if b.TryClaim? || b.StageClaim? then None else Some(b)
    case ClaimPopped(item, worker, token, run, at) =>
      if item in s.popped then Some(TryClaim(item.job, worker, token, run, at)) else None
    case StagePopped(tx, item) =>
      if item in s.popped && tx in s.w.txs && s.w.txs[tx].tenant == item.list.tenant
      then Some(StageClaim(tx, item.job)) else None
    case _ => None
  }

  function RedisStep(s: Sys, a: SysAction): Sys {
    match a
    case Enqueue(id) => if id in s.w.submitted then s.(c := Push(s.c, Home(s.w.submitted[id]), id)) else s
    case Requeue(item) => if item in s.popped then s.(c := Push(s.c, item.list, item.job)) else s
    case Pop(l, worker) =>
      if Waiting(s.c.lists, l) == [] then s
      else s.(c := Take(s.c, l, worker), popped := s.popped + {Item(Last(Waiting(s.c.lists, l)), l)})
    case ExpireMarker(id) =>
      if id in s.c.markers then s.(c := s.c.(markers := s.c.markers - {id}), lost := Lose(s.lost, {id})) else s
    case DropProcessing(worker) => s.(c := s.c.(processing := s.c.processing - {worker}))
    case Done(worker, id) => s.(c := s.c.(processing := s.c.processing[worker := Remove(InHand(s.c, worker), id)]))
    case Flush => s.(c := EMPTY)
    case BeginDrain => if s.drain.NoDrain? then s.(drain := ClearingLists) else s
    case DrainList(l) =>
      if s.drain.ClearingLists? then s.(c := s.c.(lists := s.c.lists - {l})) else s
    case ScanMarkers => if s.drain.ClearingLists? then s.(drain := ClearingMarkers(s.c.markers)) else s
    case DrainMarkers(ids) =>
      if s.drain.ClearingMarkers?
      then s.(c := s.c.(markers := s.c.markers - ids), lost := Lose(s.lost, ids * s.c.markers)) else s
    case EndDrain => if s.drain.ClearingMarkers? && s.drain.todo == {} then s.(drain := NoDrain) else s
    case _ => s
  }

  /** SCAN owes only keys present throughout, so a marker that goes is owed no more. */
  function Owed(drain: Drain, markers: set<Uuid>): Drain {
    if drain.ClearingMarkers? then ClearingMarkers(drain.todo * markers) else drain
  }

  function Settle(s: Sys): Sys {
    s.(drain := Owed(s.drain, s.c.markers))
  }

  function SysStep(s: Sys, a: SysAction): Sys {
    match Statement(s, a)
    case Some(b) => s.(w := Step(s.w, b))
    case None => Settle(RedisStep(s, a))
  }

  function SysExec(s: Sys, acts: seq<SysAction>): Sys
    decreases |acts|
  {
    if acts == [] then s else SysExec(SysStep(s, acts[0]), acts[1..])
  }

  // ---- Redis never affects Postgres ------------------------------------------------------

  function Statements(s: Sys, acts: seq<SysAction>): seq<Action>
    decreases |acts|
  {
    if acts == [] then []
    else
      var rest := Statements(SysStep(s, acts[0]), acts[1..]);
      match Statement(s, acts[0]) case Some(b) => [b] + rest case None => rest
  }

  /** Whatever Redis does, Postgres goes through a run of the protocol: all its guarantees hold. */
  lemma {:induction false} PostgresRunsTheProtocol(s: Sys, acts: seq<SysAction>)
    ensures SysExec(s, acts).w == Exec(s.w, Statements(s, acts))
    decreases |acts|
  {
    if acts != [] {
      PostgresRunsTheProtocol(SysStep(s, acts[0]), acts[1..]);
      var rest := Statements(SysStep(s, acts[0]), acts[1..]);
      match Statement(s, acts[0])
      case Some(b) => assert ([b] + rest)[1..] == rest;
      case None =>
    }
  }

  // ---- what the queue keeps --------------------------------------------------------------------

  function Count(q: seq<Uuid>, id: Uuid): nat {
    multiset(q)[id]
  }

  /** Every entry sits in the list of its own job's tenant and lane, and so did every popped item. */
  ghost predicate Located(submitted: map<Uuid, Spec>, c: Cache, popped: set<Item>) {
    && (forall l, id | id in Waiting(c.lists, l) :: id in submitted && Home(submitted[id]) == l)
    && (forall it | it in popped :: it.job in submitted && Home(submitted[it.job]) == it.list)
    && c.markers <= submitted.Keys
  }

  predicate OwesPresent(drain: Drain, markers: set<Uuid>) {
    drain.ClearingMarkers? ==> drain.todo <= markers
  }

  predicate Queued(submitted: map<Uuid, Spec>, lists: map<ListName, seq<Uuid>>, id: Uuid) {
    id in submitted && id in Waiting(lists, Home(submitted[id]))
  }

  /** A marker has its entry; while a drain deletes markers, except those it still owes. */
  ghost predicate Marked(submitted: map<Uuid, Spec>, c: Cache, drain: Drain) {
    match drain
    case NoDrain => forall id | id in c.markers :: Queued(submitted, c.lists, id)
    case ClearingLists => true
    case ClearingMarkers(todo) => forall id | id in c.markers && id !in todo :: Queued(submitted, c.lists, id)
  }

  /** Duplicate entries are paid for by lost markers. */
  ghost predicate Ledger(submitted: map<Uuid, Spec>, c: Cache, lost: map<Uuid, nat>) {
    forall id | id in submitted ::
      Count(Waiting(c.lists, Home(submitted[id])), id) <= (if id in c.markers then 1 else 0) + LostOf(lost, id)
  }

  ghost predicate CacheInv(s: Sys) {
    && Located(s.w.submitted, s.c, s.popped)
    && Marked(s.w.submitted, s.c, s.drain)
    && OwesPresent(s.drain, s.c.markers)
    && Ledger(s.w.submitted, s.c, s.lost)
  }

  lemma SubmittedGrows(w: World, a: Action)
    ensures Extends(w.submitted, Step(w, a).submitted)
  {
  }

  ghost predicate Extends(submitted: map<Uuid, Spec>, submitted': map<Uuid, Spec>) {
    forall id | id in submitted :: id in submitted' && submitted'[id] == submitted[id]
  }

  lemma LargerLocated(submitted: map<Uuid, Spec>, submitted': map<Uuid, Spec>, c: Cache, popped: set<Item>, drain: Drain)
    requires Extends(submitted, submitted') && Located(submitted, c, popped) && Marked(submitted, c, drain)
    ensures Located(submitted', c, popped) && Marked(submitted', c, drain)
  {
  }

  lemma LargerLedger(submitted: map<Uuid, Spec>, submitted': map<Uuid, Spec>, c: Cache, popped: set<Item>, lost: map<Uuid, nat>)
    requires Extends(submitted, submitted') && Located(submitted, c, popped) && Ledger(submitted, c, lost)
    ensures Ledger(submitted', c, lost)
  {
    forall id | id in submitted'
      ensures Count(Waiting(c.lists, Home(submitted'[id])), id) <= (if id in c.markers then 1 else 0) + LostOf(lost, id)
    {
      if id !in submitted { assert id !in Waiting(c.lists, Home(submitted'[id])); }
    }
  }

  lemma StatementKeeps(s: Sys, b: Action)
    requires CacheInv(s)
    ensures CacheInv(s.(w := Step(s.w, b)))
  {
    SubmittedGrows(s.w, b);
    var submitted := Step(s.w, b).submitted;
    LargerLocated(s.w.submitted, submitted, s.c, s.popped, s.drain);
    LargerLedger(s.w.submitted, submitted, s.c, s.popped, s.lost);
  }

  lemma PushMembers(c: Cache, l: ListName, id: Uuid)
    ensures var c' := Push(c, l, id);
            && c'.markers == c.markers + {id}
            && (forall k, x :: x in Waiting(c'.lists, k) <==> x in Waiting(c.lists, k) || (x == id && k == l && id !in c.markers))
            && (forall k, x :: Count(Waiting(c'.lists, k), x) ==
                  Count(Waiting(c.lists, k), x) + if x == id && k == l && id !in c.markers then 1 else 0)
  {
    var q := Waiting(c.lists, l);
    assert forall x :: Count([id] + q, x) == Count(q, x) + if x == id then 1 else 0;
  }

  lemma TakeMembers(c: Cache, l: ListName, worker: Uuid)
    requires Waiting(c.lists, l) != []
    ensures var c' := Take(c, l, worker);
            var id := Last(Waiting(c.lists, l));
            && c'.markers == c.markers - {id}
            && (forall k, x | x in Waiting(c'.lists, k) :: x in Waiting(c.lists, k))
            && (forall k, x | x in Waiting(c.lists, k) && x != id :: x in Waiting(c'.lists, k))
            && (forall k, x :: Count(Waiting(c'.lists, k), x) == Count(Waiting(c.lists, k), x) - if x == id && k == l then 1 else 0)
  {
    var q := Waiting(c.lists, l);
    assert q == q[..|q| - 1] + [Last(q)];
    assert forall x :: Count(q, x) == Count(q[..|q| - 1], x) + if x == Last(q) then 1 else 0;
  }

  /** Markers kept or set have entries, and entries of kept markers are kept. */
  lemma MarkedKept(submitted: map<Uuid, Spec>, c: Cache, c': Cache, drain: Drain)
    requires Marked(submitted, c, drain)
    requires forall id | id in c'.markers ::
               (id in c.markers && (Queued(submitted, c.lists, id) ==> Queued(submitted, c'.lists, id))) || (id !in c.markers && Queued(submitted, c'.lists, id))
    requires OwesPresent(drain, c.markers)
    ensures Marked(submitted, c', Owed(drain, c'.markers))
  {
  }

  lemma PushLocated(submitted: map<Uuid, Spec>, c: Cache, popped: set<Item>, drain: Drain, l: ListName, id: Uuid)
    requires Located(submitted, c, popped) && Marked(submitted, c, drain) && OwesPresent(drain, c.markers)
    requires id in submitted && Home(submitted[id]) == l
    ensures var c' := Push(c, l, id); Located(submitted, c', popped) && Marked(submitted, c', Owed(drain, c'.markers))
  {
    PushMembers(c, l, id);
    MarkedKept(submitted, c, Push(c, l, id), drain);
  }

  lemma PushKeeps(s: Sys, l: ListName, id: Uuid)
    requires CacheInv(s) && id in s.w.submitted && Home(s.w.submitted[id]) == l
    ensures CacheInv(Settle(s.(c := Push(s.c, l, id))))
  {
    PushLocated(s.w.submitted, s.c, s.popped, s.drain, l, id);
    PushLedger(s.w.submitted, s.c, s.lost, l, id);
  }

  lemma PushLedger(submitted: map<Uuid, Spec>, c: Cache, lost: map<Uuid, nat>, l: ListName, id: Uuid)
    requires Ledger(submitted, c, lost)
    ensures Ledger(submitted, Push(c, l, id), lost)
  {
    PushMembers(c, l, id);
  }

  lemma TakeLedger(submitted: map<Uuid, Spec>, c: Cache, lost: map<Uuid, nat>, l: ListName, worker: Uuid)
    requires Ledger(submitted, c, lost) && Waiting(c.lists, l) != []
    requires Last(Waiting(c.lists, l)) in submitted && Home(submitted[Last(Waiting(c.lists, l))]) == l
    ensures Ledger(submitted, Take(c, l, worker), lost)
  {
    TakeMembers(c, l, worker);
  }

  lemma TakeLocated(submitted: map<Uuid, Spec>, c: Cache, popped: set<Item>, drain: Drain, l: ListName, worker: Uuid)
    requires Located(submitted, c, popped) && Marked(submitted, c, drain) && OwesPresent(drain, c.markers)
    requires Waiting(c.lists, l) != []
    ensures var c' := Take(c, l, worker);
            && Located(submitted, c', popped + {Item(Last(Waiting(c.lists, l)), l)})
            && Marked(submitted, c', Owed(drain, c'.markers))
  {
    TakeMembers(c, l, worker);
    assert Last(Waiting(c.lists, l)) in Waiting(c.lists, l);
    MarkedKept(submitted, c, Take(c, l, worker), drain);
  }

  lemma PopKeeps(s: Sys, l: ListName, worker: Uuid)
    requires CacheInv(s) && Waiting(s.c.lists, l) != []
    ensures CacheInv(Settle(s.(c := Take(s.c, l, worker), popped := s.popped + {Item(Last(Waiting(s.c.lists, l)), l)})))
  {
    TakeLocated(s.w.submitted, s.c, s.popped, s.drain, l, worker);
    assert Last(Waiting(s.c.lists, l)) in Waiting(s.c.lists, l);
    TakeLedger(s.w.submitted, s.c, s.lost, l, worker);
  }

  /** Losing markers or list entries, or both, keeps the ledger as long as each lost marker is recorded. */
  lemma LossKeeps(s: Sys, c: Cache, gone: set<Uuid>)
    requires CacheInv(s) && c.markers == s.c.markers - gone && gone <= s.c.markers && c.lists == s.c.lists
    ensures CacheInv(Settle(s.(c := c, lost := Lose(s.lost, gone))))
  {
    assert forall l :: Waiting(c.lists, l) == Waiting(s.c.lists, l);
    MarkedKept(s.w.submitted, s.c, c, s.drain);
    LossLedger(s.w.submitted, s.c, c, s.lost, gone);
  }

  lemma LossLedger(submitted: map<Uuid, Spec>, c: Cache, c': Cache, lost: map<Uuid, nat>, gone: set<Uuid>)
    requires Ledger(submitted, c, lost) && c'.markers == c.markers - gone && gone <= c.markers && c'.lists == c.lists
    ensures Ledger(submitted, c', Lose(lost, gone))
  {
    assert forall l :: Waiting(c'.lists, l) == Waiting(c.lists, l);
    assert forall id :: LostOf(Lose(lost, gone), id) == LostOf(lost, id) + if id in gone then 1 else 0;
  }

  lemma DropListKeeps(s: Sys, l: ListName)
    requires CacheInv(s) && s.drain.ClearingLists?
    ensures CacheInv(s.(c := s.c.(lists := s.c.lists - {l})))
  {
    var c' := s.c.(lists := s.c.lists - {l});
    assert forall k :: Waiting(c'.lists, k) == if k == l then [] else Waiting(s.c.lists, k);
  }

  lemma FlushKeeps(s: Sys)
    requires CacheInv(s)
    ensures CacheInv(Settle(s.(c := EMPTY)))
  {
    assert forall l :: Waiting(EMPTY.lists, l) == [];
  }

  lemma SameListsKeep(s: Sys, c: Cache)
    requires CacheInv(s) && c.lists == s.c.lists && c.markers == s.c.markers
    ensures CacheInv(Settle(s.(c := c)))
  {
    assert forall l :: Waiting(c.lists, l) == Waiting(s.c.lists, l);
  }

  lemma QueueStepKeeps(s: Sys, a: SysAction)
    requires CacheInv(s) && (a.Enqueue? || a.Requeue? || a.Pop? || a.DropProcessing? || a.Done?)
    ensures CacheInv(Settle(RedisStep(s, a)))
  {
    SameListsKeep(s, s.c);
    match a {
      case Enqueue(id) => if id in s.w.submitted { PushKeeps(s, Home(s.w.submitted[id]), id); }
      case Requeue(item) => if item in s.popped { PushKeeps(s, item.list, item.job); }
      case Pop(l, worker) => if Waiting(s.c.lists, l) != [] { PopKeeps(s, l, worker); }
      case DropProcessing(worker) => SameListsKeep(s, RedisStep(s, a).c);
      case Done(worker, id) => SameListsKeep(s, RedisStep(s, a).c);
    }
  }

  lemma LossStepKeeps(s: Sys, a: SysAction)
    requires CacheInv(s) && (a.ExpireMarker? || a.Flush? || a.DrainList? || a.DrainMarkers?)
    ensures CacheInv(Settle(RedisStep(s, a)))
  {
    SameListsKeep(s, s.c);
    match a {
      case ExpireMarker(id) => if id in s.c.markers { LossKeeps(s, RedisStep(s, a).c, {id}); }
      case Flush => FlushKeeps(s);
      case DrainList(l) => if s.drain.ClearingLists? { DropListKeeps(s, l); }
      case DrainMarkers(ids) =>
        if s.drain.ClearingMarkers? {
          assert s.c.markers - ids == s.c.markers - ids * s.c.markers;
          LossKeeps(s, RedisStep(s, a).c, ids * s.c.markers);
        }
    }
  }

  lemma RedisStepKeeps(s: Sys, a: SysAction)
    requires CacheInv(s)
    ensures CacheInv(Settle(RedisStep(s, a)))
  {
    if a.Enqueue? || a.Requeue? || a.Pop? || a.DropProcessing? || a.Done? {
      QueueStepKeeps(s, a);
    } else if a.ExpireMarker? || a.Flush? || a.DrainList? || a.DrainMarkers? {
      LossStepKeeps(s, a);
    } else {
      SameListsKeep(s, s.c);
    }
  }

  lemma SysStepKeeps(s: Sys, a: SysAction)
    requires CacheInv(s)
    ensures CacheInv(SysStep(s, a))
  {
    match Statement(s, a)
    case Some(b) => StatementKeeps(s, b);
    case None => RedisStepKeeps(s, a);
  }

  lemma {:induction false} SysExecKeeps(s: Sys, acts: seq<SysAction>)
    requires CacheInv(s)
    ensures CacheInv(SysExec(s, acts))
    decreases |acts|
  {
    if acts != [] {
      SysStepKeeps(s, acts[0]);
      SysExecKeeps(SysStep(s, acts[0]), acts[1..]);
    }
  }

  // ---- theorems over whole runs -------------------------------------------------------------------

  lemma BootStarts()
    ensures CacheInv(BOOT) && Inv(BOOT.w)
  {
    assert forall l :: Waiting(EMPTY.lists, l) == [];
    InitInv();
  }

  lemma BootKeeps(acts: seq<SysAction>)
    ensures CacheInv(SysExec(BOOT, acts)) && Inv(SysExec(BOOT, acts).w)
  {
    BootStarts();
    SysExecKeeps(BOOT, acts);
    PostgresRunsTheProtocol(BOOT, acts);
    ExecKeeps(INIT, Statements(BOOT, acts));
  }

  /**
   Outside a drain every marker has its entry, in the list of its job's own tenant
   and lane: after flushes, deaths, expiries, and drains that ran to their end
   with enqueues and pops in between.
   */
  lemma MarkerImpliesEntry(acts: seq<SysAction>, id: Uuid)
    requires SysExec(BOOT, acts).drain.NoDrain? && id in SysExec(BOOT, acts).c.markers
    ensures var s := SysExec(BOOT, acts);
            id in s.w.submitted && id in Waiting(s.c.lists, Home(s.w.submitted[id]))
  {
    BootKeeps(acts);
  }

  /**
   The cache can be rebuilt: from any reachable state outside a drain, a pending
   job is due, and one visit of the reconciler (or any other enqueue) leaves it
   queued in the list of its own tenant and priority, without touching Postgres.
   */
  lemma OneVisitRebuilds(acts: seq<SysAction>, id: Uuid)
    requires SysExec(BOOT, acts).drain.NoDrain? && IsPending(SysExec(BOOT, acts).w.db, id)
    ensures var s := SysExec(BOOT, acts);
            var s' := SysStep(s, Enqueue(id));
            && s.w.db.jobs[id].runAt <= s.w.now
            && id in Waiting(s'.c.lists, Home(s.w.db.jobs[id].spec))
            && s'.w == s.w
  {
    BootKeeps(acts);
  }

  /** How often a job's marker expired in a run. */
  function Expiries(s: Sys, acts: seq<SysAction>, id: Uuid): nat
    decreases |acts|
  {
    if acts == [] then 0
    else Expiries(SysStep(s, acts[0]), acts[1..], id) +
         if acts[0] == ExpireMarker(id) && id in s.c.markers then 1 else 0
  }

  lemma OneLoss(s: Sys, a: SysAction, id: Uuid)
    requires !a.DrainMarkers?
    ensures LostOf(SysStep(s, a).lost, id) ==
              LostOf(s.lost, id) + if a == ExpireMarker(id) && id in s.c.markers then 1 else 0
  {
  }

  lemma {:induction false} LostAreExpiries(s: Sys, acts: seq<SysAction>, id: Uuid)
    requires forall i | 0 <= i < |acts| :: !acts[i].DrainMarkers?
    ensures LostOf(SysExec(s, acts).lost, id) == LostOf(s.lost, id) + Expiries(s, acts, id)
    decreases |acts|
  {
    if acts != [] {
      OneLoss(s, acts[0], id);
      LostAreExpiries(SysStep(s, acts[0]), acts[1..], id);
    }
  }

  /**
   The duplicate-entry ledger: in a run in which no drain deletes markers, a job
   has at most one entry for its marker and one for each time the marker expired.
   */
  lemma DuplicateLedger(acts: seq<SysAction>, id: Uuid)
    requires forall i | 0 <= i < |acts| :: !acts[i].DrainMarkers?
    requires id in SysExec(BOOT, acts).w.submitted
    ensures var s := SysExec(BOOT, acts);
            && Count(Waiting(s.c.lists, Home(s.w.submitted[id])), id) <=
                 (if id in s.c.markers then 1 else 0) + Expiries(BOOT, acts, id)
            && forall l | l != Home(s.w.submitted[id]) :: id !in Waiting(s.c.lists, l)
  {
    BootKeeps(acts);
    LostAreExpiries(BOOT, acts, id);
  }

  /** At the moment of a pop the entry moves to the worker's processing list. */
  lemma PoppedIsInHand(s: Sys, l: ListName, worker: Uuid)
    requires Waiting(s.c.lists, l) != []
    ensures Last(Waiting(s.c.lists, l)) in InHand(SysStep(s, Pop(l, worker)).c, worker)
  {
    assert ([Last(Waiting(s.c.lists, l))] + InHand(s.c, worker))[0] == Last(Waiting(s.c.lists, l));
  }

  /** The steps that may take `id` out of a worker's processing list: its own end, the list's, or the whole cache's. */
  predicate LetsGo(a: SysAction, worker: Uuid, id: Uuid) {
    a == Done(worker, id) || a == DropProcessing(worker) || a.Flush?
  }

  lemma StepKeepsInHand(s: Sys, a: SysAction, worker: Uuid, id: Uuid)
    requires id in InHand(s.c, worker) && !LetsGo(a, worker, id)
    ensures id in InHand(SysStep(s, a).c, worker)
  {
    if a.Pop? && Waiting(s.c.lists, a.l) != [] && a.worker == worker {
      assert InHand(SysStep(s, a).c, worker)[1..] == InHand(s.c, worker);
    }
  }

  /**
   A popped entry stays in the worker's processing list, whatever else happens, until
   the worker reports the job done or the list goes. A worker id with several loops may
   report a job done while another of them still holds a duplicate of it.
   */
  lemma {:induction false} PoppedStaysInHand(s: Sys, acts: seq<SysAction>, worker: Uuid, id: Uuid)
    requires id in InHand(s.c, worker) && forall i | 0 <= i < |acts| :: !LetsGo(acts[i], worker, id)
    ensures id in InHand(SysExec(s, acts).c, worker)
    decreases |acts|
  {
    if acts != [] {
      StepKeepsInHand(s, acts[0], worker, id);
      PoppedStaysInHand(SysStep(s, acts[0]), acts[1..], worker, id);
    }
  }

  // ---- the concurrency cap, end to end ------------------------------------------------------------

  /** Every worker knows a limit of at most `cap` for tenant `t`. */
  ghost predicate KnowsLimit(a: SysAction, t: Uuid, cap: nat) {
    && (a.ClaimPopped? ==> a.item.list.tenant != t)
    && (a.Store? && a.a.LockTenant? && a.a.tenant == t ==> a.a.limit <= cap)
  }

  lemma StatementRespects(s: Sys, a: SysAction, t: Uuid, cap: nat)
    requires CacheInv(s) && JobsOk(s.w.now, s.w.db.jobs, s.w.submitted) && KnowsLimit(a, t, cap) && Statement(s, a).Some?
    ensures Respects(s.w, Statement(s, a).value, t, cap)
  {
  }

  lemma SentFirst(s: Sys, acts: seq<SysAction>)
    requires acts != [] && Statement(s, acts[0]).Some?
    ensures var b := Statement(s, acts[0]).value;
            var next := SysStep(s, acts[0]);
            next.w == Step(s.w, b) && Statements(s, acts) == [b] + Statements(next, acts[1..])
  {
  }

  lemma NothingSent(s: Sys, a: SysAction)
    requires Statement(s, a).None?
    ensures SysStep(s, a).w == s.w
  {
  }

  lemma RespectOne(s: Sys, acts: seq<SysAction>, t: Uuid, cap: nat)
    requires acts != [] && (Statement(s, acts[0]).Some? ==> Respects(s.w, Statement(s, acts[0]).value, t, cap))
    requires var next := SysStep(s, acts[0]); AllRespect(next.w, Statements(next, acts[1..]), t, cap)
    ensures AllRespect(s.w, Statements(s, acts), t, cap)
  {
    var sent := Statement(s, acts[0]);
    if sent.Some? {
      SentFirst(s, acts);
      RespectAlso(s.w, sent.value, Statements(SysStep(s, acts[0]), acts[1..]), t, cap);
    } else {
      NothingSent(s, acts[0]);
    }
  }

  lemma RespectAlso(w: World, b: Action, rest: seq<Action>, t: Uuid, cap: nat)
    requires Respects(w, b, t, cap) && AllRespect(Step(w, b), rest, t, cap)
    ensures AllRespect(w, [b] + rest, t, cap)
  {
    assert ([b] + rest)[1..] == rest;
  }

  lemma GoodStep(s: Sys, a: SysAction)
    requires CacheInv(s) && Inv(s.w)
    ensures CacheInv(SysStep(s, a)) && Inv(SysStep(s, a).w)
  {
    SysStepKeeps(s, a);
    match Statement(s, a)
    case Some(b) => StepKeeps(s.w, b);
    case None =>
  }

  lemma {:induction false} StatementsRespect(s: Sys, acts: seq<SysAction>, t: Uuid, cap: nat)
    requires CacheInv(s) && Inv(s.w) && forall i | 0 <= i < |acts| :: KnowsLimit(acts[i], t, cap)
    ensures AllRespect(s.w, Statements(s, acts), t, cap)
    decreases |acts|
  {
    if acts != [] {
      GoodStep(s, acts[0]);
      StatementsRespect(SysStep(s, acts[0]), acts[1..], t, cap);
      if Statement(s, acts[0]).Some? { StatementRespects(s, acts[0], t, cap); }
      RespectOne(s, acts, t, cap);
    }
  }

  lemma BootRespects(acts: seq<SysAction>, t: Uuid, cap: nat)
    requires forall i | 0 <= i < |acts| :: KnowsLimit(acts[i], t, cap)
    ensures AllRespect(INIT, Statements(BOOT, acts), t, cap)
  {
    BootStarts();
    StatementsRespect(BOOT, acts, t, cap);
  }

  /**
   If every worker knows a limit of at most `cap` for a tenant, no reachable state
   has more than `cap` of its jobs running: the list an item was popped from
   names the tenant whose row must be locked.
   */
  lemma CapHoldsEndToEnd(acts: seq<SysAction>, t: Uuid, cap: nat)
    requires forall i | 0 <= i < |acts| :: KnowsLimit(acts[i], t, cap)
    ensures |RunningJobs(SysExec(BOOT, acts).w.db, t)| <= cap
  {
    BootRespects(acts, t, cap);
    PostgresRunsTheProtocol(BOOT, acts);
    NeverAboveCap(Statements(BOOT, acts), t, cap);
  }
}
