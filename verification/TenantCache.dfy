/**
 The API's tenant cache: lookups, key rotations and disables interleave between
 the cache's critical sections.
 */
module TenantCache {
  import opened Jobs

  /** How long an API key's tenant is reused before it is read again, in milliseconds. */
  const TENANT_CACHE_TTL: Time := 10_000

  type Hash = string

  datatype Entry = Entry(tenant: Uuid, expires: Time)

  /**
   What one lookup at `now` does, if no other disturbs it and the database would
   answer `answer`: it asks exactly when there is no fresh entry, and leaves the key
   cached, fresh and with the tenant returned, exactly when it returned one.
   */
  ghost predicate LooksUp(entries: map<Hash, Entry>, entries': map<Hash, Entry>, hash: Hash, now: Time, answer: Option<Uuid>,
                          tenant: Option<Uuid>, asked: bool)
  {
    && (asked <==> !(hash in entries && now < entries[hash].expires))
    && tenant == (if asked then answer else Some(entries[hash].tenant))
    && entries' - {hash} == entries - {hash}
    && (hash in entries' <==> tenant.Some?)
    && (hash in entries' ==> entries'[hash].tenant == tenant.value && now < entries'[hash].expires)
    && (asked && answer.Some? ==> entries'[hash].expires == now + TENANT_CACHE_TTL)
    && (!asked ==> entries' == entries)
  }

  // ---- the cache as one lookup drives it -----------------------------------------------------

  class Cache {
    var entries: map<Hash, Entry>

    constructor ()
      ensures entries == map[]
    {
      entries := map[];
    }

    /** The first critical section: an entry, whether fresh or not. */
    method Peek(hash: Hash) returns (e: Option<Entry>)
      ensures e == if hash in entries then Some(entries[hash]) else None
    {
      e := if hash in entries then Some(entries[hash]) else None;
    }

    /** A lookup no other lookup disturbs; `answer` is what the database returns if it is asked. */
    method Lookup(hash: Hash, now: Time, answer: Option<Uuid>) returns (tenant: Option<Uuid>, asked: bool)
      modifies this
      ensures LooksUp(old(entries), entries, hash, now, answer, tenant, asked)
    {
      var e := Peek(hash);
      if e.Some? && now < e.value.expires {
        return Some(e.value.tenant), false;
      }
      if answer.None? {
        if e.Some? {
          entries := entries - {hash};
        }
        return None, true;
      }
      entries := entries[hash := Entry(answer.value, now + TENANT_CACHE_TTL)];
      return answer, true;
    }
  }

  // ---- interleaved lookups ---------------------------------------------------------------------

  /** The keys the database accepts from `since` on, and whose they are. */
  datatype Version = Version(since: Time, tenants: map<Hash, Uuid>)

  /** A lookup in flight; `now` is the clock it read first, and its freshness check uses. */
  datatype Lookup =
    | Started(hash: Hash, now: Time)
    | Missed(hash: Hash, now: Time, saw: bool)
    | Found(hash: Hash, now: Time, tenant: Uuid, readAt: Time)
    | Refused(hash: Hash, now: Time, saw: bool)

  /** What a lookup returned, with the time at which the database gave that answer. */
  datatype Reply = Served(hash: Hash, check: Time, tenant: Uuid, readAt: Time) | Denied(hash: Hash, check: Time, at: Time)

  /** `readAt` is bookkeeping: when the entry of a key was read from the database. */
  datatype State = State(
    now: Time,
    versions: seq<Version>,
    entries: map<Hash, Entry>,
    readAt: map<Hash, Time>,
    lookups: map<Uuid, Lookup>,
    replies: seq<Reply>)

  datatype Action =
    | Tick(now: Time)
    | Change(tenants: map<Hash, Uuid>)
    | Begin(id: Uuid, hash: Hash)
    | Peek(id: Uuid)
    | Query(id: Uuid)
    | Keep(id: Uuid)
    | Evict(id: Uuid)

  function Tenants(s: State): map<Hash, Uuid> {
    if s.versions == [] then map[] else s.versions[|s.versions| - 1].tenants
  }

  function DoPeek(s: State, id: Uuid): State
    requires id in s.lookups
  {
    var l := s.lookups[id];
    if !l.Started? then s
    else if l.hash in s.entries && l.now < s.entries[l.hash].expires && l.hash in s.readAt then
      s.(lookups := s.lookups - {id}, replies := s.replies + [Served(l.hash, l.now, s.entries[l.hash].tenant, s.readAt[l.hash])])
    else s.(lookups := s.lookups[id := Missed(l.hash, l.now, l.hash in s.entries)])
  }

  function DoQuery(s: State, id: Uuid): State
    requires id in s.lookups
  {
    var l := s.lookups[id];
    if !l.Missed? then s
    else if l.hash in Tenants(s) then s.(lookups := s.lookups[id := Found(l.hash, l.now, Tenants(s)[l.hash], s.now)])
    else s.(lookups := s.lookups[id := Refused(l.hash, l.now, l.saw)])
  }

  function DoKeep(s: State, id: Uuid): State
    requires id in s.lookups
  {
    var l := s.lookups[id];
    if !l.Found? then s
    else s.(entries := s.entries[l.hash := Entry(l.tenant, l.now + TENANT_CACHE_TTL)], readAt := s.readAt[l.hash := l.readAt],
            lookups := s.lookups - {id}, replies := s.replies + [Served(l.hash, l.now, l.tenant, l.readAt)])
  }

  function DoEvict(s: State, id: Uuid): State
    requires id in s.lookups
  {
    var l := s.lookups[id];
    if !l.Refused? then s
    else s.(entries := if l.saw then s.entries - {l.hash} else s.entries,
            lookups := s.lookups - {id}, replies := s.replies + [Denied(l.hash, l.now, s.now)])
  }

  function Step(s: State, a: Action): State {
    match a
    case Tick(now) => if now < s.now then s else s.(now := now)
    case Change(tenants) => s.(versions := s.versions + [Version(s.now, tenants)])
    case Begin(id, hash) => if id in s.lookups then s else s.(lookups := s.lookups[id := Started(hash, s.now)])
    case Peek(id) => if id in s.lookups then DoPeek(s, id) else s
    case Query(id) => if id in s.lookups then DoQuery(s, id) else s
    case Keep(id) => if id in s.lookups then DoKeep(s, id) else s
    case Evict(id) => if id in s.lookups then DoEvict(s, id) else s
  }

  function Exec(s: State, acts: seq<Action>): State
    decreases |acts|
  {
    if acts == [] then s else Exec(Step(s, acts[0]), acts[1..])
  }

  const START: State := State(0, [], map[], map[], map[], [])

  // ---- what the database answered, and when --------------------------------------------------------

  /** Version `i` was in force at `t`. */
  ghost predicate InForce(versions: seq<Version>, i: nat, t: Time) {
    && i < |versions| && versions[i].since <= t
    && (i + 1 < |versions| ==> t <= versions[i + 1].since)
  }

  ghost predicate Answered(versions: seq<Version>, hash: Hash, tenant: Uuid, t: Time) {
    exists i: nat :: InForce(versions, i, t) && hash in versions[i].tenants && versions[i].tenants[hash] == tenant
  }

  ghost predicate EntriesOk(now: Time, versions: seq<Version>, entries: map<Hash, Entry>, readAt: map<Hash, Time>) {
    forall h | h in entries ::
      h in readAt && readAt[h] <= now && entries[h].expires <= readAt[h] + TENANT_CACHE_TTL && Answered(versions, h, entries[h].tenant, readAt[h])
  }

  ghost predicate LookupOk(now: Time, versions: seq<Version>, l: Lookup) {
    l.now <= now && (l.Found? ==> l.now <= l.readAt <= now && Answered(versions, l.hash, l.tenant, l.readAt))
  }

  ghost predicate ReplyOk(now: Time, versions: seq<Version>, r: Reply) {
    r.Served? ==> r.readAt <= now && r.check < r.readAt + TENANT_CACHE_TTL && Answered(versions, r.hash, r.tenant, r.readAt)
  }

  ghost predicate VersionsOk(now: Time, versions: seq<Version>) {
    && (forall i | 0 <= i < |versions| :: versions[i].since <= now)
    && (forall i, j | 0 <= i < j < |versions| :: versions[i].since <= versions[j].since)
  }

  ghost predicate Inv(s: State) {
    && VersionsOk(s.now, s.versions)
    && EntriesOk(s.now, s.versions, s.entries, s.readAt)
    && (forall id | id in s.lookups :: LookupOk(s.now, s.versions, s.lookups[id]))
    && (forall r | r in s.replies :: ReplyOk(s.now, s.versions, r))
  }

  lemma AnsweredStays(versions: seq<Version>, v: Version, hash: Hash, tenant: Uuid, t: Time)
    requires Answered(versions, hash, tenant, t) && t <= v.since
    ensures Answered(versions + [v], hash, tenant, t)
  {
    var i: nat :| InForce(versions, i, t) && hash in versions[i].tenants && versions[i].tenants[hash] == tenant;
    assert InForce(versions + [v], i, t);
  }

  lemma ChangeKeeps(s: State, tenants: map<Hash, Uuid>)
    requires Inv(s)
    ensures Inv(Step(s, Change(tenants)))
  {
    var v := Version(s.now, tenants);
    forall h | h in s.entries ensures Answered(s.versions + [v], h, s.entries[h].tenant, s.readAt[h]) {
      AnsweredStays(s.versions, v, h, s.entries[h].tenant, s.readAt[h]);
    }
    forall id | id in s.lookups ensures LookupOk(s.now, s.versions + [v], s.lookups[id]) {
      var l := s.lookups[id];
      if l.Found? { AnsweredStays(s.versions, v, l.hash, l.tenant, l.readAt); }
    }
    forall r | r in s.replies ensures ReplyOk(s.now, s.versions + [v], r) {
      if r.Served? { AnsweredStays(s.versions, v, r.hash, r.tenant, r.readAt); }
    }
  }

  lemma QueryKeeps(s: State, id: Uuid)
    requires Inv(s) && id in s.lookups
    ensures Inv(DoQuery(s, id))
  {
    var l := s.lookups[id];
    if l.Missed? && l.hash in Tenants(s) {
      assert InForce(s.versions, |s.versions| - 1, s.now);
    }
  }

  lemma StepKeeps(s: State, a: Action)
    requires Inv(s)
    ensures Inv(Step(s, a))
  {
    match a {
      case Change(tenants) => ChangeKeeps(s, tenants);
      case Query(id) => if id in s.lookups { QueryKeeps(s, id); }
      case _ =>
    }
  }

  lemma {:induction false} ExecKeeps(s: State, acts: seq<Action>)
    requires Inv(s)
    ensures Inv(Exec(s, acts))
    decreases |acts|
  {
    if acts != [] {
      StepKeeps(s, acts[0]);
      ExecKeeps(Step(s, acts[0]), acts[1..]);
    }
  }

  /** The steps of one lookup, run without another in between. */
  function Alone(s: State, id: Uuid, hash: Hash): State {
    Step(Step(Step(Step(Step(s, Begin(id, hash)), Peek(id)), Query(id)), Keep(id)), Evict(id))
  }

  lemma AloneHit(s: State, id: Uuid, hash: Hash)
    requires id !in s.lookups && hash in s.entries && hash in s.readAt && s.now < s.entries[hash].expires
    ensures Alone(s, id, hash) == s.(replies := s.replies + [Served(hash, s.now, s.entries[hash].tenant, s.readAt[hash])])
  {
    assert s.lookups[id := Started(hash, s.now)] - {id} == s.lookups;
  }

  lemma AloneMiss(s: State, id: Uuid, hash: Hash)
    requires id !in s.lookups && (hash in s.entries ==> s.entries[hash].expires <= s.now)
    ensures Alone(s, id, hash) ==
            if hash in Tenants(s)
            then s.(entries := s.entries[hash := Entry(Tenants(s)[hash], s.now + TENANT_CACHE_TTL)], readAt := s.readAt[hash := s.now],
                    replies := s.replies + [Served(hash, s.now, Tenants(s)[hash], s.now)])
            else s.(entries := s.entries - {hash}, replies := s.replies + [Denied(hash, s.now, s.now)])
  {
    var missed := Step(Step(s, Begin(id, hash)), Peek(id));
    assert missed == s.(lookups := s.lookups[id := Missed(hash, s.now, hash in s.entries)]);
    var asked := Step(missed, Query(id));
    assert asked.lookups - {id} == s.lookups;
    if hash !in s.entries { assert s.entries - {hash} == s.entries; }
  }

  /** Run alone, the steps of a lookup are the lookup of the class above. */
  lemma UndisturbedLookup(s: State, id: Uuid, hash: Hash)
    requires EntriesOk(s.now, s.versions, s.entries, s.readAt) && id !in s.lookups
    ensures var s' := Alone(s, id, hash);
            var answer := if hash in Tenants(s) then Some(Tenants(s)[hash]) else None;
            && |s'.replies| == |s.replies| + 1 && s'.lookups == s.lookups
            && var r := s'.replies[|s.replies|];
               LooksUp(s.entries, s'.entries, hash, s.now, answer, if r.Served? then Some(r.tenant) else None,
                       !(hash in s.entries && s.now < s.entries[hash].expires))
  {
    if hash in s.entries && s.now < s.entries[hash].expires {
      AloneHit(s, id, hash);
    } else {
      AloneMiss(s, id, hash);
    }
  }

  // ---- the theorems ----------------------------------------------------------------------------------

  /** Every tenant a lookup returned was the database's answer less than ten seconds before its check, or later. */
  lemma ServedIsRecent(acts: seq<Action>, r: Reply)
    requires r in Exec(START, acts).replies && r.Served?
    ensures r.check - TENANT_CACHE_TTL < r.readAt && Answered(Exec(START, acts).versions, r.hash, r.tenant, r.readAt)
  {
    ExecKeeps(START, acts);
  }

  /** From `t` on, the database never accepted this key again. */
  ghost predicate RejectedSince(versions: seq<Version>, hash: Hash, t: Time) {
    forall i | 0 <= i < |versions| && hash in versions[i].tenants :: i + 1 < |versions| && versions[i + 1].since <= t
  }

  /** A disabled or rotated key stops working within ten seconds. */
  lemma DisabledKeyStops(acts: seq<Action>, hash: Hash, t: Time, r: Reply)
    requires RejectedSince(Exec(START, acts).versions, hash, t)
    requires r in Exec(START, acts).replies && r.hash == hash && r.check >= t + TENANT_CACHE_TTL
    ensures r.Denied?
  {
    ExecKeeps(START, acts);
  }

  /** The cache only ever holds keys that were valid once, so bad keys cannot grow it. */
  lemma CachedKeysWereValid(acts: seq<Action>, hash: Hash)
    requires hash in Exec(START, acts).entries
    ensures exists i :: 0 <= i < |Exec(START, acts).versions| && hash in Exec(START, acts).versions[i].tenants
  {
    var s := Exec(START, acts);
    ExecKeeps(START, acts);
    assert Answered(s.versions, hash, s.entries[hash].tenant, s.readAt[hash]);
  }
}
