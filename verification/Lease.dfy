/**
 Heartbeats. A claim whose extensions commit in time is never reaped, even by a
 reaper acting on an old list of stale claims; and a claim that stops being
 extended is reaped by the first pass after its deadline.
 */
module Lease {
  import opened Jobs
  import opened Storage
  import opened Protocol
  import opened Lifecycle
  import opened Kinds

  predicate HeldBy(w: World, id: Uuid, token: Uuid) {
    id in w.db.jobs && w.db.jobs[id].token == Some(token)
  }

  /** The clock has not passed the deadline of a claim that is still held. */
  predicate InTime(w: World, id: Uuid, token: Uuid) {
    HeldBy(w, id, token) && w.db.jobs[id].deadline.Some? ==> w.now <= w.db.jobs[id].deadline.value
  }

  /**
   The heartbeat keeps up: time never passes the deadline in force, and an
   extension commits within the lease it asks for.
   */
  predicate OnTime(w: World, a: Action, id: Uuid, token: Uuid) {
    HeldBy(w, id, token) ==>
      && (a.Tick? && w.db.jobs[id].deadline.Some? ==> w.now + a.elapsed <= w.db.jobs[id].deadline.value)
      && (a.Extend? && a.token == token ==> w.now <= a.at + HEARTBEAT_TTL)
  }

  ghost predicate Beating(w: World, acts: seq<Action>, id: Uuid, token: Uuid)
    decreases |acts|
  {
    acts == [] || (OnTime(w, acts[0], id, token) && Beating(Step(w, acts[0]), acts[1..], id, token))
  }

  lemma ClockMoves(w: World, a: Action)
    ensures Step(w, a).now == w.now + if a.Tick? then a.elapsed else 0
  {
  }

  /** A held claim stays in time, and the step does not reap it. */
  lemma StaysInTime(w: World, a: Action, id: Uuid, token: Uuid)
    requires Inv(w) && token in w.used
    requires InTime(w, id, token) && OnTime(w, a, id, token)
    ensures InTime(Step(w, a), id, token)
    ensures Logged(Step(w, a).log, Closed(id, token, Reaped)) ==> Logged(w.log, Closed(id, token, Reaped))
  {
    var k := Classify(w, a);
    ClockMoves(w, a);
    KindInTime(w, Step(w, a), k, id, token);
  }

  lemma KindInTime(w: World, w': World, k: Kind, id: Uuid, token: Uuid)
    requires JobsOk(w.now, w.db.jobs, w.submitted) && token in w.used && Is(w, w', k)
    requires InTime(w, id, token)
    requires HeldBy(w, id, token) && w.db.jobs[id].deadline.Some? ==> w'.now <= w.db.jobs[id].deadline.value || w'.now == w.now
    requires k.Extending? && k.token == token ==> (HeldBy(w, id, token) ==> w'.now <= k.at + HEARTBEAT_TTL)
    requires k.Ending? && k.outcome.Reaped? ==> Stale(w.db, k.id, w.now)
    ensures InTime(w', id, token)
    ensures Logged(w'.log, Closed(id, token, Reaped)) ==> Logged(w.log, Closed(id, token, Reaped))
  {
    if k.Shifting? || k.Extending? {
      if id in w.db.jobs { assert KeepsOwner(w.db.jobs[id], w'.db.jobs[id]); }
    }
  }

  /**
   If every beat keeps up, the claim is never reaped: not by any scheduler, at
   any time, on any (old) list of stale claims, however many steps go by.
   */
  lemma {:induction false} BeatingIsNeverReaped(w: World, acts: seq<Action>, id: Uuid, token: Uuid)
    requires Inv(w) && token in w.used && InTime(w, id, token) && Beating(w, acts, id, token)
    requires !Logged(w.log, Closed(id, token, Reaped))
    ensures !Logged(Exec(w, acts).log, Closed(id, token, Reaped))
    decreases |acts|
  {
    if acts != [] {
      StaysInTime(w, acts[0], id, token);
      StepKeeps(w, acts[0]);
      UsedGrows(w, acts[0]);
      BeatingIsNeverReaped(Step(w, acts[0]), acts[1..], id, token);
    }
  }

  lemma UsedGrows(w: World, a: Action)
    ensures w.used <= Step(w, a).used
  {
  }

  // ---- a claim that stops beating ---------------------------------------------------------------

  /** Either the claim is over, or its deadline still stands. */
  predicate Lapsing(w: World, id: Uuid, token: Uuid, deadline: Time) {
    HeldBy(w, id, token) ==> w.db.jobs[id].deadline == Some(deadline)
  }

  lemma KindLapses(w: World, w': World, k: Kind, id: Uuid, token: Uuid, deadline: Time)
    requires JobsOk(w.now, w.db.jobs, w.submitted) && token in w.used && Is(w, w', k)
    requires Lapsing(w, id, token, deadline) && (k.Extending? ==> k.token != token)
    ensures Lapsing(w', id, token, deadline) && (HeldBy(w', id, token) ==> HeldBy(w, id, token))
  {
    if k.Shifting? || k.Extending? {
      if id in w.db.jobs { assert KeepsOwner(w.db.jobs[id], w'.db.jobs[id]); }
    }
  }

  lemma StepLapses(w: World, a: Action, id: Uuid, token: Uuid, deadline: Time)
    requires Inv(w) && token in w.used && Lapsing(w, id, token, deadline) && (a.Extend? ==> a.token != token)
    ensures Lapsing(Step(w, a), id, token, deadline) && (HeldBy(Step(w, a), id, token) ==> HeldBy(w, id, token))
  {
    var k := Classify(w, a);
    KindLapses(w, Step(w, a), k, id, token, deadline);
  }

  lemma {:induction false} StaysLapsing(w: World, acts: seq<Action>, id: Uuid, token: Uuid, deadline: Time)
    requires Inv(w) && token in w.used && Lapsing(w, id, token, deadline)
    requires forall i | 0 <= i < |acts| && acts[i].Extend? :: acts[i].token != token
    ensures Lapsing(Exec(w, acts), id, token, deadline)
    decreases |acts|
  {
    if acts != [] {
      StepLapses(w, acts[0], id, token, deadline);
      StepKeeps(w, acts[0]);
      UsedGrows(w, acts[0]);
      StaysLapsing(Step(w, acts[0]), acts[1..], id, token, deadline);
    }
  }

  lemma ReapTakesLapsed(w: World, id: Uuid, token: Uuid, deadline: Time)
    requires JobsOk(w.now, w.db.jobs, w.submitted) && Lapsing(w, id, token, deadline) && deadline < w.now
    ensures var after := DoReap(w, id);
            && !HeldBy(after, id, token)
            && (HeldBy(w, id, token) ==> after.db.jobs[id].state.Pending? || after.db.jobs[id].state.Dead?)
  {
  }

  /**
   Without another beat, whatever else happens, a reaper that looks at the job once
   the deadline has passed ends the claim: the job is pending or dead, if it was
   still held at all.
   */
  lemma SilentClaimIsReaped(w: World, acts: seq<Action>, id: Uuid, token: Uuid)
    requires Inv(w) && HeldBy(w, id, token) && w.db.jobs[id].deadline.Some?
    requires forall i | 0 <= i < |acts| && acts[i].Extend? :: acts[i].token != token
    requires w.db.jobs[id].deadline.value < Exec(w, acts).now
    ensures var late := Exec(w, acts);
            var after := DoReap(late, id);
            && !HeldBy(after, id, token)
            && (HeldBy(late, id, token) ==> after.db.jobs[id].state.Pending? || after.db.jobs[id].state.Dead?)
  {
    assert token in w.used;
    StaysLapsing(w, acts, id, token, w.db.jobs[id].deadline.value);
    ExecKeeps(w, acts);
    ReapTakesLapsed(Exec(w, acts), id, token, w.db.jobs[id].deadline.value);
  }

  // ---- the reaper's passes -------------------------------------------------------------------------

  /**
   When the reaper next looks at job `id`, if it was due to at `pass`. A pass is over
   once it has reaped the job, or, if it found the job not stale, when time moves on.
   */
  function NextPass(w: World, a: Action, id: Uuid, pass: Time): Time {
    if w.now == pass && (a == Reap(id) || (a.Tick? && a.elapsed > 0 && !Stale(w.db, id, w.now)))
    then pass + STALE_REAP_INTERVAL else pass
  }

  /** The reaper makes a pass every five seconds: time does not go beyond a pass that is not over. */
  ghost predicate Patrolled(w: World, acts: seq<Action>, id: Uuid, pass: Time)
    decreases |acts|
  {
    acts == [] ||
    (var next := NextPass(w, acts[0], id, pass);
     (acts[0].Tick? ==> w.now + acts[0].elapsed <= next) && Patrolled(Step(w, acts[0]), acts[1..], id, next))
  }

  /** A claim that is still held has its deadline, and the next pass comes at most one interval after it. */
  predicate Watched(w: World, id: Uuid, token: Uuid, deadline: Time, pass: Time) {
    HeldBy(w, id, token) ==> w.db.jobs[id].deadline == Some(deadline) && w.now <= pass <= deadline + STALE_REAP_INTERVAL
  }

  lemma StepWatched(w: World, a: Action, id: Uuid, token: Uuid, deadline: Time, pass: Time)
    requires Inv(w) && token in w.used && Watched(w, id, token, deadline, pass)
    requires (a.Extend? ==> a.token != token) && (a.Tick? ==> w.now + a.elapsed <= NextPass(w, a, id, pass))
    ensures Watched(Step(w, a), id, token, deadline, NextPass(w, a, id, pass))
  {
    StepLapses(w, a, id, token, deadline);
    ClockMoves(w, a);
    if HeldBy(w, id, token) && a == Reap(id) && deadline < w.now { ReapTakesLapsed(w, id, token, deadline); }
  }

  lemma {:induction false} StaysWatched(w: World, acts: seq<Action>, id: Uuid, token: Uuid, deadline: Time, pass: Time)
    requires Inv(w) && token in w.used && Watched(w, id, token, deadline, pass)
    requires forall i | 0 <= i < |acts| && acts[i].Extend? :: acts[i].token != token
    requires Patrolled(w, acts, id, pass)
    ensures HeldBy(Exec(w, acts), id, token) ==> Exec(w, acts).now <= deadline + STALE_REAP_INTERVAL
    decreases |acts|
  {
    if acts != [] {
      StepWatched(w, acts[0], id, token, deadline, pass);
      StepKeeps(w, acts[0]);
      UsedGrows(w, acts[0]);
      StaysWatched(Step(w, acts[0]), acts[1..], id, token, deadline, NextPass(w, acts[0], id, pass));
    }
  }

  /**
   A worker that stops beating loses its job within 15 s + 5 s of the last beat: in any
   run without another extension in which the reaper passes every five seconds, the
   claim is over once the clock is past that, however the steps interleave.
   */
  lemma ReapedWithin20s(w: World, acts: seq<Action>, id: Uuid, token: Uuid, lastBeat: Time, pass: Time)
    requires Inv(w) && HeldBy(w, id, token) && w.db.jobs[id].deadline == Some(lastBeat + HEARTBEAT_TTL)
    requires w.now <= lastBeat + HEARTBEAT_TTL && w.now <= pass <= w.now + STALE_REAP_INTERVAL
    requires forall i | 0 <= i < |acts| && acts[i].Extend? :: acts[i].token != token
    requires Patrolled(w, acts, id, pass)
    requires lastBeat + 20_000 < Exec(w, acts).now
    ensures !HeldBy(Exec(w, acts), id, token)
  {
    assert token in w.used;
    StaysWatched(w, acts, id, token, lastBeat + HEARTBEAT_TTL, pass);
  }

  // ---- the worker's own schedule ----------------------------------------------------------------------

  /** How long a beat may take to commit: what the lease leaves after one interval. */
  const COMMIT_WITHIN := HEARTBEAT_TTL - HEARTBEAT_INTERVAL

  /** The worker sends a beat at least every five seconds, the first within five seconds of the claim. */
  predicate Spaced(claimedAt: Time, sends: seq<Time>) {
    forall k | 0 <= k < |sends| :: LastBefore(claimedAt, sends, k) <= sends[k] <= LastBefore(claimedAt, sends, k) + HEARTBEAT_INTERVAL
  }

  function LastBefore(claimedAt: Time, sends: seq<Time>, k: nat): Time
    requires k <= |sends|
  {
    if k == 0 then claimedAt else sends[k - 1]
  }

  predicate IsBeat(a: Action, token: Uuid) {
    a.Extend? && a.token == token
  }

  /** While the claim is held the next beat follows, in the order sent, no later than ten seconds after it was sent. */
  predicate OnSchedule(w: World, a: Action, id: Uuid, token: Uuid, sends: seq<Time>, k: nat) {
    HeldBy(w, id, token) ==>
      && k < |sends|
      && (a.Tick? ==> w.now + a.elapsed <= sends[k] + COMMIT_WITHIN)
      && (IsBeat(a, token) ==> a.at == sends[k] <= w.now)
  }

  /** A run on schedule, of which the first `k` beats have committed. */
  ghost predicate Punctual(w: World, acts: seq<Action>, id: Uuid, token: Uuid, sends: seq<Time>, k: nat)
    decreases |acts|
  {
    acts == [] ||
    (OnSchedule(w, acts[0], id, token, sends, k) &&
     Punctual(Step(w, acts[0]), acts[1..], id, token, sends, if IsBeat(acts[0], token) then k + 1 else k))
  }

  /** The lease in force is that of the last beat that committed. */
  predicate Leased(w: World, id: Uuid, token: Uuid, claimedAt: Time, sends: seq<Time>, k: nat) {
    HeldBy(w, id, token) ==>
      k <= |sends| && w.db.jobs[id].deadline == Some(LastBefore(claimedAt, sends, k) + HEARTBEAT_TTL)
  }

  lemma BeatExtends(w: World, id: Uuid, token: Uuid, at: Time)
    requires OwnersOk(w.db.jobs, w.claims, w.log) && JobsOk(w.now, w.db.jobs, w.submitted)
    requires HeldBy(w, id, token) ==> at <= w.now
    ensures Lapsing(DoExtend(w, token, at), id, token, at + HEARTBEAT_TTL)
    ensures HeldBy(DoExtend(w, token, at), id, token) ==> HeldBy(w, id, token)
  {
  }

  lemma ScheduleIsOnTime(w: World, a: Action, id: Uuid, token: Uuid, claimedAt: Time, sends: seq<Time>, k: nat)
    requires Spaced(claimedAt, sends) && OnSchedule(w, a, id, token, sends, k)
    requires InTime(w, id, token) && Leased(w, id, token, claimedAt, sends, k)
    ensures OnTime(w, a, id, token)
  {
  }

  lemma StaysLeased(w: World, a: Action, id: Uuid, token: Uuid, claimedAt: Time, sends: seq<Time>, k: nat)
    requires Inv(w) && token in w.used && OnSchedule(w, a, id, token, sends, k) && Leased(w, id, token, claimedAt, sends, k)
    ensures Leased(Step(w, a), id, token, claimedAt, sends, if IsBeat(a, token) then k + 1 else k)
  {
    if IsBeat(a, token) {
      BeatExtends(w, id, token, a.at);
    } else if HeldBy(w, id, token) {
      StepLapses(w, a, id, token, LastBefore(claimedAt, sends, k) + HEARTBEAT_TTL);
    } else {
      StepLapses(w, a, id, token, 0);
    }
  }

  /** On that schedule every beat is in time for the lease, so the premise of BeatingIsNeverReaped holds. */
  lemma {:induction false} PunctualIsBeating(w: World, acts: seq<Action>, id: Uuid, token: Uuid, claimedAt: Time, sends: seq<Time>, k: nat)
    requires Inv(w) && token in w.used && Spaced(claimedAt, sends) && Punctual(w, acts, id, token, sends, k)
    requires InTime(w, id, token) && Leased(w, id, token, claimedAt, sends, k)
    ensures Beating(w, acts, id, token)
    decreases |acts|
  {
    if acts != [] {
      var a := acts[0];
      ScheduleIsOnTime(w, a, id, token, claimedAt, sends, k);
      StaysInTime(w, a, id, token);
      StaysLeased(w, a, id, token, claimedAt, sends, k);
      StepKeeps(w, a);
      UsedGrows(w, a);
      PunctualIsBeating(Step(w, a), acts[1..], id, token, claimedAt, sends, if IsBeat(a, token) then k + 1 else k);
    }
  }

  /** A worker that beats every five seconds, each beat committing within ten, never loses its job to the reaper. */
  lemma PunctualIsNeverReaped(w: World, acts: seq<Action>, id: Uuid, token: Uuid, claimedAt: Time, sends: seq<Time>)
    requires Inv(w) && HeldBy(w, id, token) && w.db.jobs[id].deadline == Some(claimedAt + HEARTBEAT_TTL)
    requires w.now <= claimedAt + HEARTBEAT_TTL && Spaced(claimedAt, sends) && Punctual(w, acts, id, token, sends, 0)
    requires !Logged(w.log, Closed(id, token, Reaped))
    ensures !Logged(Exec(w, acts).log, Closed(id, token, Reaped))
  {
    assert token in w.used;
    PunctualIsBeating(w, acts, id, token, claimedAt, sends, 0);
    BeatingIsNeverReaped(w, acts, id, token);
  }
}
