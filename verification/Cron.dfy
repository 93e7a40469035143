/**
 Cron schedules on top of the protocol: any number of leaders fire them, a PATCH
 may write back what it read earlier, and updates of next_run_at may be lost.
 */
module Cron {
  import opened Jobs
  import opened Storage
  import opened Protocol
  import opened Lifecycle
  import opened Cluster
  import opened Queues
  import opened Database

  datatype Template = Template(priority: int, maxRetries: nat, backoff: nat)

  datatype Schedule = Schedule(
    tenant: Uuid,
    cron: string,
    timezone: string,
    template: Template,
    enabled: bool,
    lastRunAt: Option<Time>,
    nextRunAt: Time)

  datatype Firing =
    | Fetched(schedule: Uuid, row: Schedule)
    | Inserted(schedule: Uuid, row: Schedule, now: Time, next: Time)

  datatype PatchRequest = PatchRequest(
    enabled: Option<bool>,
    cron: Option<string>,
    timezone: Option<string>,
    template: Option<Template>)

  datatype Patch = Patch(schedule: Uuid, row: Schedule)

  /** The time zero, which the cron library returns for an expression with no occurrence ahead. */
  const ZERO_TIME: Time := -62_135_596_800_000

  /** When a cron expression occurs in a timezone. */
  type Calendar = (string, string, Time) -> bool

  /** Five-field expressions occur at whole minutes, so in any timezone at whole seconds. */
  ghost predicate WholeCalendar(cal: Calendar) {
    forall cron, timezone, t :: cal(cron, timezone, t) ==> t % 1000 == 0
  }

  /** The schedule's own expression occurs after `now`. */
  ghost predicate HasNext(cal: Calendar, row: Schedule, now: Time) {
    exists t :: now < t && cal(row.cron, row.timezone, t)
  }

  /** What the library answers for a schedule's expression: its first occurrence after `now`, or the zero time if there is none. */
  ghost predicate IsNext(cal: Calendar, row: Schedule, now: Time, next: Time) {
    if HasNext(cal, row, now)
    then now < next && cal(row.cron, row.timezone, next) && forall t | now < t < next :: !cal(row.cron, row.timezone, t)
    else next == ZERO_TIME
  }

  function OccurrenceOf(schedule: Uuid, row: Schedule): Key {
    OccurrenceKey(schedule, row.nextRunAt / 1000)
  }

  /** The job an occurrence creates. */
  function Build(schedule: Uuid, row: Schedule, now: Time): Job {
    Job(Spec(row.tenant, row.template.priority, row.template.maxRetries, row.template.backoff,
             Some(OccurrenceOf(schedule, row)), now),
        Pending, now, None, None, None, None, 0, None, None)
  }

  // ---- one job per key ---------------------------------------------------------------------

  predicate SameKey(s: Spec, t: Spec) {
    s.tenant == t.tenant && s.key == t.key
  }

  /** Every job ever created under the tenant and key of `s`. */
  function Created(submitted: map<Uuid, Spec>, s: Spec): set<Uuid> {
    set id | id in submitted && SameKey(submitted[id], s)
  }

  lemma OnlySubmitAdds(w: World, a: Action)
    ensures forall id | id in Step(w, a).db.jobs :: id in w.db.jobs || (a.Submit? && id == a.id && id !in w.submitted)
  {
  }

  lemma SubmitAddsOne(w: World, a: Action)
    ensures Step(w, a).submitted == w.submitted ||
            (a.Submit? && !KeyTaken(w.db, a.job.spec.tenant, a.job.spec.key) && a.id !in w.submitted
             && Step(w, a).submitted == w.submitted[a.id := a.job.spec])
  {
  }

  /** A deleted job does not come back. */
  lemma {:induction false} GoneForGood(w: World, acts: seq<Action>, id: Uuid)
    requires id in w.submitted && id !in w.db.jobs
    ensures id !in Exec(w, acts).db.jobs
    decreases |acts|
  {
    if acts != [] {
      OnlySubmitAdds(w, acts[0]);
      SubmittedGrows(w, acts[0]);
      GoneForGood(Step(w, acts[0]), acts[1..], id);
    }
  }

  lemma StepCreatesNoSecond(w: World, a: Action, id: Uuid)
    requires Inv(w) && id in w.db.jobs && w.db.jobs[id].spec.key.Some?
    ensures Created(Step(w, a).submitted, w.db.jobs[id].spec) == Created(w.submitted, w.db.jobs[id].spec)
  {
    SubmitAddsOne(w, a);
  }

  /** As long as a job's row is kept, no run creates another job under its tenant and key. */
  lemma {:induction false} NoSecondJob(w: World, acts: seq<Action>, id: Uuid)
    requires Inv(w) && id in w.db.jobs && w.db.jobs[id].spec.key.Some?
    requires id in Exec(w, acts).db.jobs
    ensures Created(Exec(w, acts).submitted, w.db.jobs[id].spec) == Created(w.submitted, w.db.jobs[id].spec)
    decreases |acts|
  {
    if acts != [] {
      var w' := Step(w, acts[0]);
      StepKeeps(w, acts[0]);
      SubmittedGrows(w, acts[0]);
      StepCreatesNoSecond(w, acts[0], id);
      if id !in w'.db.jobs { GoneForGood(w', acts[1..], id); }
      NoSecondJob(w', acts[1..], id);
    }
  }

  // ---- the machine ---------------------------------------------------------------------------

  datatype State = State(w: World, schedules: map<Uuid, Schedule>, firings: map<Uuid, Firing>, patches: map<Uuid, Patch>)

  datatype CronAction =
    | Base(action: Action)
    | Create(id: Uuid, row: Schedule, now: Time)
    | Delete(id: Uuid)
    | Fetch(firing: Uuid, id: Uuid)
    | Insert(firing: Uuid, job: Uuid, now: Time, next: Time)
    | Finish(firing: Uuid)
    | Abandon(firing: Uuid)
    | ReadPatch(patch: Uuid, id: Uuid, request: PatchRequest, now: Time, next: Time)
    | WritePatch(patch: Uuid)
    | DropPatch(patch: Uuid)

  /** Whether an edit recomputes the next run: the cron or the timezone changes, or a paused schedule resumes. */
  predicate Recomputes(row: Schedule, r: PatchRequest) {
    || (r.cron.Some? && r.cron.value != row.cron)
    || (r.timezone.Some? && r.timezone.value != row.timezone)
    || (r.enabled == Some(true) && !row.enabled)
  }

  function Edited(row: Schedule, r: PatchRequest, next: Time): Schedule {
    row.(cron := if r.cron.Some? then r.cron.value else row.cron,
         timezone := if r.timezone.Some? then r.timezone.value else row.timezone,
         enabled := if r.enabled.Some? then r.enabled.value else row.enabled,
         template := if r.template.Some? then r.template.value else row.template,
         nextRunAt := if Recomputes(row, r) then next else row.nextRunAt)
  }

  /** The edit as the handler makes it, field by field, on the row it has read. */
  method EditSchedule(row: Schedule, r: PatchRequest, next: Time) returns (edited: Schedule)
    ensures edited == Edited(row, r, next)
  {
    edited := row;
    var recompute := false;
    if r.cron.Some? && r.cron.value != edited.cron {
      edited, recompute := edited.(cron := r.cron.value), true;
    }
    if r.timezone.Some? && r.timezone.value != edited.timezone {
      edited, recompute := edited.(timezone := r.timezone.value), true;
    }
    if r.enabled.Some? {
      if r.enabled.value && !edited.enabled {
        recompute := true;
      }
      edited := edited.(enabled := r.enabled.value);
    }
    if r.template.Some? {
      edited := edited.(template := r.template.value);
    }
    if recompute {
      edited := edited.(nextRunAt := next);
    }
  }

  /** UpdateSchedule: every editable column and next_run_at, as the request read or recomputed it. */
  function Saved(row: Schedule, p: Schedule): Schedule {
    row.(cron := p.cron, timezone := p.timezone, template := p.template, enabled := p.enabled, nextRunAt := p.nextRunAt)
  }

  ghost predicate CanInsert(cal: Calendar, s: State, f: Uuid, job: Uuid, now: Time, next: Time) {
    && f in s.firings && s.firings[f].Fetched? && IsNext(cal, s.firings[f].row, now, next)
    && s.firings[f].row.nextRunAt <= now <= s.w.now && ZERO_TIME < now
    && job !in s.w.submitted && Fresh(Build(s.firings[f].schedule, s.firings[f].row, now), s.w.now)
  }

  /** InsertJob under the occurrence's key: a duplicate is no error. */
  ghost function DoInsert(cal: Calendar, s: State, f: Uuid, job: Uuid, now: Time, next: Time): State {
    if !CanInsert(cal, s, f, job, now, next) then s
    else
      var fire := s.firings[f];
      s.(w := Step(s.w, Submit(job, Build(fire.schedule, fire.row, now))),
         firings := s.firings[f := Inserted(fire.schedule, fire.row, now, next)])
  }

  /** UpdateScheduleAfterRun, whatever has happened to the row meanwhile. */
  function DoFinish(s: State, f: Uuid): State {
    if f !in s.firings || !s.firings[f].Inserted? then s
    else
      var fire := s.firings[f];
      s.(firings := s.firings - {f},
         schedules := if fire.schedule !in s.schedules then s.schedules
                      else s.schedules[fire.schedule := s.schedules[fire.schedule].(lastRunAt := Some(fire.now), nextRunAt := fire.next)])
  }

  function DoWritePatch(s: State, p: Uuid): State {
    if p !in s.patches then s
    else
      var patch := s.patches[p];
      s.(patches := s.patches - {p},
         schedules := if patch.schedule !in s.schedules || s.schedules[patch.schedule].tenant != patch.row.tenant then s.schedules
                      else s.schedules[patch.schedule := Saved(s.schedules[patch.schedule], patch.row)])
  }

  ghost function CronStep(cal: Calendar, s: State, a: CronAction): State {
    match a
    case Base(b) => s.(w := Step(s.w, b))
    case Create(id, row, now) =>
      if id in s.schedules || !IsNext(cal, row, now, row.nextRunAt) then s else s.(schedules := s.schedules[id := row])
    case Delete(id) => s.(schedules := s.schedules - {id})
    case Fetch(f, id) =>
      if f in s.firings || id !in s.schedules || !s.schedules[id].enabled || s.w.now < s.schedules[id].nextRunAt then s
      else s.(firings := s.firings[f := Fetched(id, s.schedules[id])])
    case Insert(f, job, now, next) => DoInsert(cal, s, f, job, now, next)
    case Finish(f) => DoFinish(s, f)
    case Abandon(f) => s.(firings := s.firings - {f})
    case ReadPatch(p, id, r, now, next) =>
      if p in s.patches || id !in s.schedules || !IsNext(cal, Edited(s.schedules[id], r, next), now, next) then s
      else s.(patches := s.patches[p := Patch(id, Edited(s.schedules[id], r, next))])
    case WritePatch(p) => DoWritePatch(s, p)
    case DropPatch(p) => s.(patches := s.patches - {p})
  }

  ghost function CronExec(cal: Calendar, s: State, acts: seq<CronAction>): State
    decreases |acts|
  {
    if acts == [] then s else CronExec(cal, CronStep(cal, s, acts[0]), acts[1..])
  }

  /** The protocol steps a cron run performs. */
  ghost function StatementsOf(cal: Calendar, s: State, acts: seq<CronAction>): seq<Action>
    decreases |acts|
  {
    if acts == [] then []
    else
      var a := acts[0];
      var rest := StatementsOf(cal, CronStep(cal, s, a), acts[1..]);
      if a.Base? then [a.action] + rest
      else if a.Insert? && CanInsert(cal, s, a.firing, a.job, a.now, a.next)
      then [Submit(a.job, Build(s.firings[a.firing].schedule, s.firings[a.firing].row, a.now))] + rest
      else rest
  }

  lemma {:induction false} CronRunsTheProtocol(cal: Calendar, s: State, acts: seq<CronAction>)
    ensures CronExec(cal, s, acts).w == Exec(s.w, StatementsOf(cal, s, acts))
    decreases |acts|
  {
    if acts != [] {
      CronRunsTheProtocol(cal, CronStep(cal, s, acts[0]), acts[1..]);
    }
  }

  // ---- occurrences and their keys --------------------------------------------------------------

  predicate WholeSecond(row: Schedule) {
    row.nextRunAt % 1000 == 0
  }

  ghost predicate FiringOk(cal: Calendar, fire: Firing) {
    WholeSecond(fire.row) && (fire.Inserted? ==> ZERO_TIME < fire.now && IsNext(cal, fire.row, fire.now, fire.next))
  }

  ghost predicate CronInv(cal: Calendar, s: State) {
    && (forall id | id in s.schedules :: WholeSecond(s.schedules[id]))
    && (forall f | f in s.firings :: FiringOk(cal, s.firings[f]))
    && (forall p | p in s.patches :: WholeSecond(s.patches[p].row))
  }

  lemma NextIsWhole(cal: Calendar, row: Schedule, now: Time, next: Time)
    requires WholeCalendar(cal) && IsNext(cal, row, now, next)
    ensures next % 1000 == 0
  {
  }

  lemma CronStepKeeps(cal: Calendar, s: State, a: CronAction)
    requires WholeCalendar(cal) && CronInv(cal, s)
    ensures CronInv(cal, CronStep(cal, s, a))
  {
    match a {
      case Create(id, row, now) => if IsNext(cal, row, now, row.nextRunAt) { NextIsWhole(cal, row, now, row.nextRunAt); }
      case Finish(f) =>
        if f in s.firings && s.firings[f].Inserted? { NextIsWhole(cal, s.firings[f].row, s.firings[f].now, s.firings[f].next); }
      case ReadPatch(p, id, r, now, next) =>
        if id in s.schedules && IsNext(cal, Edited(s.schedules[id], r, next), now, next) {
          NextIsWhole(cal, Edited(s.schedules[id], r, next), now, next);
        }
      case _ =>
    }
  }

  lemma {:induction false} CronExecKeeps(cal: Calendar, s: State, acts: seq<CronAction>)
    requires WholeCalendar(cal) && Inv(s.w) && CronInv(cal, s)
    ensures Inv(CronExec(cal, s, acts).w) && CronInv(cal, CronExec(cal, s, acts))
    decreases |acts|
  {
    if acts != [] {
      CronStepKeeps(cal, s, acts[0]);
      CronStepKeepsWorld(cal, s, acts[0]);
      CronExecKeeps(cal, CronStep(cal, s, acts[0]), acts[1..]);
    }
  }

  lemma CronStepKeepsWorld(cal: Calendar, s: State, a: CronAction)
    requires Inv(s.w)
    ensures Inv(CronStep(cal, s, a).w)
  {
    if a.Base? { StepKeeps(s.w, a.action); }
    if a.Insert? && CanInsert(cal, s, a.firing, a.job, a.now, a.next) {
      StepKeeps(s.w, Submit(a.job, Build(s.firings[a.firing].schedule, s.firings[a.firing].row, a.now)));
    }
  }

  const START: State := State(INIT, map[], map[], map[])

  lemma StartKeeps(cal: Calendar, acts: seq<CronAction>)
    requires WholeCalendar(cal)
    ensures Inv(CronExec(cal, START, acts).w) && CronInv(cal, CronExec(cal, START, acts))
  {
    InitInv();
    CronExecKeeps(cal, START, acts);
  }

  /** In every run, two firings use one key exactly when they fire the same occurrence of the same schedule. */
  lemma KeysNameOccurrences(cal: Calendar, acts: seq<CronAction>, f: Uuid, g: Uuid)
    requires WholeCalendar(cal) && var s := CronExec(cal, START, acts); f in s.firings && g in s.firings
    ensures var s := CronExec(cal, START, acts);
            var x, y := s.firings[f], s.firings[g];
            OccurrenceOf(x.schedule, x.row) == OccurrenceOf(y.schedule, y.row)
            <==> x.schedule == y.schedule && x.row.nextRunAt == y.row.nextRunAt
  {
    StartKeeps(cal, acts);
  }

  // ---- the theorems ------------------------------------------------------------------------------

  ghost predicate Fired(db: Db, id: Uuid, tenant: Uuid, key: Key) {
    id in db.jobs && db.jobs[id].spec.tenant == tenant && db.jobs[id].spec.key == Some(key)
  }

  lemma SubmitLeavesOne(w: World, job: Uuid, j: Job, tenant: Uuid, key: Key) returns (id: Uuid)
    requires Inv(w) && job !in w.submitted && Fresh(j, w.now) && j.spec.tenant == tenant && j.spec.key == Some(key)
    ensures var w' := DoSubmit(w, job, j);
            && Fired(w'.db, id, tenant, key)
            && (forall x | Fired(w'.db, x, tenant, key) :: x == id)
            && (KeyTaken(w.db, tenant, Some(key)) ==> w'.db == w.db)
  {
    if KeyTaken(w.db, tenant, Some(key)) {
      id :| id in w.db.jobs && w.db.jobs[id].spec.tenant == tenant && w.db.jobs[id].spec.key == Some(key);
    } else {
      id := job;
    }
  }

  /** An insert that gets through leaves exactly one job for its occurrence, whether it or another leader put it there. */
  lemma InsertLeavesOne(cal: Calendar, acts: seq<CronAction>, f: Uuid, job: Uuid, now: Time, next: Time) returns (id: Uuid)
    requires WholeCalendar(cal) && CanInsert(cal, CronExec(cal, START, acts), f, job, now, next)
    ensures var s := CronExec(cal, START, acts);
            var s' := CronStep(cal, s, Insert(f, job, now, next));
            var tenant, key := s.firings[f].row.tenant, OccurrenceOf(s.firings[f].schedule, s.firings[f].row);
            && Fired(s'.w.db, id, tenant, key)
            && (forall x | Fired(s'.w.db, x, tenant, key) :: x == id)
            && (KeyTaken(s.w.db, tenant, Some(key)) ==> s'.w.db == s.w.db)
  {
    StartKeeps(cal, acts);
    var s := CronExec(cal, START, acts);
    var fire := s.firings[f];
    id := SubmitLeavesOne(s.w, job, Build(fire.schedule, fire.row, now), fire.row.tenant, OccurrenceOf(fire.schedule, fire.row));
  }

  /**
   At most once: from the moment an occurrence has a job, and as long as that row
   is kept, no run creates another for it. Two leaders, repeated firings, lost
   updates of next_run_at and stale PATCH writes are all among the runs.
   */
  lemma AtMostOncePerOccurrence(cal: Calendar, before: seq<CronAction>, after: seq<CronAction>, id: Uuid, tenant: Uuid, key: Key)
    requires WholeCalendar(cal) && Fired(CronExec(cal, START, before).w.db, id, tenant, key)
    requires id in CronExec(cal, CronExec(cal, START, before), after).w.db.jobs
    ensures var s := CronExec(cal, START, before);
            Created(CronExec(cal, s, after).w.submitted, s.w.db.jobs[id].spec) == Created(s.w.submitted, s.w.db.jobs[id].spec)
  {
    StartKeeps(cal, before);
    var s := CronExec(cal, START, before);
    CronRunsTheProtocol(cal, s, after);
    NoSecondJob(s.w, StatementsOf(cal, s, after), id);
  }

  /**
   A completed fire moves next_run_at past its own clock, and so past the occurrence it
   fired, exactly when its schedule's expression occurs again after that clock; it then
   moves to the first such occurrence, skipping none.
   */
  lemma CompletedFireMovesOn(cal: Calendar, acts: seq<CronAction>, f: Uuid)
    requires WholeCalendar(cal)
    requires var s := CronExec(cal, START, acts); f in s.firings && s.firings[f].Inserted? && s.firings[f].schedule in s.schedules
    ensures var s := CronExec(cal, START, acts);
            var fire := s.firings[f];
            var row := CronStep(cal, s, Finish(f)).schedules[fire.schedule];
            && row.lastRunAt == Some(fire.now)
            && (fire.now < row.nextRunAt <==> HasNext(cal, fire.row, fire.now))
            && (forall t | fire.now < t < row.nextRunAt :: !cal(fire.row.cron, fire.row.timezone, t))
  {
    StartKeeps(cal, acts);
    var s := CronExec(cal, START, acts);
    assert FiringOk(cal, s.firings[f]);
  }

  /** An expression that never occurs is due at once and stays due after its fire: here the 30th of February, fired at clock 0. */
  lemma NoOccurrenceStaysDue(cal: Calendar)
    requires forall t :: !cal("0 0 30 2 *", "UTC", t)
    ensures var row := Schedule(1, "0 0 30 2 *", "UTC", Template(PRIORITY_NORMAL, 3, 30), true, None, ZERO_TIME);
            var s := CronExec(cal, START, [Create(7, row, 0), Fetch(1, 7), Insert(1, 9, 0, ZERO_TIME), Finish(1)]);
            7 in s.schedules && s.schedules[7].lastRunAt == Some(0) && s.schedules[7].enabled && s.schedules[7].nextRunAt <= s.w.now
  {
    var row := Schedule(1, "0 0 30 2 *", "UTC", Template(PRIORITY_NORMAL, 3, 30), true, None, ZERO_TIME);
    var acts := [Create(7, row, 0), Fetch(1, 7), Insert(1, 9, 0, ZERO_TIME), Finish(1)];
    assert !HasNext(cal, row, 0);
    var s1 := CronStep(cal, START, acts[0]);
    var s2 := CronStep(cal, s1, acts[1]);
    var s3 := CronStep(cal, s2, acts[2]);
    var s4 := CronStep(cal, s3, acts[3]);
    assert s3.schedules == map[7 := row] && s3.firings == map[1 := Inserted(7, row, 0, ZERO_TIME)];
    assert CronExec(cal, s3, acts[3..]) == s4;
    assert acts[2..][1..] == acts[3..] && CronExec(cal, s2, acts[2..]) == s4;
    assert acts[1..][1..] == acts[2..] && CronExec(cal, s1, acts[1..]) == s4;
  }

  /**
   An edit that moves or resumes a schedule makes it due at once only if its expression
   has no occurrence left; any other edit keeps next_run_at, and resumes nothing.
   */
  lemma ResumeSkipsMissed(cal: Calendar, row: Schedule, r: PatchRequest, now: Time, next: Time)
    requires IsNext(cal, Edited(row, r, next), now, next) && ZERO_TIME <= now
    ensures var edited := Edited(row, r, next);
            if Recomputes(row, r) then edited.nextRunAt <= now <==> !HasNext(cal, edited, now)
            else edited.nextRunAt == row.nextRunAt && (edited.enabled ==> row.enabled)
                 && edited.cron == row.cron && edited.timezone == row.timezone
  {
  }

  // ---- firing, as one leader runs it ---------------------------------------------------------------

  datatype Fault = NoFault | InsertFails | EnqueueFails | UpdateFails

  class ScheduleTable {
    var rows: map<Uuid, Schedule>
  }

  /**
   Fires one schedule as fetched earlier. Unless the insert fails, exactly one job
   stands for the occurrence afterwards; only a job created here is pushed; and
   next_run_at moves only if nothing went wrong in the database.
   */
  method FireSchedule(store: Store, queue: RedisQueue, table: ScheduleTable, schedule: Uuid, row: Schedule,
                      id: Uuid, now: Time, next: Time, fault: Fault, ghost cal: Calendar) returns (ok: bool)
    requires KeysOk(store.jobs) && id !in store.jobs && IsNext(cal, row, now, next) && ZERO_TIME < now
    modifies store, queue, table
    ensures KeysOk(store.jobs)
    ensures var j := Build(schedule, row, now);
            var reached := ValidLimits(j.spec) && !fault.InsertFails?;
            var created := reached && !KeyTaken(old(store.Tables()), j.spec.tenant, j.spec.key);
            && store.Tables() == (if created then InsertRow(old(store.Tables()), id, j) else old(store.Tables()))
            && (reached ==> exists x :: Fired(store.Tables(), x, row.tenant, OccurrenceOf(schedule, row)))
            && queue.Contents() == (if created && !fault.EnqueueFails? then Push(old(queue.Contents()), Home(j.spec), id) else old(queue.Contents()))
            && ok == (reached && !fault.UpdateFails?)
    ensures table.rows == if ok && schedule in old(table.rows)
                          then old(table.rows)[schedule := old(table.rows)[schedule].(lastRunAt := Some(now), nextRunAt := next)]
                          else old(table.rows)
    ensures ok && schedule in table.rows ==> (now < table.rows[schedule].nextRunAt <==> HasNext(cal, row, now))
  {
    var j := Build(schedule, row, now);
    if !ValidLimits(j.spec) || fault.InsertFails? {
      return false;
    }
    var duplicate := store.InsertJob(id, j);
    if !duplicate {
      assert Fired(store.Tables(), id, row.tenant, OccurrenceOf(schedule, row));
      if !fault.EnqueueFails? {
        queue.Enqueue(j.spec.tenant, id, j.spec.priority);
      }
    } else {
      ghost var x :| x in store.jobs && store.jobs[x].spec.tenant == j.spec.tenant && store.jobs[x].spec.key == j.spec.key;
      assert Fired(store.Tables(), x, row.tenant, OccurrenceOf(schedule, row));
    }
    if fault.UpdateFails? {
      return false;
    }
    if schedule in table.rows {
      table.rows := table.rows[schedule := table.rows[schedule].(lastRunAt := Some(now), nextRunAt := next)];
    }
    return true;
  }
}
