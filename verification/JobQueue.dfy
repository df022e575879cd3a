/**
 * The job queue: any number of workers, crashes and restarts. A job has one claimant, bounded dispatches and a spaced-
 * out death, and the self-re-enqueuing cleanup job is conserved.
 */
module JobQueue {
  import opened Common
  import opened Runs

  type JobId = nat
  type TaskId = nat
  type CallId = nat

  datatype Kind = Cleanup | Other(name: nat)

  datatype Status = Pending | Running | Succeeded | Dead

  datatype Row = Row(kind: Kind, status: Status, attempts: nat, maxAttempts: nat, runAt: int, updatedAt: int)

  /** What `claim_batch` returns: the claimant's own copy. */
  datatype Job = Job(id: JobId, kind: Kind, attempts: nat, maxAttempts: nat)

  type Jobs = map<JobId, Row>

  const DEFAULT_MAX_ATTEMPTS: nat := 5
  const INTERVAL: int := HOUR
  const RETRY_BACKOFF: seq<int> := [1, 4, 16]

  /** `RETRY_BACKOFF[min(attempts, len - 1)]`: the index is in bounds for every attempt number. */
  function Backoff(attempts: nat): (r: int)
    ensures SECOND <= r <= 16 * SECOND
    ensures attempts == 0 ==> r == 1 * SECOND
    ensures attempts == 1 ==> r == 4 * SECOND
    ensures attempts >= 2 ==> r == 16 * SECOND
  {
    RETRY_BACKOFF[if attempts < |RETRY_BACKOFF| - 1 then attempts else |RETRY_BACKOFF| - 1] * SECOND
  }

  // ---- the SQL statements ------------------------------------------------------------

  function NewRow(kind: Kind, runAt: int, now: int): Row {
    Row(kind, Pending, 0, DEFAULT_MAX_ATTEMPTS, runAt, now)
  }

  predicate Scheduled(jobs: Jobs, kind: Kind) {
    exists id :: id in jobs && jobs[id].kind == kind && (jobs[id].status == Pending || jobs[id].status == Running)
  }

  predicate Claimable(jobs: Jobs, id: JobId, now: int) {
    id in jobs && jobs[id].status == Pending && jobs[id].runAt <= now
  }

  function Claimed(row: Row, now: int): Row {
    row.(status := Running, updatedAt := now)
  }

  function JobOf(id: JobId, row: Row): Job {
    Job(id, row.kind, row.attempts, row.maxAttempts)
  }

  /** The new row after `reschedule_or_kill`, computed from the claimant's copy. */
  function Failed(row: Row, job: Job, now: int): Row {
    row.(attempts := job.attempts + 1,
         status := if job.attempts + 1 >= job.maxAttempts then Dead else Pending,
         runAt := now + Backoff(job.attempts),
         updatedAt := now)
  }

  predicate Prunable(row: Row, now: int) {
    || (row.status == Succeeded && row.updatedAt < now - DAY)
    || (row.status == Dead && row.updatedAt < now - 30 * DAY)
  }

  /** What the claiming `SELECT` ranges over: due rows, skipping those another statement has locked. */
  function Due(jobs: Jobs, locked: set<JobId>, now: int): set<JobId> {
    set id | id in jobs && id !in locked && Claimable(jobs, id, now)
  }

  method Earliest(jobs: Jobs, ids: set<JobId>) returns (first: JobId)
    requires ids != {} && ids <= jobs.Keys
    ensures first in ids && forall id :: id in ids ==> jobs[first].runAt <= jobs[id].runAt
  {
    first :| first in ids;
    var rest := ids - {first};
    while rest != {}
      invariant rest <= ids && first in ids
      invariant forall id :: id in ids - rest ==> jobs[first].runAt <= jobs[id].runAt
      decreases rest
    {
      var id :| id in rest;
      if jobs[id].runAt < jobs[first].runAt { first := id; }
      rest := rest - {id};
    }
  }

  /** `ORDER BY run_at LIMIT $2` */
  method EarliestOf(jobs: Jobs, ids: set<JobId>, limit: nat) returns (taken: set<JobId>)
    requires ids <= jobs.Keys
    ensures taken <= ids && |taken| == if limit <= |ids| then limit else |ids|
    ensures forall a, b :: a in taken && b in ids - taken ==> jobs[a].runAt <= jobs[b].runAt
  {
    taken := {};
    var left := ids;
    while left != {} && |taken| < limit
      invariant taken !! left && taken + left == ids && |taken| <= limit
      invariant forall a, b :: a in taken && b in left ==> jobs[a].runAt <= jobs[b].runAt
      decreases left
    {
      var id := Earliest(jobs, left);
      taken, left := taken + {id}, left - {id};
    }
    assert |ids| == |taken| + |left|;
  }

  class JobsRepository {
    var jobs: Jobs

    constructor ()
      ensures jobs == map[]
    {
      jobs := map[];
    }

    /** The job can be claimed from `runAt` on, and no other job's turn changes. */
    method Enqueue(id: JobId, kind: Kind, runAt: int, now: int)
      modifies this
      ensures jobs == old(jobs)[id := NewRow(kind, runAt, now)]
      ensures Scheduled(jobs, kind) && forall at :: Claimable(jobs, id, at) <==> runAt <= at
      ensures forall k, at :: k != id ==> (Claimable(jobs, k, at) <==> Claimable(old(jobs), k, at))
    {
      jobs := jobs[id := Row(kind, Pending, 0, 5, runAt, now)];
      assert jobs[id].kind == kind && jobs[id].status == Pending;
    }

    method EnsureScheduled(id: JobId, kind: Kind, now: int)
      modifies this
      ensures jobs == if Scheduled(old(jobs), kind) then old(jobs) else old(jobs)[id := NewRow(kind, now, now)]
      ensures Scheduled(jobs, kind)
    {
      if !exists k :: k in jobs && jobs[k].kind == kind && (jobs[k].status == Pending || jobs[k].status == Running) {
        Enqueue(id, kind, now, now);
        assert jobs[id].status == Pending;
      }
    }

    /**
     * Up to `limit` due jobs that no other statement has locked, earliest first; each claimant gets a copy of its row.
     * Jobs left behind were not due earlier than any that was taken.
     */
    method ClaimBatch(limit: nat, locked: set<JobId>, now: int) returns (claimed: map<JobId, Job>)
      modifies this
      ensures claimed.Keys <= Due(old(jobs), locked, now) <= old(jobs).Keys == jobs.Keys
      ensures |claimed.Keys| == if limit <= |Due(old(jobs), locked, now)| then limit else |Due(old(jobs), locked, now)|
      ensures forall a, b :: a in claimed && b in Due(old(jobs), locked, now) - claimed.Keys
                ==> old(jobs)[a].runAt <= old(jobs)[b].runAt
      ensures forall id :: id in claimed ==> claimed[id] == JobOf(id, old(jobs)[id])
      ensures forall id :: id in jobs ==>
                jobs[id] == if id in claimed then Claimed(old(jobs)[id], now) else old(jobs)[id]
    {
      var ids := EarliestOf(jobs, Due(jobs, locked, now), limit);
      claimed := map id | id in ids :: JobOf(id, jobs[id]);
      jobs := map id | id in jobs :: if id in ids then jobs[id].(status := Running, updatedAt := now) else jobs[id];
      assert claimed.Keys == ids;
    }

    /** The job is never claimed again and is pruned after a day; no other job is touched. */
    method MarkSucceeded(id: JobId, now: int)
      modifies this
      ensures jobs.Keys == old(jobs).Keys && forall k :: k in jobs && k != id ==> jobs[k] == old(jobs)[k]
      ensures id in jobs ==> jobs[id] == old(jobs)[id].(status := Succeeded, updatedAt := now)
      ensures forall at :: !Claimable(jobs, id, at)
      ensures forall at :: id in jobs ==> (Prunable(jobs[id], at) <==> at > now + DAY)
    {
      if id in jobs { jobs := jobs[id := jobs[id].(status := Succeeded, updatedAt := now)]; }
    }

    /** One more attempt counts; a dead job is never claimed again, any other exactly from the end of its backoff on. */
    method RescheduleOrKill(job: Job, now: int) returns (dead: bool)
      modifies this
      ensures dead == (job.attempts + 1 >= job.maxAttempts)
      ensures jobs == if job.id in old(jobs) then old(jobs)[job.id := Failed(old(jobs)[job.id], job, now)]
                      else old(jobs)
      ensures forall at :: Claimable(jobs, job.id, at) <==> job.id in jobs && !dead && now + Backoff(job.attempts) <= at
      ensures dead && job.id in jobs ==> forall at :: Prunable(jobs[job.id], at) <==> at > now + 30 * DAY
    {
      var attempts := job.attempts + 1;
      dead := attempts >= job.maxAttempts;
      var runAt := now + Backoff(job.attempts);
      if job.id in jobs {
        var status := if dead then Dead else Pending;
        jobs := jobs[job.id := jobs[job.id].(status := status, attempts := attempts, runAt := runAt, updatedAt := now)];
      }
    }

    method PruneHistory(now: int)
      modifies this
      ensures jobs == map id | id in old(jobs) && !Prunable(old(jobs)[id], now) :: old(jobs)[id]
    {
      jobs := map id | id in jobs && !(jobs[id].status == Succeeded && jobs[id].updatedAt < now - DAY) :: jobs[id];
      jobs := map id | id in jobs && !(jobs[id].status == Dead && jobs[id].updatedAt < now - 30 * DAY) :: jobs[id];
    }
  }

  // ---- workers in flight -------------------------------------------------------------

  /** `process`: not dispatched yet; swept and about to enqueue the next run; then the result to write back. */
  datatype Phase = Waiting | Swept | Succeeding | Failing

  datatype Task = Task(job: Job, phase: Phase)

  /** What ever happened to one job; it outlives the row. */
  datatype Record = Record(
    row: Row, dispatches: nat, failures: nat, firstFailure: Option<int>, deadAt: Option<int>, nextEnqueued: bool)

  /** `scheduling` are the `ensure_scheduled` calls that found no cleanup job and are about to insert one. */
  datatype State = State(
    now: int, jobs: Jobs, log: map<JobId, Record>, tasks: map<TaskId, Task>, scheduling: set<CallId>)

  datatype Event =
    | Tick(elapsed: nat)
    | EnsureTest(call: CallId)
    | EnsureInsert(call: CallId, id: JobId)
    | EnsureDrop(call: CallId)
    | Enqueue(id: JobId, name: nat, runAt: int)
    | Claim(task: TaskId, id: JobId)
    | Dispatch(task: TaskId, sweepSucceeds: bool)
    | EnqueueNext(task: TaskId, id: JobId, succeeds: bool)
    | WriteBack(task: TaskId, succeeds: bool)
    | Crash(tasks: set<TaskId>)
    | Prune

  function Insert(s: State, id: JobId, row: Row): State {
    s.(jobs := s.jobs[id := row], log := s.log[id := Record(row, 0, 0, None, None, false)])
  }

  /** Stores the job's new row and record together. */
  function Save(s: State, id: JobId, rec: Record): State {
    s.(jobs := s.jobs[id := rec.row], log := s.log[id := rec])
  }

  function Move(s: State, task: TaskId, phase: Phase): State
    requires task in s.tasks
  {
    s.(tasks := s.tasks[task := s.tasks[task].(phase := phase)])
  }

  function Finish(s: State, task: TaskId): State {
    s.(tasks := s.tasks - {task})
  }

  function RecordFailure(rec: Record, job: Job, now: int): Record {
    var row := Failed(rec.row, job, now);
    rec.(row := row,
         failures := rec.failures + 1,
         firstFailure := if rec.firstFailure.Some? then rec.firstFailure else Some(now),
         deadAt := if row.status == Dead then Some(now) else None)
  }

  /** The claimant's successor job is in the queue; only the write-back is left. */
  function MarkNext(s: State, task: TaskId): State
    requires task in s.tasks && s.tasks[task].job.id in s.log
  {
    var id := s.tasks[task].job.id;
    Move(s.(log := s.log[id := s.log[id].(nextEnqueued := true)]), task, Succeeding)
  }

  function Step(s: State, e: Event): State {
    match e
    case Tick(elapsed) => s.(now := s.now + elapsed)
    case EnsureTest(call) => if Scheduled(s.jobs, Cleanup) then s else s.(scheduling := s.scheduling + {call})
    case EnsureInsert(call, id) =>
      if call !in s.scheduling || id in s.log then s
      else Insert(s, id, NewRow(Cleanup, s.now, s.now)).(scheduling := s.scheduling - {call})
    case EnsureDrop(call) => s.(scheduling := s.scheduling - {call})
    case Enqueue(id, name, runAt) =>
      if id in s.log then s else Insert(s, id, NewRow(Other(name), runAt, s.now))
    case Claim(task, id) =>
      if task !in s.tasks && Claimable(s.jobs, id, s.now) && id in s.log then
        var rec := s.log[id].(row := Claimed(s.jobs[id], s.now));
        Save(s, id, rec).(tasks := s.tasks[task := Task(JobOf(id, s.jobs[id]), Waiting)])
      else s
    case Dispatch(task, sweepSucceeds) =>
      if task in s.tasks && s.tasks[task].phase == Waiting && s.tasks[task].job.id in s.log then
        var job := s.tasks[task].job;
        var rec := s.log[job.id];
        Move(s.(log := s.log[job.id := rec.(dispatches := rec.dispatches + 1)]), task,
             if job.kind == Cleanup && sweepSucceeds then Swept else Failing)
      else s
    case EnqueueNext(task, id, succeeds) =>
      if task in s.tasks && s.tasks[task].phase == Swept && s.tasks[task].job.id in s.log && id !in s.log then
        if succeeds then Insert(MarkNext(s, task), id, NewRow(Cleanup, s.now + INTERVAL, s.now))
        else Move(s, task, Failing)
      else s
    case WriteBack(task, succeeds) =>
      if task in s.tasks && s.tasks[task].job.id in s.log && s.tasks[task].phase in {Succeeding, Failing} then
        var job := s.tasks[task].job;
        var rec := s.log[job.id];
        if !succeeds then Finish(s, task)
        else if s.tasks[task].phase == Succeeding then
          Finish(Save(s, job.id, rec.(row := rec.row.(status := Succeeded, updatedAt := s.now))), task)
        else Finish(Save(s, job.id, RecordFailure(rec, job, s.now)), task)
      else s
    case Crash(tasks) => s.(tasks := s.tasks - tasks)
    case Prune => s.(jobs := map id | id in s.jobs && !Prunable(s.jobs[id], s.now) :: s.jobs[id])
  }

  predicate Initial(s: State) {
    s.jobs == map[] && s.log == map[] && s.tasks == map[] && s.scheduling == {}
  }

  // ---- what every job's record looks like --------------------------------------------

  /** The least time between the first failure and the claim that follows failure number `failures`. */
  function Spacing(failures: nat): int {
    if failures == 0 then 0 else Spacing(failures - 1) + Backoff(failures - 1)
  }

  predicate RecordOk(r: Record, now: int) {
    && r.row.maxAttempts == DEFAULT_MAX_ATTEMPTS
    && r.failures == r.row.attempts <= r.row.maxAttempts
    && (r.row.status == Dead <==> r.row.attempts == r.row.maxAttempts)
    && (r.deadAt.Some? <==> r.row.status == Dead)
    && (r.row.status in {Pending, Dead} ==> r.dispatches == r.row.attempts)
    && (r.row.status in {Running, Succeeded} ==> r.dispatches <= r.row.attempts + 1)
    && (r.firstFailure.Some? <==> r.row.attempts > 0)
    && (r.firstFailure.Some? && r.row.status == Pending ==>
          r.firstFailure.value + Spacing(r.row.attempts) <= r.row.runAt)
    && (r.firstFailure.Some? && r.row.status == Running ==> r.firstFailure.value + Spacing(r.row.attempts) <= now)
    && (r.deadAt.Some? ==> r.firstFailure.value + Spacing(r.row.attempts - 1) <= r.deadAt.value)
    && (r.nextEnqueued ==> r.row.kind == Cleanup && r.row.status in {Running, Succeeded})
    && (r.row.status == Succeeded ==> r.nextEnqueued)
  }

  /** The claimant's copy is exact until it writes back. */
  predicate TaskOk(log: map<JobId, Record>, t: Task) {
    && t.job.id in log
    && var r := log[t.job.id];
    && r.row.status == Running
    && t.job == JobOf(t.job.id, r.row)
    && (t.phase == Waiting ==> r.dispatches == r.row.attempts)
    && (t.phase != Waiting ==> r.dispatches == r.row.attempts + 1)
    && (t.phase == Swept ==> t.job.kind == Cleanup)
    && (t.phase == Succeeding <==> r.nextEnqueued)
  }

  predicate RecordsOk(s: State) {
    && (forall id :: id in s.log ==> RecordOk(s.log[id], s.now))
    && (forall id :: id in s.jobs ==> id in s.log && s.jobs[id] == s.log[id].row)
    && (forall id :: id in s.log && s.log[id].row.status in {Pending, Running} ==> id in s.jobs)
  }

  /** Every task holds its own job. */
  predicate TasksOk(log: map<JobId, Record>, tasks: map<TaskId, Task>) {
    && (forall t :: t in tasks ==> TaskOk(log, tasks[t]))
    && (forall t, u :: t in tasks && u in tasks && tasks[t].job.id == tasks[u].job.id ==> t == u)
  }

  predicate Inv(s: State) {
    RecordsOk(s) && TasksOk(s.log, s.tasks)
  }

  lemma InsertKeepsInv(s: State, id: JobId, kind: Kind, runAt: int)
    requires Inv(s) && id !in s.log
    ensures Inv(Insert(s, id, NewRow(kind, runAt, s.now)))
  {
    var s' := Insert(s, id, NewRow(kind, runAt, s.now));
    assert TasksOk(s'.log, s.tasks);
    assert RecordsOk(s');
  }

  lemma SaveKeepsTasks(s: State, s': State, task: TaskId, id: JobId)
    requires TasksOk(s.log, s.tasks) && id in s'.log && s'.log == s.log[id := s'.log[id]]
    requires forall t :: t in s'.tasks && t != task ==>
               t in s.tasks && s'.tasks[t] == s.tasks[t] && s.tasks[t].job.id != id
    requires task in s'.tasks ==> TaskOk(s'.log, s'.tasks[task]) && s'.tasks[task].job.id == id
    ensures TasksOk(s'.log, s'.tasks)
  {
  }

  /** Replacing one record keeps the invariant if nobody else holds that job. */
  lemma SaveKeepsInv(s: State, s': State, task: TaskId, id: JobId)
    requires Inv(s) && id in s.log && id in s'.log
    requires s'.log == s.log[id := s'.log[id]] && RecordOk(s'.log[id], s.now) && s'.now == s.now
    requires s'.jobs == s.jobs[id := s'.log[id].row]
    requires forall t :: t in s'.tasks && t != task ==>
               t in s.tasks && s'.tasks[t] == s.tasks[t] && s.tasks[t].job.id != id
    requires task in s'.tasks ==> TaskOk(s'.log, s'.tasks[task]) && s'.tasks[task].job.id == id
    ensures Inv(s')
  {
    SaveKeepsTasks(s, s', task, id);
    assert RecordsOk(s');
  }

  lemma ClaimKeepsInv(s: State, task: TaskId, id: JobId)
    requires Inv(s)
    ensures Inv(Step(s, Claim(task, id)))
  {
    var s' := Step(s, Claim(task, id));
    if s' != s {
      assert RecordOk(s.log[id], s.now);
      SaveKeepsInv(s, s', task, id);
    }
  }

  lemma DispatchKeepsInv(s: State, task: TaskId, ok: bool)
    requires Inv(s)
    ensures Inv(Step(s, Dispatch(task, ok)))
  {
    var s' := Step(s, Dispatch(task, ok));
    if s' != s {
      var id := s.tasks[task].job.id;
      assert RecordOk(s.log[id], s.now) && TaskOk(s.log, s.tasks[task]);
      assert s'.jobs == s.jobs[id := s'.log[id].row];
      SaveKeepsInv(s, s', task, id);
    }
  }

  lemma MarkNextKeepsInv(s: State, task: TaskId)
    requires Inv(s) && task in s.tasks && s.tasks[task].phase == Swept && s.tasks[task].job.id in s.log
    ensures Inv(MarkNext(s, task))
  {
    var id := s.tasks[task].job.id;
    var s' := MarkNext(s, task);
    assert RecordOk(s.log[id], s.now) && TaskOk(s.log, s.tasks[task]);
    assert s'.jobs == s.jobs[id := s'.log[id].row];
    SaveKeepsInv(s, s', task, id);
  }

  lemma SweptFailsKeepsInv(s: State, task: TaskId)
    requires Inv(s) && task in s.tasks && s.tasks[task].phase == Swept
    ensures Inv(Move(s, task, Failing))
  {
    assert TaskOk(s.log, s.tasks[task]);
    assert TasksOk(s.log, Move(s, task, Failing).tasks);
  }

  lemma SweptNextKeepsInv(s: State, task: TaskId, id: JobId)
    requires Inv(s) && task in s.tasks && s.tasks[task].phase == Swept && s.tasks[task].job.id in s.log && id !in s.log
    ensures Inv(Insert(MarkNext(s, task), id, NewRow(Cleanup, s.now + INTERVAL, s.now)))
  {
    MarkNextKeepsInv(s, task);
    var marked := MarkNext(s, task);
    assert marked.now == s.now && id !in marked.log;
    InsertKeepsInv(marked, id, Cleanup, s.now + INTERVAL);
  }

  lemma EnqueueNextKeepsInv(s: State, task: TaskId, id: JobId, ok: bool)
    requires Inv(s)
    ensures Inv(Step(s, EnqueueNext(task, id, ok)))
  {
    if task in s.tasks && s.tasks[task].phase == Swept && s.tasks[task].job.id in s.log && id !in s.log {
      if ok {
        SweptNextKeepsInv(s, task, id);
        assert Step(s, EnqueueNext(task, id, ok))
               == Insert(MarkNext(s, task), id, NewRow(Cleanup, s.now + INTERVAL, s.now));
      } else {
        SweptFailsKeepsInv(s, task);
        assert Step(s, EnqueueNext(task, id, ok)) == Move(s, task, Failing);
      }
    } else {
      assert Step(s, EnqueueNext(task, id, ok)) == s;
    }
  }

  lemma RecordFailureOk(r: Record, job: Job, now: int)
    requires RecordOk(r, now) && r.row.status == Running && !r.nextEnqueued && r.dispatches == r.row.attempts + 1
    requires job == JobOf(job.id, r.row)
    ensures RecordOk(RecordFailure(r, job, now), now)
  {
  }

  lemma WriteBackKeepsInv(s: State, task: TaskId, ok: bool)
    requires Inv(s)
    ensures Inv(Step(s, WriteBack(task, ok)))
  {
    var s' := Step(s, WriteBack(task, ok));
    if s' != s && ok {
      var job := s.tasks[task].job;
      assert RecordOk(s.log[job.id], s.now) && TaskOk(s.log, s.tasks[task]);
      if s.tasks[task].phase == Failing { RecordFailureOk(s.log[job.id], job, s.now); }
      SaveKeepsInv(s, s', task, job.id);
    }
  }

  lemma SchedulingIsFree(s: State, scheduling: set<CallId>)
    requires Inv(s)
    ensures Inv(s.(scheduling := scheduling))
  {
  }

  lemma StepKeepsInv(s: State, e: Event)
    requires Inv(s)
    ensures Inv(Step(s, e))
  {
    match e
    case EnsureInsert(call, id) =>
      if call in s.scheduling && id !in s.log {
        InsertKeepsInv(s, id, Cleanup, s.now);
        SchedulingIsFree(Insert(s, id, NewRow(Cleanup, s.now, s.now)), s.scheduling - {call});
      }
    case EnsureTest(call) => SchedulingIsFree(s, Step(s, e).scheduling);
    case EnsureDrop(call) => SchedulingIsFree(s, Step(s, e).scheduling);
    case Enqueue(id, name, runAt) => if id !in s.log { InsertKeepsInv(s, id, Other(name), runAt); }
    case Claim(task, id) => ClaimKeepsInv(s, task, id);
    case Dispatch(task, ok) => DispatchKeepsInv(s, task, ok);
    case EnqueueNext(task, id, ok) => EnqueueNextKeepsInv(s, task, id, ok);
    case WriteBack(task, ok) => WriteBackKeepsInv(s, task, ok);
    case _ =>
  }

  lemma RunKeepsInv(s: State, events: seq<Event>)
    requires Initial(s)
    ensures Inv(Run(Step, s, events))
  {
    forall t, e | Inv(t) ensures Inv(Step(t, e)) { StepKeepsInv(t, e); }
    Invariant(Step, Inv, s, events);
  }

  // ---- the guarantees about one job --------------------------------------------------

  /**
   * Over any run with any number of workers and crashes: at most five dispatches; dead exactly after five recorded
   * failures; and then at least 37 seconds after the first of them.
   */
  lemma JobBounds(s: State, events: seq<Event>, id: JobId)
    requires Initial(s) && id in Run(Step, s, events).log
    ensures var r := Run(Step, s, events).log[id];
            && r.dispatches <= r.row.maxAttempts == 5
            && (r.row.status == Dead <==> r.failures == 5)
            && (r.row.status == Dead ==>
                  && r.deadAt.Some? && r.firstFailure.Some?
                  && r.deadAt.value >= r.firstFailure.value + 37 * SECOND)
  {
    RunKeepsInv(s, events);
    assert RecordOk(Run(Step, s, events).log[id], Run(Step, s, events).now);
    FinalSpacing();
  }

  lemma FinalSpacing()
    ensures Spacing(4) == 37 * SECOND
  {
    assert Spacing(1) == SECOND && Spacing(2) == 5 * SECOND && Spacing(3) == 21 * SECOND;
  }

  /** Two claimants never hold one job, and a claimant's copy matches the row it will overwrite. */
  lemma OneClaimant(s: State, events: seq<Event>, t: TaskId, u: TaskId)
    requires Initial(s) && t in Run(Step, s, events).tasks && u in Run(Step, s, events).tasks
    ensures var now := Run(Step, s, events);
            && (now.tasks[t].job.id == now.tasks[u].job.id ==> t == u)
            && now.tasks[t].job.id in now.jobs
            && now.jobs[now.tasks[t].job.id].status == Running
            && now.tasks[t].job == JobOf(now.tasks[t].job.id, now.jobs[now.tasks[t].job.id])
  {
    RunKeepsInv(s, events);
    assert TaskOk(Run(Step, s, events).log, Run(Step, s, events).tasks[t]);
  }

  lemma NotHeld(s: State, id: JobId, t: TaskId)
    requires Inv(s) && id in s.log && s.log[id].row.status in {Succeeded, Dead} && t in s.tasks
    ensures s.tasks[t].job.id != id
  {
    assert TaskOk(s.log, s.tasks[t]);
  }

  /** A succeeded or dead job never changes again and nobody holds it, so it is never claimed again. */
  lemma FinishedIsFinal(s: State, e: Event, id: JobId)
    requires Inv(s) && id in s.log && s.log[id].row.status in {Succeeded, Dead}
    ensures id in Step(s, e).log && Step(s, e).log[id] == s.log[id]
    ensures forall t :: t in s.tasks ==> s.tasks[t].job.id != id
  {
    forall t | t in s.tasks ensures s.tasks[t].job.id != id { NotHeld(s, id, t); }
  }

  /** The record `r` is this job's, and it is final. */
  predicate FinishedAs(s: State, id: JobId, r: Record) {
    id in s.log && s.log[id] == r && r.row.status in {Succeeded, Dead}
  }

  /** Once a job has succeeded or died, its record is the same after every continuation of the run. */
  lemma FinishedForGood(s: State, before: seq<Event>, after: seq<Event>, id: JobId, r: Record)
    requires Initial(s) && FinishedAs(Run(Step, s, before), id, r)
    ensures FinishedAs(Run(Step, s, before + after), id, r)
  {
    RunKeepsInv(s, before);
    RunConcat(Step, s, before, after);
    var inv := t => Inv(t) && FinishedAs(t, id, r);
    forall t, e | inv(t) ensures inv(Step(t, e)) {
      StepKeepsInv(t, e);
      FinishedIsFinal(t, e, id);
    }
    Invariant(Step, inv, Run(Step, s, before), after);
  }

  // ---- the cleanup chain -------------------------------------------------------------

  /** The cleanup rows that will still produce a next run. */
  predicate Active(log: map<JobId, Record>, id: JobId) {
    && id in log && log[id].row.kind == Cleanup
    && (log[id].row.status == Pending || (log[id].row.status == Running && !log[id].nextEnqueued))
  }

  predicate CleanupDied(log: map<JobId, Record>) {
    exists id :: id in log && log[id].row.kind == Cleanup && log[id].row.status == Dead
  }

  predicate CleanupKnown(log: map<JobId, Record>) {
    exists id :: id in log && log[id].row.kind == Cleanup
  }

  function ActiveJobs(log: map<JobId, Record>): set<JobId> {
    set id | id in log && Active(log, id)
  }

  /** Chains and calls about to start one are together at most k; a chain is there until a cleanup job dies. */
  predicate ChainOk(k: nat, log: map<JobId, Record>, scheduling: set<CallId>) {
    && |ActiveJobs(log)| + |scheduling| <= k
    && (CleanupKnown(log) && !CleanupDied(log) ==> ActiveJobs(log) != {})
  }

  lemma StillDied(log: map<JobId, Record>, id: JobId, rec: Record)
    requires id in log ==> log[id].row.status != Dead
    ensures CleanupDied(log) ==> CleanupDied(log[id := rec])
  {
    if CleanupDied(log) {
      var d :| d in log && log[d].row.kind == Cleanup && log[d].row.status == Dead;
      assert log[id := rec][d].row.status == Dead;
    }
  }

  lemma StillKnown(log: map<JobId, Record>, id: JobId, rec: Record)
    requires rec.row.kind == Cleanup ==> id in log && log[id].row.kind == Cleanup
    ensures CleanupKnown(log[id := rec]) ==> CleanupKnown(log)
  {
    if CleanupKnown(log[id := rec]) {
      var k :| k in log[id := rec] && log[id := rec][k].row.kind == Cleanup;
      assert k in log && log[k].row.kind == Cleanup;
    }
  }

  /** A record changes, or a job of another kind appears, and nothing happens to the chains. */
  lemma QuietKeepsChain(k: nat, log: map<JobId, Record>, scheduling: set<CallId>, id: JobId, rec: Record)
    requires ChainOk(k, log, scheduling)
    requires rec.row.kind == Cleanup ==> id in log && log[id].row.kind == Cleanup
    requires id in log ==> log[id].row.status != Dead
    requires Active(log, id) <==> Active(log[id := rec], id)
    ensures ChainOk(k, log[id := rec], scheduling)
  {
    assert ActiveJobs(log[id := rec]) == ActiveJobs(log);
    StillDied(log, id, rec);
    StillKnown(log, id, rec);
  }

  /** A call that had found no cleanup job inserts one: it starts a chain and stops being about to. */
  lemma StartKeepsChain(k: nat, s: State, call: CallId, id: JobId)
    requires ChainOk(k, s.log, s.scheduling) && call in s.scheduling && id !in s.log
    ensures ChainOk(k, Insert(s, id, NewRow(Cleanup, s.now, s.now)).log, s.scheduling - {call})
  {
    var log' := Insert(s, id, NewRow(Cleanup, s.now, s.now)).log;
    assert ActiveJobs(log') == ActiveJobs(s.log) + {id};
  }

  /** No chain is there when a call finds no cleanup job pending or running. */
  lemma TestKeepsChain(k: nat, s: State, call: CallId)
    requires Inv(s) && ChainOk(k, s.log, s.scheduling) && !Scheduled(s.jobs, Cleanup)
    requires |s.scheduling + {call}| <= k
    ensures ChainOk(k, s.log, s.scheduling + {call})
  {
    if ActiveJobs(s.log) != {} {
      var id :| id in ActiveJobs(s.log);
      ActiveIsScheduled(s, id);
    }
  }

  lemma ActiveIsScheduled(s: State, id: JobId)
    requires Inv(s) && Active(s.log, id)
    ensures Scheduled(s.jobs, Cleanup)
  {
    assert s.jobs[id] == s.log[id].row;
  }

  /** The successor is enqueued in the same step that marks the predecessor. */
  lemma NextKeepsChain(k: nat, s: State, task: TaskId, id: JobId)
    requires Inv(s) && ChainOk(k, s.log, s.scheduling) && id !in s.log
    requires task in s.tasks && s.tasks[task].phase == Swept && s.tasks[task].job.id in s.log
    ensures ChainOk(k, Insert(MarkNext(s, task), id, NewRow(Cleanup, s.now + INTERVAL, s.now)).log, s.scheduling)
  {
    var done := s.tasks[task].job.id;
    assert TaskOk(s.log, s.tasks[task]);
    var log' := Insert(MarkNext(s, task), id, NewRow(Cleanup, s.now + INTERVAL, s.now)).log;
    assert done in ActiveJobs(s.log);
    assert ActiveJobs(log') == ActiveJobs(s.log) - {done} + {id};
  }

  lemma FailureKeepsChain(k: nat, s: State, task: TaskId)
    requires Inv(s) && ChainOk(k, s.log, s.scheduling) && task in s.tasks && s.tasks[task].phase == Failing
    ensures s.tasks[task].job.id in s.log
    ensures var id := s.tasks[task].job.id;
            ChainOk(k, s.log[id := RecordFailure(s.log[id], s.tasks[task].job, s.now)], s.scheduling)
  {
    assert TaskOk(s.log, s.tasks[task]);
    var id := s.tasks[task].job.id;
    var rec := RecordFailure(s.log[id], s.tasks[task].job, s.now);
    var log' := s.log[id := rec];
    if rec.row.status == Dead && s.log[id].row.kind == Cleanup {
      assert log'[id].row.kind == Cleanup && log'[id].row.status == Dead;
      SubsetSize(ActiveJobs(log'), ActiveJobs(s.log));
    } else {
      QuietKeepsChain(k, s.log, s.scheduling, id, rec);
    }
  }

  lemma TaskStepKeepsChain(k: nat, s: State, e: Event)
    requires Inv(s) && ChainOk(k, s.log, s.scheduling) && (e.Dispatch? || e.WriteBack?) && e.task in s.tasks
    ensures ChainOk(k, Step(s, e).log, s.scheduling)
  {
    var id := s.tasks[e.task].job.id;
    assert TaskOk(s.log, s.tasks[e.task]);
    if e.WriteBack? && s.tasks[e.task].phase == Failing {
      FailureKeepsChain(k, s, e.task);
    } else {
      QuietKeepsChain(k, s.log, s.scheduling, id, Step(s, e).log[id]);
    }
  }

  lemma ClaimKeepsChain(k: nat, s: State, task: TaskId, id: JobId)
    requires Inv(s) && ChainOk(k, s.log, s.scheduling) && Claimable(s.jobs, id, s.now)
    ensures ChainOk(k, Step(s, Claim(task, id)).log, s.scheduling)
  {
    assert RecordOk(s.log[id], s.now);
    QuietKeepsChain(k, s.log, s.scheduling, id, Step(s, Claim(task, id)).log[id]);
  }

  /** The event leaves at most `k` calls of `ensure_scheduled` between their test and their insert. */
  function AtMost(k: nat): (State, Event) -> bool {
    (s, e) => |Step(s, e).scheduling| <= k
  }

  lemma EnsureKeepsChain(k: nat, s: State, e: Event)
    requires Inv(s) && ChainOk(k, s.log, s.scheduling) && AtMost(k)(s, e)
    requires e.EnsureTest? || e.EnsureInsert? || e.EnsureDrop?
    ensures ChainOk(k, Step(s, e).log, Step(s, e).scheduling)
  {
    match e
    case EnsureTest(call) => if !Scheduled(s.jobs, Cleanup) { TestKeepsChain(k, s, call); }
    case EnsureInsert(call, id) => if call in s.scheduling && id !in s.log { StartKeepsChain(k, s, call, id); }
    case EnsureDrop(call) => SubsetSize(s.scheduling - {call}, s.scheduling);
  }

  lemma StepKeepsChain(k: nat, s: State, e: Event)
    requires Inv(s) && ChainOk(k, s.log, s.scheduling) && AtMost(k)(s, e)
    ensures ChainOk(k, Step(s, e).log, Step(s, e).scheduling)
  {
    match e
    case Enqueue(id, name, runAt) =>
      if id !in s.log { QuietKeepsChain(k, s.log, s.scheduling, id, Step(s, e).log[id]); }
    case Claim(task, id) => if Claimable(s.jobs, id, s.now) { ClaimKeepsChain(k, s, task, id); }
    case EnqueueNext(task, id, ok) =>
      if task in s.tasks && s.tasks[task].phase == Swept && s.tasks[task].job.id in s.log && id !in s.log && ok {
        NextKeepsChain(k, s, task, id);
      }
    case Dispatch(task, ok) => if task in s.tasks { TaskStepKeepsChain(k, s, e); }
    case WriteBack(task, ok) => if task in s.tasks { TaskStepKeepsChain(k, s, e); }
    case Tick(_) =>
    case Crash(_) =>
    case Prune =>
    case _ => EnsureKeepsChain(k, s, e);
  }

  predicate InvAndChain(k: nat, s: State) {
    Inv(s) && ChainOk(k, s.log, s.scheduling)
  }

  lemma RunKeepsChain(k: nat, s: State, events: seq<Event>)
    requires Initial(s) && Allowed(Step, AtMost(k), s, events)
    ensures InvAndChain(k, Run(Step, s, events))
  {
    var inv := t => InvAndChain(k, t);
    assert ActiveJobs(s.log) == {};
    forall t, e | inv(t) && AtMost(k)(t, e) ensures inv(Step(t, e)) {
      StepKeepsInv(t, e);
      StepKeepsChain(k, t, e);
    }
    InvariantWhile(Step, AtMost(k), inv, s, events);
  }

  function PendingCleanups(s: State): set<JobId> {
    set id | id in s.jobs && s.jobs[id].kind == Cleanup && s.jobs[id].status == Pending
  }

  /** Running cleanup rows whose claimant has not (or will never have) enqueued the next run. */
  function UnfinishedCleanups(s: State): set<JobId> {
    set id | id in s.jobs && s.jobs[id].kind == Cleanup && s.jobs[id].status == Running
             && id in s.log && !s.log[id].nextEnqueued
  }

  lemma ChainsAreRows(s: State)
    requires Inv(s)
    ensures |PendingCleanups(s)| + |UnfinishedCleanups(s)| == |ActiveJobs(s.log)|
  {
    var both := PendingCleanups(s) + UnfinishedCleanups(s);
    forall id ensures id in both <==> id in ActiveJobs(s.log) {
      if id in ActiveJobs(s.log) { assert s.jobs[id] == s.log[id].row; }
    }
    assert both == ActiveJobs(s.log);
    assert PendingCleanups(s) !! UnfinishedCleanups(s);
  }

  /**
   * The chains are conserved: with at most k `ensure_scheduled` calls between their test and their insert at a time,
   * pending plus running-but-unsent cleanup rows never exceed k, whatever crashes and restarts, and there is one from
   * the first scheduling on until a cleanup job goes dead. With one call at a time that is exactly one.
   */
  lemma CleanupChainConserved(k: nat, s: State, events: seq<Event>)
    requires Initial(s) && Allowed(Step, AtMost(k), s, events)
    ensures var now := Run(Step, s, events);
            && |PendingCleanups(now)| + |UnfinishedCleanups(now)| <= k
            && (CleanupKnown(now.log) && !CleanupDied(now.log) ==>
                  |PendingCleanups(now)| + |UnfinishedCleanups(now)| >= 1)
  {
    RunKeepsChain(k, s, events);
    ChainsAreRows(Run(Step, s, events));
  }

  // ---- a job's way through the queue ---------------------------------------------------

  lemma CleanupIsSwept(s: State, task: TaskId, id: JobId)
    requires Inv(s) && task !in s.tasks && Claimable(s.jobs, id, s.now) && s.jobs[id].kind == Cleanup
    ensures var swept := Step(Step(s, Claim(task, id)), Dispatch(task, true));
            && swept.tasks == s.tasks[task := Task(JobOf(id, s.jobs[id]), Swept)]
            && swept.jobs == s.jobs[id := Claimed(s.jobs[id], s.now)] && swept.log.Keys == s.log.Keys && id in s.log
            && swept.log[id].row == Claimed(s.jobs[id], s.now) && swept.now == s.now
  {
    var claimed := Step(s, Claim(task, id));
    assert claimed.tasks == s.tasks[task := Task(JobOf(id, s.jobs[id]), Waiting)];
    assert claimed.log[id].row == Claimed(s.jobs[id], s.now);
  }

  lemma SweptCleanupIsDone(s: State, task: TaskId, id: JobId, next: JobId)
    requires task in s.tasks && s.tasks[task].phase == Swept && s.tasks[task].job.id == id
    requires id in s.log && next !in s.log && id in s.jobs && s.log[id].row == s.jobs[id]
    ensures var done := Step(Step(s, EnqueueNext(task, next, true)), WriteBack(task, true));
            && done.jobs == s.jobs[next := Row(Cleanup, Pending, 0, 5, s.now + HOUR, s.now)]
                                  [id := s.jobs[id].(status := Succeeded, updatedAt := s.now)]
            && done.tasks == s.tasks - {task}
  {
    var sent := Step(s, EnqueueNext(task, next, true));
    assert sent.tasks == s.tasks[task := s.tasks[task].(phase := Succeeding)] && sent.log[id].row == s.jobs[id];
    assert sent.jobs == s.jobs[next := NewRow(Cleanup, s.now + INTERVAL, s.now)];
    assert sent.tasks - {task} == s.tasks - {task};
  }

  /** A due cleanup is claimed, swept, succeeded by a run an hour later, and done; no other job is touched. */
  lemma CleanupRunsHourly(s: State, task: TaskId, id: JobId, next: JobId)
    requires Inv(s) && task !in s.tasks && Claimable(s.jobs, id, s.now) && s.jobs[id].kind == Cleanup && next !in s.log
    ensures var swept := Step(Step(s, Claim(task, id)), Dispatch(task, true));
            var done := Step(Step(swept, EnqueueNext(task, next, true)), WriteBack(task, true));
            && done.jobs == s.jobs[next := Row(Cleanup, Pending, 0, 5, s.now + HOUR, s.now)]
                                  [id := s.jobs[id].(status := Succeeded, updatedAt := s.now)]
            && done.tasks == s.tasks
  {
    CleanupIsSwept(s, task, id);
    var swept := Step(Step(s, Claim(task, id)), Dispatch(task, true));
    SweptCleanupIsDone(swept, task, id, next);
    assert s.tasks[task := Task(JobOf(id, s.jobs[id]), Swept)] - {task} == s.tasks;
    var row := Row(Cleanup, Pending, 0, 5, s.now + HOUR, s.now);
    var last := s.jobs[id].(status := Succeeded, updatedAt := s.now);
    OverwritesAgain(s.jobs, id, Claimed(s.jobs[id], s.now), next, row, last);
  }

  lemma OverwritesAgain(jobs: Jobs, id: JobId, x: Row, next: JobId, y: Row, z: Row)
    requires id != next
    ensures jobs[id := x][next := y][id := z] == jobs[next := y][id := z]
  {
  }

  /** A failed run of a claimed job is recorded: one more attempt, and another turn after the backoff or the end. */
  lemma FailureIsRecorded(s: State, task: TaskId, id: JobId)
    requires Inv(s) && task !in s.tasks && Claimable(s.jobs, id, s.now)
    ensures var claimed := Step(s, Claim(task, id));
            var failed := Step(claimed, Dispatch(task, false));
            var done := Step(failed, WriteBack(task, true));
            && id in done.jobs && id in done.log && id in s.log && task !in done.tasks
            && done.jobs[id].attempts == s.jobs[id].attempts + 1
            && done.log[id].failures == s.log[id].failures + 1
            && done.jobs[id].status == (if s.jobs[id].attempts + 1 == 5 then Dead else Pending)
            && done.jobs[id].runAt == s.now + Backoff(s.jobs[id].attempts)
  {
    assert RecordOk(s.log[id], s.now);
    var job := JobOf(id, s.jobs[id]);
    var claimed := Step(s, Claim(task, id));
    assert claimed.tasks[task] == Task(job, Waiting) && claimed.log[id].row == Claimed(s.jobs[id], s.now);
    var failed := Step(claimed, Dispatch(task, false));
    assert failed.tasks[task] == Task(job, Failing) && failed.log[id].row == claimed.log[id].row;
  }

  /** Only a cleanup can succeed: nothing else has a handler. */
  lemma OtherKindsFail(s: State, task: TaskId, sweepSucceeds: bool)
    requires task in s.tasks && s.tasks[task].phase == Waiting && s.tasks[task].job.id in s.log
    requires s.tasks[task].job.kind != Cleanup
    ensures var after := Step(s, Dispatch(task, sweepSucceeds));
            task in after.tasks && after.tasks[task].phase == Failing
  {
  }

  /** A new job can be claimed from its time on; pruning removes exactly what has been finished for long enough. */
  lemma EnqueueAndPruneWork(s: State, id: JobId, name: nat, runAt: int)
    requires id !in s.log
    ensures forall at :: Claimable(Step(s, Enqueue(id, name, runAt)).jobs, id, at) <==> runAt <= at
    ensures var pruned := Step(s, Prune).jobs;
            && (forall k :: k in pruned <==>
                  && k in s.jobs
                  && !(s.jobs[k].status == Succeeded && s.jobs[k].updatedAt < s.now - DAY)
                  && !(s.jobs[k].status == Dead && s.jobs[k].updatedAt < s.now - 30 * DAY))
            && (forall k :: k in pruned ==> pruned[k] == s.jobs[k])
  {
  }

  // ---- overlapping starts --------------------------------------------------------------

  /** The calls 0, ..., j - 1 have found nothing. */
  ghost predicate Tested(t: State, j: nat) {
    |t.scheduling| == j && forall c: CallId :: c in t.scheduling <==> c < j
  }

  /** The jobs 0, ..., n - 1 are pending cleanups. */
  ghost predicate Inserted(t: State, n: nat) {
    && t.jobs.Keys == t.log.Keys && |t.jobs| == n && (forall id: JobId :: id in t.jobs <==> id < n)
    && (forall id :: id in t.jobs ==> t.jobs[id].kind == Cleanup && t.jobs[id].status == Pending)
  }

  ghost predicate Stands(t: State, n: nat, j: nat) {
    Tested(t, j) && Inserted(t, n)
  }

  lemma OneMoreTests(t: State, j: nat)
    requires Stands(t, 0, j)
    ensures Stands(Step(t, EnsureTest(j)), 0, j + 1)
  {
    assert !Scheduled(t.jobs, Cleanup);
    assert |t.scheduling + {j}| == j + 1;
  }

  lemma OneMoreRow(t: State, n: nat, scheduling: set<CallId>)
    requires Inserted(t, n)
    ensures Inserted(Insert(t, n, NewRow(Cleanup, t.now, t.now)).(scheduling := scheduling), n + 1)
  {
    var row := NewRow(Cleanup, t.now, t.now);
    var t' := Insert(t, n, row).(scheduling := scheduling);
    assert t'.jobs == t.jobs[n := row] && t'.log.Keys == t.log.Keys + {n};
    assert t'.jobs.Keys == t.jobs.Keys + {n};
    assert |t'.jobs| == |t'.jobs.Keys| == n + 1;
    forall id | id in t'.jobs ensures t'.jobs[id].kind == Cleanup && t'.jobs[id].status == Pending {
      if id != n { assert t'.jobs[id] == t.jobs[id]; }
    }
  }

  lemma OneFewerCall(t: State, t': State, j: nat)
    requires Tested(t, j + 1) && t'.scheduling == t.scheduling - {j}
    ensures Tested(t', j)
  {
  }

  lemma OneMoreInserts(t: State, n: nat, j: nat)
    requires Stands(t, n, j + 1)
    ensures Stands(Step(t, EnsureInsert(j, n)), n + 1, j)
  {
    assert n !in t.log;
    OneMoreRow(t, n, t.scheduling - {j});
    OneFewerCall(t, Step(t, EnsureInsert(j, n)), j);
  }

  lemma {:induction false} AllTest(k: nat, s: State, j: nat) returns (events: seq<Event>)
    requires Initial(s) && j <= k
    ensures Allowed(Step, AtMost(k), s, events) && Stands(Run(Step, s, events), 0, j)
  {
    if j == 0 {
      events := [];
      assert Run(Step, s, []) == s;
    } else {
      var fewer := AllTest(k, s, j - 1);
      OneMoreTests(Run(Step, s, fewer), j - 1);
      AllowedThen(Step, AtMost(k), s, fewer, EnsureTest(j - 1));
      events := fewer + [EnsureTest(j - 1)];
    }
  }

  lemma {:induction false} AllInsert(k: nat, s: State, before: seq<Event>, n: nat, j: nat) returns (events: seq<Event>)
    requires Allowed(Step, AtMost(k), s, before) && Stands(Run(Step, s, before), n, j) && j <= k
    ensures Allowed(Step, AtMost(k), s, events) && Stands(Run(Step, s, events), n + j, 0)
    decreases j
  {
    if j == 0 {
      events := before;
    } else {
      var e := EnsureInsert(j - 1, n);
      OneMoreInserts(Run(Step, s, before), n, j - 1);
      AllowedThen(Step, AtMost(k), s, before, e);
      events := AllInsert(k, s, before + [e], n + 1, j - 1);
    }
  }

  /** k calls that all test before any of them inserts start k chains. */
  lemma OverlappingStarts(k: nat, s: State) returns (events: seq<Event>)
    requires Initial(s)
    ensures Allowed(Step, AtMost(k), s, events)
    ensures |PendingCleanups(Run(Step, s, events))| == k
  {
    events := AllTest(k, s, k);
    events := AllInsert(k, s, events, 0, k);
    var end := Run(Step, s, events);
    assert PendingCleanups(end) == end.jobs.Keys;
  }

  /** Every run with at most k such calls at a time keeps to a single chain. */
  ghost predicate SingleChain(k: nat) {
    forall s, events :: Initial(s) && Allowed(Step, AtMost(k), s, events) ==>
      |PendingCleanups(Run(Step, s, events))| + |UnfinishedCleanups(Run(Step, s, events))| <= 1
  }

  /** The cleanup job is scheduled once and for all if and only if `ensure_scheduled` calls do not overlap. */
  lemma SingleChainIff(k: nat)
    ensures SingleChain(k) <==> k <= 1
  {
    if k <= 1 {
      forall s, events | Initial(s) && Allowed(Step, AtMost(k), s, events)
        ensures |PendingCleanups(Run(Step, s, events))| + |UnfinishedCleanups(Run(Step, s, events))| <= 1
      {
        CleanupChainConserved(k, s, events);
      }
    } else {
      var s := State(0, map[], map[], map[], {});
      var events := OverlappingStarts(k, s);
      assert |PendingCleanups(Run(Step, s, events))| == k;
    }
  }

  /** Only unfinished jobs of that very kind keep it from being scheduled. */
  lemma OtherKindsDoNotCount(jobs: Jobs, id: JobId, row: Row, kind: Kind)
    requires id !in jobs
    ensures Scheduled(jobs[id := row], kind)
            <==> Scheduled(jobs, kind) || (row.kind == kind && (row.status == Pending || row.status == Running))
  {
    var after := jobs[id := row];
    if Scheduled(jobs, kind) {
      var k :| k in jobs && jobs[k].kind == kind && (jobs[k].status == Pending || jobs[k].status == Running);
      assert k in after && after[k] == jobs[k];
    }
    if row.kind == kind && (row.status == Pending || row.status == Running) { assert after[id] == row; }
  }

  /** A crash loses the tasks and nothing else, and a write-back that fails leaves the job running for good. */
  lemma CrashLosesTasksOnly(s: State, victims: set<TaskId>, task: TaskId)
    requires task in s.tasks && s.tasks[task].job.id in s.log && s.tasks[task].phase in {Succeeding, Failing}
    ensures var crashed := Step(s, Crash(victims));
            crashed.tasks.Keys == s.tasks.Keys - victims && crashed.jobs == s.jobs && crashed.log == s.log
    ensures var unwritten := Step(s, WriteBack(task, false));
            task !in unwritten.tasks && unwritten.jobs == s.jobs && unwritten.log == s.log
  {
  }
}
