/** packages/db/repositories/job_repo.py and the operator routes, seen from one job:
    what each committed statement does to the row, and what the workers' execution
    tasks do to it. */
module Lifecycle {
  import opened Types
  import opened Retry

  // ---- the row updates

  function EnqueuedRow(name: string, queue: QueueId, payload: string, priority: int,
                       maxAttempts: int, now: Time): Job {
    Job(name, queue, payload, priority, Queued, None, 0, maxAttempts,
        None, None, None, None, None, 1, now)
  }

  function ClaimedRow(r: Job, worker: WorkerId, at: Time): Job {
    r.(status := Claimed, claimedBy := Some(worker), claimedAt := Some(at), version := r.version + 1)
  }

  function StartedRow(r: Job, now: Time): Job {
    r.(status := Running, startedAt := Some(now), attempts := r.attempts + 1, version := r.version + 1)
  }

  function CompletedRow(r: Job, now: Time): Job {
    r.(status := Completed, completedAt := Some(now), claimedBy := None, version := r.version + 1)
  }

  function RetryLaterRow(r: Job, error: string, at: Time): Job {
    r.(status := RetryScheduled, lastError := Some(error), nextRetryAt := Some(at),
       claimedBy := None, version := r.version + 1)
  }

  function DeadRow(r: Job, error: string): Job {
    r.(status := Dead, lastError := Some(error), claimedBy := None, version := r.version + 1)
  }

  function RequeuedRow(r: Job): Job {
    r.(status := Queued, nextRetryAt := None, version := r.version + 1)
  }

  function RecoveredRow(r: Job): Job {
    r.(status := Queued, claimedBy := None, claimedAt := None, version := r.version + 1)
  }

  function CancelledRow(r: Job): Job {
    r.(status := Cancelled, version := r.version + 1)
  }

  function RetriedRow(r: Job): Job {
    r.(status := Queued, claimedBy := None, claimedAt := None, lastError := None,
       nextRetryAt := None, version := r.version + 1)
  }

  function ReplayedRow(r: Job): Job {
    r.(status := Queued, claimedBy := None, lastError := None, attempts := 0, version := r.version + 1)
  }

  // ---- the WHERE clauses

  predicate RetryDue(r: Job, now: Time) {
    r.status.RetryScheduled? && r.nextRetryAt.Some? && r.nextRetryAt.value <= now
  }

  predicate Stale(r: Job, cutoff: Time) {
    r.status.IsHeld() && r.claimedAt.Some? && r.claimedAt.value < cutoff
  }

  predicate Cancellable(r: Job) {
    r.status.Queued? || r.status.Scheduled? || r.status.RetryScheduled?
  }

  // ---- the failure decision

  /** The delay the worker computes before calling mark_failed: none without a
      retry policy on the queue, and none once the attempts are used up. */
  function RetryDelayFor(policy: Option<RetryPolicy>, r: Job): Option<real> {
    if policy.Some? && r.attempts < r.maxAttempts then Some(Delay(policy.value, r.attempts)) else None
  }

  predicate RetriesAfter(r: Job, delay: Option<real>) {
    delay.Some? && r.attempts < r.maxAttempts
  }

  function FailedRow(r: Job, now: Time, error: string, delay: Option<real>): Job {
    if RetriesAfter(r, delay) then RetryLaterRow(r, error, now + delay.value) else DeadRow(r, error)
  }

  /** The fields a dead-letter entry copies from its job. */
  datatype Snapshot = Snapshot(name: string, queue: QueueId, payload: string, lastError: string, attempts: nat)

  function SnapshotOf(r: Job, error: string): Snapshot {
    Snapshot(r.name, r.queue, r.payload, error, r.attempts)
  }

  // ---- one job with its execution tasks

  /** An execution task is spawned Waiting by the poll that claimed the job, becomes
      Executing when it commits mark_running, and is Gone once it has committed its
      outcome, was cancelled, hit a database error, or died with its worker. */
  datatype Phase = Waiting | Executing | Gone

  datatype Task = Task(worker: WorkerId, claimedAt: Time, phase: Phase)

  /** A job row together with everything that can still write to it, its dead-letter
      entries, and the history the theorems speak of: how often recovery and operators
      re-queued it, and when its executions started. */
  datatype Cell = Cell(
    row: Job,
    policy: Option<RetryPolicy>,
    tasks: seq<Task>,
    dead: seq<Snapshot>,
    recovered: nat,
    requeued: nat,
    starts: seq<Time>)
  {
    function Forced(): nat {
      recovered + requeued
    }

    /** The tasks that can still write to the row. */
    function Live(): set<nat> {
      set i | 0 <= i < |tasks| && !tasks[i].phase.Gone?
    }

    function Unstarted(): set<nat> {
      set i | 0 <= i < |tasks| && tasks[i].phase.Waiting?
    }

    predicate InPhase(i: nat, phase: Phase) {
      i < |tasks| && tasks[i].phase == phase
    }
  }

  datatype Event =
    | Claim(worker: WorkerId, at: Time)
    | Start(task: nat)
    | Succeed(task: nat)
    | Fail(task: nat, error: string)
    | Abandon(task: nat)
    | Crash(worker: WorkerId)
    | Requeue
    | Recover(timeout: Time)
    | Cancel
    | Retry
    | Replay

  /** What must hold for the event to do anything. Note what is absent: starting,
      succeeding, failing, retrying and replaying do not look at the status. */
  predicate CanOccur(c: Cell, now: Time, e: Event) {
    match e
    case Claim(_, _) => c.row.status.Queued?
    case Start(i) => c.InPhase(i, Waiting)
    case Succeed(i) => c.InPhase(i, Executing)
    case Fail(i, _) => c.InPhase(i, Executing)
    case Abandon(i) => i in c.Live()
    case Crash(_) => true
    case Requeue => RetryDue(c.row, now)
    case Recover(timeout) => Stale(c.row, now - timeout)
    case Cancel => Cancellable(c.row)
    case Retry => true
    case Replay => c.dead != []
  }

  function MoveTask(c: Cell, i: nat, phase: Phase): Cell
    requires i < |c.tasks|
  {
    c.(tasks := c.tasks[i := c.tasks[i].(phase := phase)])
  }

  function CrashTasks(tasks: seq<Task>, worker: WorkerId): (r: seq<Task>)
    ensures |r| == |tasks|
  {
    seq(|tasks|, i requires 0 <= i < |tasks| =>
      if tasks[i].worker == worker then tasks[i].(phase := Gone) else tasks[i])
  }

  /** The job after the event; an event that cannot occur changes nothing. */
  function Effect(c: Cell, now: Time, e: Event): Cell {
    if !CanOccur(c, now, e) then c else
    match e
    case Claim(worker, at) =>
      c.(row := ClaimedRow(c.row, worker, at), tasks := c.tasks + [Task(worker, at, Waiting)])
    case Start(i) =>
      MoveTask(c, i, Executing).(row := StartedRow(c.row, now), starts := c.starts + [now])
    case Succeed(i) =>
      MoveTask(c, i, Gone).(row := CompletedRow(c.row, now))
    case Fail(i, error) =>
      var delay := RetryDelayFor(c.policy, c.row);
      MoveTask(c, i, Gone).(
        row := FailedRow(c.row, now, error, delay),
        dead := if RetriesAfter(c.row, delay) then c.dead else c.dead + [SnapshotOf(c.row, error)])
    case Abandon(i) => MoveTask(c, i, Gone)
    case Crash(worker) => c.(tasks := CrashTasks(c.tasks, worker))
    case Requeue => c.(row := RequeuedRow(c.row))
    case Recover(_) => c.(row := RecoveredRow(c.row), recovered := c.recovered + 1)
    case Cancel => c.(row := CancelledRow(c.row))
    case Retry => c.(row := RetriedRow(c.row), requeued := c.requeued + 1)
    case Replay => c.(row := ReplayedRow(c.row), requeued := c.requeued + 1)
  }

  function FreshCell(row: Job, policy: Option<RetryPolicy>): Cell {
    Cell(row, policy, [], [], 0, 0, [])
  }

  // ---- how events move the live tasks

  function LiveAfter(c: Cell, now: Time, e: Event): set<nat>
    requires CanOccur(c, now, e)
  {
    match e
    case Claim(_, _) => c.Live() + {|c.tasks|}
    case Succeed(i) => c.Live() - {i}
    case Fail(i, _) => c.Live() - {i}
    case Abandon(i) => c.Live() - {i}
    case Crash(worker) => set i | i in c.Live() && c.tasks[i].worker != worker
    case _ => c.Live()
  }

  function UnstartedAfter(c: Cell, now: Time, e: Event): set<nat>
    requires CanOccur(c, now, e)
  {
    match e
    case Claim(_, _) => c.Unstarted() + {|c.tasks|}
    case Start(i) => c.Unstarted() - {i}
    case Abandon(i) => c.Unstarted() - {i}
    case Crash(worker) => set i | i in c.Unstarted() && c.tasks[i].worker != worker
    case _ => c.Unstarted()
  }

  lemma TasksMove(c: Cell, now: Time, e: Event)
    requires CanOccur(c, now, e)
    ensures Effect(c, now, e).Live() == LiveAfter(c, now, e)
    ensures Effect(c, now, e).Unstarted() == UnstartedAfter(c, now, e)
  {
  }

  /** Only a live task can report anything. */
  lemma ReporterIsLive(c: Cell, now: Time, e: Event)
    ensures CanOccur(c, now, e) && (e.Start? || e.Succeed? || e.Fail? || e.Abandon?) ==> e.task in c.Live()
  {
  }

  lemma {:induction false} SubsetSize<T>(a: set<T>, b: set<T>)
    requires a <= b
    ensures |a| <= |b|
  {
    if a != {} {
      var x :| x in a;
      SubsetSize(a - {x}, b - {x});
    }
  }
}
