/** What every interleaving keeps: any worker, scheduler or operator may take any step
    at any time, clocks may jump, and stale tasks may write late. */
module OpenRuns {
  import opened Types
  import opened Retry
  import opened Lifecycle
  import opened Protocol

  function Waits(c: Cell): nat {
    if c.row.status.IsWaiting() then 1 else 0
  }

  /** Every live execution beyond the first, or beside a waiting row, was paid for by
      a recovery, a manual retry or a replay. */
  predicate OverlapPaid(c: Cell) {
    |c.Live()| + Waits(c) <= 1 + c.Forced()
  }

  predicate AttemptsPaid(c: Cell) {
    c.row.attempts + |c.Unstarted()| + Waits(c) <= Max(1, c.row.maxAttempts) + c.Forced()
  }

  predicate FieldsAgree(c: Cell) {
    var r := c.row;
    && !r.status.Scheduled? && !r.status.Failed? && r.version >= 1
    && (r.claimedBy.Some? ==> r.status.IsHeld())
    && (r.status.Claimed? ==> r.claimedBy.Some? && r.claimedAt.Some?)
    && (r.status.RetryScheduled? ==> r.nextRetryAt.Some?)
    && (r.status.Completed? ==> r.completedAt.Some?)
    && (r.status.Running? ==> c.starts != [])
    && r.startedAt == (if c.starts == [] then None else Some(c.starts[|c.starts| - 1]))
  }

  /** A dead job's newest dead-letter entry describes it. */
  predicate DeadLettered(c: Cell) {
    c.row.status.Dead? ==>
      c.dead != [] && Describes(c.dead[|c.dead| - 1], c.row)
  }

  predicate Describes(copy: Snapshot, r: Job) {
    && copy.name == r.name && copy.queue == r.queue && copy.payload == r.payload
    && r.lastError == Some(copy.lastError) && copy.attempts == r.attempts
  }

  /** At most one live execution, and the row knows which one and in which phase. */
  predicate Exclusive(c: Cell) {
    && (forall i, k :: i in c.Live() && k in c.Live() ==> i == k)
    && (forall i :: i in c.Live() ==> Owns(c.tasks[i], c.row))
  }

  predicate Owns(t: Task, r: Job) {
    && r.status == (if t.phase.Waiting? then Claimed else Running)
    && r.claimedBy == Some(t.worker)
    && r.claimedAt == Some(t.claimedAt)
  }

  /** The version that status and attempts determine. */
  predicate VersionFits(r: Job) {
    match r.status
    case Queued => r.version == 4 * r.attempts + 1
    case Claimed => r.version == 4 * r.attempts + 2
    case Running => r.attempts >= 1 && r.version == 4 * r.attempts - 1
    case RetryScheduled => r.attempts >= 1 && r.version == 4 * r.attempts
    case Completed => r.attempts >= 1 && r.version == 4 * r.attempts
    case Dead => r.attempts >= 1 && r.version == 4 * r.attempts
    case Cancelled => r.version == 4 * r.attempts + 1 || r.version == 4 * r.attempts + 2
    case _ => false
  }

  /** A job that nothing re-queued by force. */
  predicate Undisturbed(c: Cell) {
    c.Forced() == 0
  }

  /** The fields that are set are exactly those the job's own history has set. */
  predicate FieldsExact(r: Job) {
    && (r.nextRetryAt.Some? ==> r.status.RetryScheduled? || r.status.Cancelled?)
    && (r.completedAt.Some? <==> r.status.Completed?)
    && (r.claimedAt.None? ==> r.attempts == 0 && (r.status.Queued? || r.status.Cancelled?))
    && (r.claimedBy.Some? <==> r.status.IsHeld())
    && (r.status.RetryScheduled? || r.status.Dead? ==> r.lastError.Some?)
    && (r.lastError.Some? ==> r.attempts >= 1)
  }

  predicate RegularWhenUndisturbed(c: Cell) {
    Undisturbed(c) ==>
      && Exclusive(c) && VersionFits(c.row) && FieldsExact(c.row) && |c.starts| == c.row.attempts
      && (c.row.status.Claimed? || c.row.status.Cancelled? ==> c.row.attempts < Max(1, c.row.maxAttempts))
  }

  predicate CellOpen(c: Cell) {
    OverlapPaid(c) && AttemptsPaid(c) && FieldsAgree(c) && DeadLettered(c) && RegularWhenUndisturbed(c)
  }

  ghost predicate OpenInv(s: State) {
    forall j :: j in s.jobs ==> CellOpen(s.jobs[j])
  }

  // ---- one event keeps them

  lemma OverlapKept(c: Cell, now: Time, e: Event)
    requires CellOpen(c) && CanOccur(c, now, e)
    ensures OverlapPaid(Effect(c, now, e))
  {
    TasksMove(c, now, e);
    if e.Crash? {
      SubsetSize(LiveAfter(c, now, e), c.Live());
    }
  }

  lemma AttemptsKept(c: Cell, now: Time, e: Event)
    requires CellOpen(c) && CanOccur(c, now, e)
    ensures AttemptsPaid(Effect(c, now, e))
  {
    match e {
      case Fail(i, error) => AttemptsKeptByFailure(c, now, i, error);
      case Replay => AttemptsKeptByReplay(c, now);
      case Crash(_) =>
        TasksMove(c, now, e);
        SubsetSize(UnstartedAfter(c, now, e), c.Unstarted());
      case _ => TasksMove(c, now, e);
    }
  }

  /** Replay forgets the attempts, but the unstarted executions are still paid for. */
  lemma AttemptsKeptByReplay(c: Cell, now: Time)
    requires OverlapPaid(c) && CanOccur(c, now, Replay)
    ensures AttemptsPaid(Effect(c, now, Replay))
  {
    TasksMove(c, now, Replay);
    SubsetSize(c.Unstarted(), c.Live());
  }

  /** The failing task is live and started, so the unstarted ones are all paid for. */
  lemma AttemptsKeptByFailure(c: Cell, now: Time, i: nat, error: string)
    requires OverlapPaid(c) && AttemptsPaid(c) && CanOccur(c, now, Fail(i, error))
    ensures AttemptsPaid(Effect(c, now, Fail(i, error)))
  {
    TasksMove(c, now, Fail(i, error));
    SubsetSize(c.Unstarted(), c.Live() - {i});
  }

  lemma FieldsKept(c: Cell, now: Time, e: Event)
    requires CellOpen(c) && CanOccur(c, now, e)
    ensures FieldsAgree(Effect(c, now, e)) && DeadLettered(Effect(c, now, e))
  {
  }

  lemma ExclusionKept(c: Cell, now: Time, e: Event)
    requires Exclusive(c) && CanOccur(c, now, e)
    requires e.Recover? || e.Retry? || e.Replay? ==> c.Live() == {}
    ensures Exclusive(Effect(c, now, e))
  {
    TasksMove(c, now, e);
    var c' := Effect(c, now, e);
    forall i | i in c'.Live() ensures Owns(c'.tasks[i], c'.row) {
      assert i in LiveAfter(c, now, e);
      ReporterIsLive(c, now, e);
    }
  }

  lemma RegularityKept(c: Cell, now: Time, e: Event)
    requires CellOpen(c) && CanOccur(c, now, e)
    ensures RegularWhenUndisturbed(Effect(c, now, e))
  {
    if Undisturbed(Effect(c, now, e)) {
      ExclusionKept(c, now, e);
      ReporterIsLive(c, now, e);
    }
  }

  lemma EventKeepsOpen(c: Cell, now: Time, e: Event)
    requires CellOpen(c)
    ensures CellOpen(Effect(c, now, e))
  {
    if CanOccur(c, now, e) {
      OverlapKept(c, now, e);
      AttemptsKept(c, now, e);
      FieldsKept(c, now, e);
      RegularityKept(c, now, e);
    }
  }

  predicate IsNew(r: Job) {
    r == EnqueuedRow(r.name, r.queue, r.payload, r.priority, r.maxAttempts, r.createdAt)
  }

  lemma FreshIsOpen(row: Job, policy: Option<RetryPolicy>)
    requires IsNew(row)
    ensures CellOpen(FreshCell(row, policy))
  {
    var c := FreshCell(row, policy);
    assert c.Live() == {} && c.Unstarted() == {};
  }

  lemma StepKeepsOpen(s: State, step: Step)
    requires OpenInv(s)
    ensures OpenInv(Apply(s, step))
  {
    var s' := Apply(s, step);
    forall j | j in s'.jobs ensures CellOpen(s'.jobs[j]) {
      if j !in s.jobs {
        FreshIsOpen(s'.jobs[j].row, step.policy);
      } else if EventAt(step, j).Some? {
        EventKeepsOpen(s.jobs[j], s.now, EventAt(step, j).value);
      }
    }
  }

  lemma {:induction false} RunKeepsOpen(s: State, steps: seq<Step>)
    requires OpenInv(s)
    ensures OpenInv(After(s, steps))
    decreases |steps|
  {
    if steps != [] {
      StepKeepsOpen(s, steps[0]);
      RunKeepsOpen(Apply(s, steps[0]), steps[1..]);
    }
  }

  lemma ReachableIsOpen(s: State)
    requires Reachable(s)
    ensures OpenInv(s)
  {
    var start, steps :| s == After(Empty(start), steps);
    RunKeepsOpen(Empty(start), steps);
  }

  // ---- the theorems over all open runs

  /** Open runs: live executions plus a waiting row never exceed one plus the forced
      re-queues; so a job never re-queued by force has at most one live execution. */
  lemma OverlapIsAlwaysPaidFor(s: State, job: JobId)
    requires Reachable(s) && job in s.jobs
    ensures var c := s.jobs[job];
            && |c.Live()| + Waits(c) <= 1 + c.recovered + c.requeued
            && (Undisturbed(c) ==> Exclusive(c))
  {
    ReachableIsOpen(s);
  }

  /** Open runs: attempts, claimed-but-unstarted executions and a waiting row together
      stay within the attempt limit plus the forced re-queues. */
  lemma AttemptsAreBounded(s: State, job: JobId)
    requires Reachable(s) && job in s.jobs
    ensures var c := s.jobs[job];
            c.row.attempts + |c.Unstarted()| + Waits(c) <= Max(1, c.row.maxAttempts) + c.recovered + c.requeued
  {
    ReachableIsOpen(s);
  }

  /** Open runs: who holds a job, when it retries and what killed it are always
      recorded where the status says they are. */
  lemma RowsStayConsistent(s: State, job: JobId)
    requires Reachable(s) && job in s.jobs
    ensures FieldsAgree(s.jobs[job]) && DeadLettered(s.jobs[job])
  {
    ReachableIsOpen(s);
  }

  // ---- the version is an exact clock

  /** How many steps of the run rewrite the job's row. */
  function Rewrites(s: State, steps: seq<Step>, job: JobId): nat
    requires job in s.jobs
    decreases |steps|
  {
    if steps == [] then 0 else
    var s' := Apply(s, steps[0]);
    (if s'.jobs[job].row != s.jobs[job].row then 1 else 0) + Rewrites(s', steps[1..], job)
  }

  lemma EventBumpsVersion(c: Cell, now: Time, e: Event)
    ensures var r, r' := c.row, Effect(c, now, e).row;
            r'.version == r.version + (if r' != r then 1 else 0)
  {
  }

  /** Open runs: the version counts the rewrites of the row, no more and no less. */
  lemma {:induction false} VersionCountsRewrites(s: State, steps: seq<Step>, job: JobId)
    requires job in s.jobs
    ensures job in After(s, steps).jobs
    ensures After(s, steps).jobs[job].row.version == s.jobs[job].row.version + Rewrites(s, steps, job)
    decreases |steps|
  {
    if steps != [] {
      var e := EventAt(steps[0], job);
      if e.Some? {
        EventBumpsVersion(s.jobs[job], s.now, e.value);
      }
      VersionCountsRewrites(Apply(s, steps[0]), steps[1..], job);
    }
  }

  /** Open runs: while nothing re-queued the job by force, status and attempts fix the
      version, which stays within four per allowed attempt, and no field is left over
      from an earlier attempt. */
  lemma VersionIsExact(s: State, job: JobId)
    requires Reachable(s) && job in s.jobs && Undisturbed(s.jobs[job])
    ensures var r := s.jobs[job].row; VersionFits(r) && FieldsExact(r) && r.version <= 4 * Max(1, r.maxAttempts)
  {
    ReachableIsOpen(s);
  }

  // ---- finitely many steps

  ghost function Pick<T>(s: set<T>): T
    requires s != {}
  {
    var x :| x in s; x
  }

  ghost function AllRewrites(s: State, steps: seq<Step>, ids: set<JobId>): nat
    requires ids <= s.jobs.Keys
  {
    if ids == {} then 0 else
    var j := Pick(ids);
    Rewrites(s, steps, j) + AllRewrites(s, steps, ids - {j})
  }

  ghost function Allowance(s: State, ids: set<JobId>): nat
    requires ids <= s.jobs.Keys
  {
    if ids == {} then 0 else
    var j := Pick(ids);
    4 * Max(1, s.jobs[j].row.maxAttempts) - 1 + Allowance(s, ids - {j})
  }

  /** Open runs: however long a run goes on and however its executions end, as long as
      nothing is re-queued by force it rewrites the rows of the jobs it started with no
      more often than their attempt limits allow in total. */
  lemma {:induction false} WorkIsFinite(s: State, steps: seq<Step>, ids: set<JobId>)
    requires Reachable(s) && ids <= s.jobs.Keys
    requires forall j :: j in ids && j in After(s, steps).jobs ==> Undisturbed(After(s, steps).jobs[j])
    ensures AllRewrites(s, steps, ids) <= Allowance(s, ids)
    decreases |ids|
  {
    if ids != {} {
      var j := Pick(ids);
      ReachableAfter(s, steps);
      IdentityIsKept(s, steps, j);
      VersionCountsRewrites(s, steps, j);
      VersionIsExact(After(s, steps), j);
      RowsStayConsistent(s, j);
      WorkIsFinite(s, steps, ids - {j});
    }
  }

  // ---- the history is exact

  /** How many recoveries, retries and replays of the job take effect in the run. */
  function ForcedSteps(s: State, steps: seq<Step>, job: JobId): nat
    requires job in s.jobs
    decreases |steps|
  {
    if steps == [] then 0 else
    var e := EventAt(steps[0], job);
    (if e.Some? && (e.value.Recover? || e.value.Retry? || e.value.Replay?) && CanOccur(s.jobs[job], s.now, e.value)
     then 1 else 0) + ForcedSteps(Apply(s, steps[0]), steps[1..], job)
  }

  /** Open runs: what the theorems call forced re-queues are exactly those. */
  lemma {:induction false} ForcedRequeuesAreCounted(s: State, steps: seq<Step>, job: JobId)
    requires job in s.jobs
    ensures job in After(s, steps).jobs
    ensures After(s, steps).jobs[job].Forced() == s.jobs[job].Forced() + ForcedSteps(s, steps, job)
    decreases |steps|
  {
    if steps != [] {
      ForcedRequeuesAreCounted(Apply(s, steps[0]), steps[1..], job);
    }
  }

  // ---- who writes what

  /** The events after which a field may differ, and what it is then. */
  lemma WritesOfEvent(c: Cell, now: Time, e: Event)
    requires CanOccur(c, now, e)
    ensures var was, after := c.row, Effect(c, now, e).row;
            && after.lastError == (match e case Fail(_, error) => Some(error) case Retry => None case Replay => None
                                case _ => was.lastError)
            && after.claimedBy == (match e case Claim(worker, _) => Some(worker) case Start(_) => was.claimedBy
                                case Abandon(_) => was.claimedBy case Crash(_) => was.claimedBy
                                case Requeue => was.claimedBy case Cancel => was.claimedBy case _ => None)
            && after.claimedAt == (match e case Claim(_, at) => Some(at) case Recover(_) => None case Retry => None
                                case _ => was.claimedAt)
            && after.startedAt == (match e case Start(_) => Some(now) case _ => was.startedAt)
            && after.completedAt == (match e case Succeed(_) => Some(now) case _ => was.completedAt)
            && (after.nextRetryAt == match e case Requeue => None case Retry => None
                                  case Fail(_, _) => if after.status.Dead? then was.nextRetryAt else after.nextRetryAt
                                  case _ => was.nextRetryAt)
            && after.version == was.version + (if e.Abandon? || e.Crash? then 0 else 1)
  {
  }

  /** Open runs: only a failure replaces a job's recorded error, and only an operator's
      retry or replay erases it; between those it outlasts every claim, start, success,
      re-queue, recovery and cancellation. */
  lemma {:induction false} ErrorOutlastsTheRest(s: State, steps: seq<Step>, job: JobId)
    requires job in s.jobs && ErrorUntouched(steps, job)
    ensures job in After(s, steps).jobs
    ensures After(s, steps).jobs[job].row.lastError == s.jobs[job].row.lastError
    decreases |steps|
  {
    if steps != [] {
      var e := EventAt(steps[0], job);
      if e.Some? && CanOccur(s.jobs[job], s.now, e.value) {
        WritesOfEvent(s.jobs[job], s.now, e.value);
      }
      assert ErrorUntouched(steps[1..], job) by {
        forall k | 0 <= k < |steps| - 1 ensures KeepsError(steps[1..][k], job) {
          assert steps[1..][k] == steps[k + 1];
          assert KeepsError(steps[k + 1], job);
        }
      }
      assert KeepsError(steps[0], job);
      ErrorOutlastsTheRest(Apply(s, steps[0]), steps[1..], job);
    }
  }

  predicate KeepsError(step: Step, job: JobId) {
    var e := EventAt(step, job);
    e.Some? ==> !e.value.Fail? && !e.value.Retry? && !e.value.Replay?
  }

  ghost predicate ErrorUntouched(steps: seq<Step>, job: JobId) {
    forall k :: 0 <= k < |steps| ==> KeepsError(steps[k], job)
  }
}
