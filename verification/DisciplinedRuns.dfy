/** What timing and operator discipline add: recovery never meets a live execution older
    than its timeout, operators re-queue only dead jobs, clocks do not go backwards.
    Workers may still crash, and tasks be abandoned, at any point. */
module DisciplinedRuns {
  import opened Types
  import opened Retry
  import opened Lifecycle
  import opened Protocol
  import opened OpenRuns

  predicate CellDisciplined(c: Cell) {
    && CellOpen(c)
    && Exclusive(c)
    && (c.row.status.IsHeld() ==> c.row.claimedAt.Some?)
    && |c.dead| == c.requeued + (if c.row.status.Dead? then 1 else 0)
  }

  ghost predicate DisciplinedInv(s: State) {
    forall j :: j in s.jobs ==> CellDisciplined(s.jobs[j])
  }

  // ---- one event keeps them

  /** In a disciplined run, whatever re-queues a job by force finds it without
      a live execution. */
  lemma ForcedRequeueFindsNoTask(c: Cell, now: Time, e: Event)
    requires Exclusive(c) && CanOccur(c, now, e) && DisciplinedEvent(c, now, e)
    requires e.Recover? || e.Retry? || e.Replay?
    ensures c.Live() == {}
    ensures var c' := Effect(c, now, e); c'.Live() == {} && c'.row.status.Queued? && c'.row.claimedBy.None?
  {
    TasksMove(c, now, e);
  }

  lemma EventKeepsDiscipline(c: Cell, now: Time, e: Event)
    requires CellDisciplined(c) && DisciplinedEvent(c, now, e)
    ensures CellDisciplined(Effect(c, now, e))
  {
    EventKeepsOpen(c, now, e);
    if CanOccur(c, now, e) {
      if e.Recover? || e.Retry? || e.Replay? {
        ForcedRequeueFindsNoTask(c, now, e);
      }
      ExclusionKept(c, now, e);
      EventKeepsCount(c, now, e);
    }
  }

  /** Claim times stay recorded, and each death adds one entry. */
  lemma EventKeepsCount(c: Cell, now: Time, e: Event)
    requires CellDisciplined(c) && DisciplinedEvent(c, now, e)
    ensures var c' := Effect(c, now, e);
            && (c'.row.status.IsHeld() ==> c'.row.claimedAt.Some?)
            && |c'.dead| == c'.requeued + (if c'.row.status.Dead? then 1 else 0)
  {
    ReporterIsLive(c, now, e);
  }

  lemma FreshIsDisciplined(row: Job, policy: Option<RetryPolicy>)
    requires IsNew(row)
    ensures CellDisciplined(FreshCell(row, policy))
  {
    FreshIsOpen(row, policy);
    assert FreshCell(row, policy).Live() == {};
  }

  lemma StepKeepsJobDisciplined(s: State, step: Step, job: JobId)
    requires job in s.jobs ==>
               && CellDisciplined(s.jobs[job])
               && (EventAt(step, job).Some? ==> DisciplinedEvent(s.jobs[job], s.now, EventAt(step, job).value))
    requires job in Apply(s, step).jobs
    ensures CellDisciplined(Apply(s, step).jobs[job])
  {
    if job !in s.jobs {
      FreshIsDisciplined(Apply(s, step).jobs[job].row, step.policy);
    } else if EventAt(step, job).Some? {
      EventKeepsDiscipline(s.jobs[job], s.now, EventAt(step, job).value);
    }
  }

  lemma StepKeepsDiscipline(s: State, step: Step)
    requires DisciplinedInv(s) && DisciplinedStep(s, step)
    ensures DisciplinedInv(Apply(s, step))
  {
    forall j | j in Apply(s, step).jobs ensures CellDisciplined(Apply(s, step).jobs[j]) {
      StepKeepsJobDisciplined(s, step, j);
    }
  }

  lemma {:induction false} RunKeepsDiscipline(s: State, steps: seq<Step>)
    requires DisciplinedInv(s) && DisciplinedRun(s, steps)
    ensures DisciplinedInv(After(s, steps))
    decreases |steps|
  {
    if steps != [] {
      StepKeepsDiscipline(s, steps[0]);
      RunKeepsDiscipline(Apply(s, steps[0]), steps[1..]);
    }
  }

  lemma ReachableIsDisciplined(s: State)
    requires DisciplinedReachable(s)
    ensures DisciplinedInv(s)
  {
    var start, steps :| DisciplinedRun(Empty(start), steps) && s == After(Empty(start), steps);
    RunKeepsDiscipline(Empty(start), steps);
  }

  // ---- mutual exclusion

  /** Disciplined runs: at most one live execution per job, only while the job is held,
      and by the worker and claim the row names. */
  lemma MutualExclusion(s: State, job: JobId)
    requires DisciplinedReachable(s) && job in s.jobs
    ensures var c := s.jobs[job];
            && |c.Live()| <= 1
            && (forall i :: i in c.Live() ==>
                  && c.row.status == (if c.tasks[i].phase.Waiting? then Claimed else Running)
                  && c.row.claimedBy == Some(c.tasks[i].worker)
                  && c.row.claimedAt == Some(c.tasks[i].claimedAt))
  {
    ReachableIsDisciplined(s);
    var c := s.jobs[job];
    if i :| i in c.Live() {
      assert c.Live() == {i};
    }
  }

  /** Disciplined runs: a recovery, retry or replay that takes effect finds the job without
      a live execution, and leaves it so. */
  lemma ForcedRequeuesAreHarmless(s: State, step: Step, job: JobId)
    requires DisciplinedReachable(s) && DisciplinedStep(s, step) && job in s.jobs && EventAt(step, job).Some?
    requires var e := EventAt(step, job).value;
             CanOccur(s.jobs[job], s.now, e) && (e.Recover? || e.Retry? || e.Replay?)
    ensures s.jobs[job].Live() == {}
    ensures var c := Apply(s, step).jobs[job]; c.Live() == {} && c.row.status.Queued? && c.row.claimedBy.None?
  {
    ReachableIsDisciplined(s);
    ForcedRequeueFindsNoTask(s.jobs[job], s.now, EventAt(step, job).value);
  }

  // ---- the status machine

  predicate IntendedEdge(from: JobStatus, to: JobStatus, e: Event) {
    match e
    case Claim(_, _) => from.Queued? && to.Claimed?
    case Start(_) => from.Claimed? && to.Running?
    case Succeed(_) => from.Running? && to.Completed?
    case Fail(_, _) => from.Running? && (to.RetryScheduled? || to.Dead?)
    case Requeue => from.RetryScheduled? && to.Queued?
    case Recover(_) => from.IsHeld() && to.Queued?
    case Cancel => from.IsWaiting() && to.Cancelled?
    case Retry => from.Dead? && to.Queued?
    case Replay => from.Dead? && to.Queued?
    case _ => false
  }

  lemma EventFollowsEdge(c: Cell, now: Time, e: Event)
    requires Exclusive(c) && FieldsAgree(c) && DisciplinedEvent(c, now, e)
    ensures var r, r' := c.row, Effect(c, now, e).row; r' == r || IntendedEdge(r.status, r'.status, e)
  {
    ReporterIsLive(c, now, e);
  }

  /** Disciplined runs: a step rewrites a job's row only along the edge meant for it;
      so Completed and Cancelled have no way out and Dead only the operators'. */
  lemma OnlyIntendedEdges(s: State, step: Step, job: JobId)
    requires DisciplinedReachable(s) && DisciplinedStep(s, step) && job in s.jobs
    ensures var r, r' := s.jobs[job].row, Apply(s, step).jobs[job].row;
            r' == r || (EventAt(step, job).Some? && IntendedEdge(r.status, r'.status, EventAt(step, job).value))
  {
    ReachableIsDisciplined(s);
    if EventAt(step, job).Some? {
      EventFollowsEdge(s.jobs[job], s.now, EventAt(step, job).value);
    }
  }

  lemma {:induction false} IdleFinishedIsFrozen(s: State, steps: seq<Step>, job: JobId)
    requires job in s.jobs && DisciplinedRun(s, steps)
    requires s.jobs[job].row.status.Completed? || s.jobs[job].row.status.Cancelled?
    requires s.jobs[job].Live() == {}
    ensures job in After(s, steps).jobs
    ensures var c, c' := s.jobs[job], After(s, steps).jobs[job];
            c'.row == c.row && c'.starts == c.starts && c'.Live() == {}
    decreases |steps|
  {
    if steps != [] {
      var e := EventAt(steps[0], job);
      if e.Some? && CanOccur(s.jobs[job], s.now, e.value) {
        TasksMove(s.jobs[job], s.now, e.value);
        ReporterIsLive(s.jobs[job], s.now, e.value);
      }
      IdleFinishedIsFrozen(Apply(s, steps[0]), steps[1..], job);
    }
  }

  /** Disciplined runs: a completed or cancelled job keeps its whole row forever, and no
      execution of it is live or ever starts again. */
  lemma FinishedStaysFinished(s: State, steps: seq<Step>, job: JobId)
    requires DisciplinedReachable(s) && DisciplinedRun(s, steps) && job in s.jobs
    requires s.jobs[job].row.status.Completed? || s.jobs[job].row.status.Cancelled?
    ensures job in After(s, steps).jobs
    ensures var c, c' := s.jobs[job], After(s, steps).jobs[job];
            c'.row == c.row && c'.starts == c.starts && c'.Live() == {}
  {
    ReachableIsDisciplined(s);
    var c := s.jobs[job];
    IdleFinishedIsFrozen(s, steps, job);
  }

  /** Disciplined runs: once a cancel has reported success, the job stays cancelled and
      never runs, whatever follows. */
  lemma CancelIsFinal(s: State, steps: seq<Step>, job: JobId)
    requires DisciplinedReachable(s) && job in s.jobs && Cancellable(s.jobs[job].row)
    requires DisciplinedRun(Apply(s, On(job, Cancel)), steps)
    ensures job in After(Apply(s, On(job, Cancel)), steps).jobs
    ensures var c := After(Apply(s, On(job, Cancel)), steps).jobs[job];
            c.row.status.Cancelled? && c.Live() == {} && c.starts == s.jobs[job].starts
  {
    var start, before :| DisciplinedRun(Empty(start), before) && s == After(Empty(start), before);
    assert DisciplinedStep(s, On(job, Cancel));
    DisciplinedSnoc(Empty(start), before, On(job, Cancel));
    FinishedStaysFinished(Apply(s, On(job, Cancel)), steps, job);
  }

  lemma {:induction false} DisciplinedSnoc(s: State, steps: seq<Step>, step: Step)
    requires DisciplinedRun(s, steps) && DisciplinedStep(After(s, steps), step)
    ensures DisciplinedRun(s, steps + [step])
    ensures After(s, steps + [step]) == Apply(After(s, steps), step)
    decreases |steps|
  {
    if steps == [] {
      assert After(Apply(s, step), []) == Apply(s, step);
      assert (steps + [step])[1..] == [];
    } else {
      assert (steps + [step])[0] == steps[0] && (steps + [step])[1..] == steps[1..] + [step];
      DisciplinedSnoc(Apply(s, steps[0]), steps[1..], step);
    }
  }

  // ---- how far a terminal status can be trusted without the discipline

  /** No operator re-queues the job during the run. */
  ghost predicate OperatorFree(steps: seq<Step>, job: JobId) {
    forall k :: 0 <= k < |steps| ==> EventAt(steps[k], job) !in {Some(Retry), Some(Replay)}
  }

  lemma {:induction false} IdleStaysSettled(s: State, steps: seq<Step>, job: JobId)
    requires job in s.jobs && s.jobs[job].row.status.IsTerminal() && s.jobs[job].Live() == {}
    requires OperatorFree(steps, job)
    ensures job in After(s, steps).jobs && After(s, steps).jobs[job].row == s.jobs[job].row
    decreases |steps|
  {
    if steps != [] {
      var e := EventAt(steps[0], job);
      if e.Some? && CanOccur(s.jobs[job], s.now, e.value) {
        TasksMove(s.jobs[job], s.now, e.value);
        ReporterIsLive(s.jobs[job], s.now, e.value);
      }
      IdleStaysSettled(Apply(s, steps[0]), steps[1..], job);
    }
  }

  /** Open runs: a terminal row is settled - nothing but an operator's re-queue ever
      rewrites it - exactly when no execution of the job is still live. */
  lemma SettledExactlyWhenIdle(s: State, job: JobId)
    requires job in s.jobs && s.jobs[job].row.status.IsTerminal()
    ensures s.jobs[job].Live() == {} <==>
              forall steps :: OperatorFree(steps, job) ==>
                job in After(s, steps).jobs && After(s, steps).jobs[job].row == s.jobs[job].row
  {
    var c := s.jobs[job];
    if i :| i in c.Live() {
      var late := if c.tasks[i].phase.Waiting? then On(job, Start(i)) else On(job, Succeed(i));
      assert After(s, [late]) == Apply(s, late);
      assert OperatorFree([late], job);
    } else {
      forall steps | OperatorFree(steps, job)
        ensures job in After(s, steps).jobs && After(s, steps).jobs[job].row == s.jobs[job].row
      {
        IdleStaysSettled(s, steps, job);
      }
    }
  }

  // ---- the dead-letter queue

  /** Disciplined runs: a job has one dead-letter entry for each time an operator brought
      it back, and one more while it is dead. */
  lemma DeadLettersAreCounted(s: State, job: JobId)
    requires DisciplinedReachable(s) && job in s.jobs
    ensures var c := s.jobs[job]; |c.dead| == c.requeued + (if c.row.status.Dead? then 1 else 0)
  {
    ReachableIsDisciplined(s);
  }
}
