/** When can one job run twice at once? The boundary of mutual exclusion, stated over runs:
    what a recovery, a manual retry or a replay must find for the rest of the run to keep
    every job to one execution. */
module Overlap {
  import opened Types
  import opened Lifecycle
  import opened Protocol
  import opened OpenRuns

  ghost predicate AllExclusive(s: State) {
    forall j :: j in s.jobs ==> Exclusive(s.jobs[j])
  }

  predicate IsForced(e: Event) {
    e.Recover? || e.Retry? || e.Replay?
  }

  /** The step re-queues the job by force, and takes effect. */
  predicate ForcesAt(s: State, step: Step, job: JobId) {
    job in s.jobs && EventAt(step, job).Some? && IsForced(EventAt(step, job).value)
    && CanOccur(s.jobs[job], s.now, EventAt(step, job).value)
  }

  ghost predicate ForcesOnlyIdle(s: State, step: Step) {
    forall j :: ForcesAt(s, step, j) ==> s.jobs[j].Live() == {}
  }

  // ---- one step

  lemma EventBoundary(c: Cell, now: Time, e: Event)
    requires Exclusive(c) && CanOccur(c, now, e)
    ensures Exclusive(Effect(c, now, e)) <==> (IsForced(e) ==> c.Live() == {})
  {
    TasksMove(c, now, e);
    var c' := Effect(c, now, e);
    if IsForced(e) && c.Live() != {} {
      var i :| i in c.Live();
      assert i in c'.Live() && c'.row.status.Queued?;
    } else {
      ExclusionKept(c, now, e);
    }
  }

  lemma StepBoundary(s: State, step: Step)
    requires AllExclusive(s)
    ensures AllExclusive(Apply(s, step)) <==> ForcesOnlyIdle(s, step)
  {
    var s' := Apply(s, step);
    forall j | j in s'.jobs
      ensures Exclusive(s'.jobs[j]) <==> (ForcesAt(s, step, j) ==> s.jobs[j].Live() == {})
    {
      if j !in s.jobs {
        assert s'.jobs[j].Live() == {};
      } else if EventAt(step, j).Some? && CanOccur(s.jobs[j], s.now, EventAt(step, j).value) {
        EventBoundary(s.jobs[j], s.now, EventAt(step, j).value);
      }
    }
    assert forall j :: ForcesAt(s, step, j) ==> j in s'.jobs;
  }

  // ---- whole runs

  ghost predicate ExclusiveThroughout(s: State, steps: seq<Step>)
    decreases |steps|
  {
    AllExclusive(s) && (steps != [] ==> ExclusiveThroughout(Apply(s, steps[0]), steps[1..]))
  }

  ghost predicate AlwaysForcesOnlyIdle(s: State, steps: seq<Step>)
    decreases |steps|
  {
    steps != [] ==> ForcesOnlyIdle(s, steps[0]) && AlwaysForcesOnlyIdle(Apply(s, steps[0]), steps[1..])
  }

  /** A run keeps every job to one execution, the one its row names, from beginning to end
      if and only if every recovery, retry and replay that takes effect finds its job idle. */
  lemma {:induction false} ExclusiveExactlyWhenForcesFindIdle(s: State, steps: seq<Step>)
    requires AllExclusive(s)
    ensures ExclusiveThroughout(s, steps) <==> AlwaysForcesOnlyIdle(s, steps)
    decreases |steps|
  {
    if steps != [] {
      StepBoundary(s, steps[0]);
      if ForcesOnlyIdle(s, steps[0]) {
        ExclusiveExactlyWhenForcesFindIdle(Apply(s, steps[0]), steps[1..]);
      }
    }
  }

  // ---- what can happen afterwards

  /** Two workers are executing one job. */
  ghost predicate RunsTwice(s: State) {
    exists j, i, k :: j in s.jobs && i != k && s.jobs[j].InPhase(i, Executing) && s.jobs[j].InPhase(k, Executing)
  }

  ghost predicate Unforced(steps: seq<Step>) {
    forall n, j :: 0 <= n < |steps| && EventAt(steps[n], j).Some? ==> !IsForced(EventAt(steps[n], j).value)
  }

  /** Claims, starts, outcomes and the rest of the system alone can make a job run twice. */
  ghost predicate CanRunTwice(s: State) {
    exists steps :: Unforced(steps) && RunsTwice(After(s, steps))
  }

  lemma ExclusiveRunsOnce(s: State)
    requires AllExclusive(s)
    ensures !RunsTwice(s)
  {
    forall j, i, k | j in s.jobs && s.jobs[j].InPhase(i, Executing) && s.jobs[j].InPhase(k, Executing) ensures i == k {
      assert i in s.jobs[j].Live() && k in s.jobs[j].Live();
    }
  }

  lemma {:induction false} UnforcedKeepsExclusive(s: State, steps: seq<Step>)
    requires AllExclusive(s) && Unforced(steps)
    ensures AllExclusive(After(s, steps))
    decreases |steps|
  {
    if steps != [] {
      forall j ensures !ForcesAt(s, steps[0], j) {
        assert EventAt(steps[0], j).Some? ==> !IsForced(EventAt(steps[0], j).value);
      }
      StepBoundary(s, steps[0]);
      forall n, j | 0 <= n < |steps[1..]| && EventAt(steps[1..][n], j).Some?
        ensures !IsForced(EventAt(steps[1..][n], j).value)
      {
        assert steps[1..][n] == steps[n + 1];
      }
      UnforcedKeepsExclusive(Apply(s, steps[0]), steps[1..]);
    }
  }

  lemma Duplicate(s: State, job: JobId, i: nat) returns (steps: seq<Step>)
    requires job in s.jobs && s.jobs[job].row.status.Queued? && i in s.jobs[job].Live()
    ensures Unforced(steps) && RunsTwice(After(s, steps))
  {
    var k := |s.jobs[job].tasks|;
    var claim, first, second := ClaimBatch(0, {job}, s.now), On(job, Start(i)), On(job, Start(k));
    var s1 := Apply(s, claim);
    var s2 := Apply(s1, first);
    var s3 := Apply(s2, second);
    assert s1.jobs[job].tasks == s.jobs[job].tasks + [Task(0, s.now, Waiting)];
    assert s2.jobs[job].InPhase(i, Executing) && s2.jobs[job].InPhase(k, Waiting);
    assert s3.jobs[job].InPhase(i, Executing) && s3.jobs[job].InPhase(k, Executing);
    steps := [claim] + ([first] + [second]);
    AfterConcat(s, [claim], [first] + [second]);
    AfterConcat(s1, [first], [second]);
    OneStep(s, claim);
    OneStep(s1, first);
    OneStep(s2, second);
  }

  lemma OneStep(s: State, step: Step)
    ensures After(s, [step]) == Apply(s, step)
  {
    assert [step][1..] == [];
    assert After(Apply(s, step), []) == Apply(s, step);
  }

  lemma TwiceExactlyWhenForcedBusy(s: State, step: Step)
    requires AllExclusive(s)
    ensures CanRunTwice(Apply(s, step)) <==> exists j :: ForcesAt(s, step, j) && s.jobs[j].Live() != {}
  {
    var s' := Apply(s, step);
    if job :| ForcesAt(s, step, job) && s.jobs[job].Live() != {} {
      var e := EventAt(step, job).value;
      TasksMove(s.jobs[job], s.now, e);
      var i :| i in s.jobs[job].Live();
      var steps := Duplicate(s', job, i);
      assert RunsTwice(After(s', steps));
    } else {
      StepBoundary(s, step);
      forall steps | Unforced(steps) ensures !RunsTwice(After(s', steps)) {
        UnforcedKeepsExclusive(s', steps);
        ExclusiveRunsOnce(After(s', steps));
      }
    }
  }

  lemma StaleIsEarlyClaim(c: Cell, cutoff: Time)
    requires Exclusive(c)
    ensures Stale(c.row, cutoff) && c.Live() != {} <==> exists i :: i in c.Live() && c.tasks[i].claimedAt < cutoff
  {
    if i :| i in c.Live() {
      assert Owns(c.tasks[i], c.row);
    }
  }

  /** A recovery pass makes it possible that some job runs twice - without any further
      recovery or operator - if and only if it meets a live execution that was claimed
      longer ago than the timeout. */
  lemma RecoveryDuplicatesExactlyWhenEarly(s: State, timeout: Time)
    requires AllExclusive(s)
    ensures CanRunTwice(Apply(s, RecoverAll(timeout))) <==>
              exists j, i :: j in s.jobs && i in s.jobs[j].Live() && s.jobs[j].tasks[i].claimedAt < s.now - timeout
  {
    TwiceExactlyWhenForcedBusy(s, RecoverAll(timeout));
    forall j | j in s.jobs
      ensures ForcesAt(s, RecoverAll(timeout), j) && s.jobs[j].Live() != {} <==>
                exists i :: i in s.jobs[j].Live() && s.jobs[j].tasks[i].claimedAt < s.now - timeout
    {
      StaleIsEarlyClaim(s.jobs[j], s.now - timeout);
    }
  }

  /** An operator's retry, or replay of a dead-letter entry, makes it possible if and only
      if the job still has a live execution. */
  lemma OperatorDuplicatesExactlyWhenBusy(s: State, job: JobId, e: Event)
    requires AllExclusive(s) && job in s.jobs && (e.Retry? || (e.Replay? && s.jobs[job].dead != []))
    ensures CanRunTwice(Apply(s, On(job, e))) <==> s.jobs[job].Live() != {}
  {
    TwiceExactlyWhenForcedBusy(s, On(job, e));
    assert ForcesAt(s, On(job, e), job);
  }
}
