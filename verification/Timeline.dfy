/** The back-off timeline: how claims, starts, failures and re-queues together space out
    the attempts of a job. Runs are open, except that clocks do not go backwards. */
module Timeline {
  import opened Types
  import opened Retry
  import opened Lifecycle
  import opened Protocol
  import opened OpenRuns

  /** When the job may start next, counting from its latest start. */
  predicate BackedOff(c: Cell, t: Time) {
    c.starts != [] ==>
      c.policy.Some? && t >= c.starts[|c.starts| - 1] + Delay(c.policy.value, |c.starts|)
  }

  /** Start number k came at least its full delay after the one before. */
  predicate DelayedAt(c: Cell, k: nat)
    requires 0 < k < |c.starts|
  {
    c.policy.Some? && c.starts[k] >= c.starts[k - 1] + Delay(c.policy.value, k)
  }

  predicate Spaced(c: Cell) {
    && (c.starts != [] ==> c.starts[0] >= c.row.createdAt)
    && (forall k: nat :: 0 < k < |c.starts| ==> DelayedAt(c, k))
  }

  predicate Paced(c: Cell, now: Time) {
    && c.row.createdAt <= now
    && Spaced(c)
    && (c.starts != [] ==> c.starts[|c.starts| - 1] <= now)
    && (c.row.status.RetryScheduled? && c.row.nextRetryAt.Some? ==> BackedOff(c, c.row.nextRetryAt.value))
    && (c.row.status.Queued? || c.row.status.Claimed? ==> BackedOff(c, now))
    && (c.row.status.Completed? && c.starts != [] && c.row.completedAt.Some? ==>
          c.starts[|c.starts| - 1] <= c.row.completedAt.value <= now)
  }

  ghost predicate TimelineInv(s: State) {
    OpenInv(s) && forall j :: j in s.jobs && Undisturbed(s.jobs[j]) ==> Paced(s.jobs[j], s.now)
  }

  lemma EventKeepsPace(c: Cell, now: Time, e: Event)
    requires CellOpen(c) && (Undisturbed(c) ==> Paced(c, now))
    requires Undisturbed(Effect(c, now, e))
    ensures Paced(Effect(c, now, e), now)
  {
    if CanOccur(c, now, e) {
      var c' := Effect(c, now, e);
      ReporterIsLive(c, now, e);
      forall k: nat | 0 < k < |c'.starts| ensures DelayedAt(c', k) {
        assert k < |c.starts| ==> DelayedAt(c, k);
      }
    }
  }

  lemma TimePassesKeepsPace(c: Cell, now: Time, later: Time)
    requires Paced(c, now) && now <= later
    ensures Paced(c, later)
  {
  }

  lemma FreshIsPaced(row: Job, policy: Option<RetryPolicy>)
    requires IsNew(row)
    ensures Paced(FreshCell(row, policy), row.createdAt)
  {
  }

  lemma StepKeepsPace(s: State, step: Step)
    requires TimelineInv(s) && ForwardStep(s, step)
    ensures TimelineInv(Apply(s, step))
  {
    StepKeepsOpen(s, step);
    var s' := Apply(s, step);
    forall j | j in s'.jobs && Undisturbed(s'.jobs[j]) ensures Paced(s'.jobs[j], s'.now) {
      if j !in s.jobs {
        FreshIsPaced(s'.jobs[j].row, step.policy);
      } else if EventAt(step, j).Some? {
        EventKeepsPace(s.jobs[j], s.now, EventAt(step, j).value);
      } else {
        TimePassesKeepsPace(s.jobs[j], s.now, s'.now);
      }
    }
  }

  lemma {:induction false} RunKeepsPace(s: State, steps: seq<Step>)
    requires TimelineInv(s) && ForwardRun(s, steps)
    ensures TimelineInv(After(s, steps))
    decreases |steps|
  {
    if steps != [] {
      StepKeepsPace(s, steps[0]);
      RunKeepsPace(Apply(s, steps[0]), steps[1..]);
    }
  }

  lemma {:induction false} GapsAddUp(c: Cell, n: nat)
    requires Spaced(c) && n < |c.starts|
    ensures n > 0 ==> c.policy.Some?
    ensures c.starts[n] >= c.row.createdAt + (if c.policy.Some? then BackoffSum(c.policy.value, n) else 0.0)
  {
    if n > 0 {
      assert DelayedAt(c, n);
      GapsAddUp(c, n - 1);
    }
  }

  /** Forward runs: unless something re-queued the job by force, its start number n
      (counting from 0) happens no earlier than its creation plus the delays after the
      first n failures; and every start keeps its full delay from the one before. */
  lemma StartsRespectBackoff(s: State, job: JobId, n: nat)
    requires ForwardReachable(s) && job in s.jobs && Undisturbed(s.jobs[job]) && n < |s.jobs[job].starts|
    ensures var c := s.jobs[job];
            && |c.starts| == c.row.attempts
            && (c.policy.Some? ==> c.starts[n] >= c.row.createdAt + BackoffSum(c.policy.value, n))
            && (n > 0 ==> DelayedAt(c, n))
            && (c.policy.None? ==> n == 0 && c.starts[0] >= c.row.createdAt)
  {
    var start, steps :| ForwardRun(Empty(start), steps) && s == After(Empty(start), steps);
    RunKeepsPace(Empty(start), steps);
    assert n > 0 ==> DelayedAt(s.jobs[job], n);
    GapsAddUp(s.jobs[job], n);
  }

  /** The same in closed form, while the cap has not been reached: base*n for fixed,
      base*n*(n+1)/2 for linear and base*(2^n - 1) for exponential back-off. */
  lemma UncappedStarts(s: State, job: JobId, n: nat)
    requires ForwardReachable(s) && job in s.jobs && Undisturbed(s.jobs[job]) && n < |s.jobs[job].starts|
    requires var p := s.jobs[job].policy;
             p.Some? && RawDelay(p.value.strategy, n, p.value.baseDelay) <= p.value.maxDelay as real
    ensures var c := s.jobs[job]; var p := c.policy.value;
            c.starts[n] >= c.row.createdAt + ClosedForm(p.strategy, n, p.baseDelay as real)
  {
    StartsRespectBackoff(s, job, n);
    BackoffClosedForm(s.jobs[job].policy.value, n);
  }

  /** Forward runs: the completion time of an undisturbed job lies between its latest start
      and now, and that start is the one its row records. */
  lemma CompletionFollowsStart(s: State, job: JobId)
    requires ForwardReachable(s) && job in s.jobs && Undisturbed(s.jobs[job]) && s.jobs[job].row.status.Completed?
    ensures var r := s.jobs[job].row;
            && r.startedAt.Some? && r.completedAt.Some?
            && r.createdAt <= r.startedAt.value <= r.completedAt.value <= s.now
  {
    var start, steps :| ForwardRun(Empty(start), steps) && s == After(Empty(start), steps);
    RunKeepsPace(Empty(start), steps);
    var c := s.jobs[job];
    assert c.starts != [];
    StartsRespectBackoff(s, job, |c.starts| - 1);
    GapsAreNonnegative(c, |c.starts| - 1);
  }

  lemma {:induction false} GapsAreNonnegative(c: Cell, n: nat)
    requires Spaced(c) && n < |c.starts|
    ensures c.row.createdAt <= c.starts[n]
  {
    if n > 0 {
      GapsAreNonnegative(c, n - 1);
      assert DelayedAt(c, n);
      DelayMonotoneAndBounded(c.policy.value, n, n);
    }
  }
}
