/** How many executions a job that keeps failing gets: the attempt limit is not only an
    upper bound, it is used up exactly, and an operator's retry and replay differ in what
    they add to it. */
module Attempts {
  import opened Types
  import opened Retry
  import opened Lifecycle
  import opened Protocol

  /** A failing pass through the system: claimed, started, failed, and considered by the
      scheduler again. */
  datatype Round = Round(worker: WorkerId, claimedAt: Time, startedAt: Time, failedAt: Time, error: string,
                         requeuedAt: Time)

  function AfterRound(c: Cell, r: Round): Cell {
    var task := |c.tasks|;
    var claimed := Effect(c, r.claimedAt, Claim(r.worker, r.claimedAt));
    var started := Effect(claimed, r.startedAt, Start(task));
    var failed := Effect(started, r.failedAt, Fail(task, r.error));
    Effect(failed, r.requeuedAt, Requeue)
  }

  function AfterRounds(c: Cell, rounds: seq<Round>): Cell {
    if rounds == [] then c else AfterRound(AfterRounds(c, rounds[..|rounds| - 1]), rounds[|rounds| - 1])
  }

  /** The scheduler comes back no earlier than the delay of the attempt that failed. */
  predicate Patient(c: Cell, rounds: seq<Round>) {
    c.policy.Some? ==> forall k :: 0 <= k < |rounds| ==> PatientRound(c, rounds, k)
  }

  predicate PatientRound(c: Cell, rounds: seq<Round>, k: nat)
    requires c.policy.Some? && k < |rounds|
  {
    rounds[k].requeuedAt >= rounds[k].failedAt + Delay(c.policy.value, c.row.attempts + k + 1)
  }

  /** The executions a queued job has left. */
  function TriesLeft(c: Cell): int {
    if c.policy.None? then 1 else Max(1, c.row.maxAttempts - c.row.attempts)
  }

  /** A failure with attempts and a policy left comes due exactly its delay later; any
      other is final and leaves a copy of the job. */
  lemma FailureDecides(c: Cell, now: Time, i: nat, error: string)
    requires CanOccur(c, now, Fail(i, error))
    ensures var c' := Effect(c, now, Fail(i, error));
            if c.policy.Some? && c.row.attempts < c.row.maxAttempts
            then
              && c'.dead == c.dead
              && forall t :: RetryDue(c'.row, t) <==> t >= now + Delay(c.policy.value, c.row.attempts)
            else
              && c'.row.status.Dead? && |c'.dead| == |c.dead| + 1 && c'.dead[..|c.dead|] == c.dead
              && var copy := c'.dead[|c.dead|];
              && copy.name == c.row.name && copy.queue == c.row.queue && copy.payload == c.row.payload
              && copy.lastError == error && copy.attempts == c.row.attempts
  {
  }

  /** What n failed rounds make of a queued job. */
  predicate FailedTimes(c: Cell, c': Cell, n: nat) {
    && c'.policy == c.policy && c'.row.maxAttempts == c.row.maxAttempts
    && c'.row.attempts == c.row.attempts + n && |c'.starts| == |c.starts| + n
    && (if n < TriesLeft(c)
        then c'.row.status.Queued? && c'.dead == c.dead
        else c'.row.status.Dead? && |c'.dead| == |c.dead| + 1)
  }

  lemma OneRound(c: Cell, r: Round)
    requires c.row.status.Queued?
    requires c.policy.Some? ==> r.requeuedAt >= r.failedAt + Delay(c.policy.value, c.row.attempts + 1)
    ensures FailedTimes(c, AfterRound(c, r), 1)
  {
    var task := |c.tasks|;
    var claimed := Effect(c, r.claimedAt, Claim(r.worker, r.claimedAt));
    var started := Effect(claimed, r.startedAt, Start(task));
    assert claimed.InPhase(task, Waiting) && started.InPhase(task, Executing);
    FailureDecides(started, r.failedAt, task, r.error);
  }

  lemma OneMoreTime(c: Cell, c1: Cell, c2: Cell, n: nat)
    requires FailedTimes(c, c1, n) && n < TriesLeft(c) && FailedTimes(c1, c2, 1)
    ensures FailedTimes(c, c2, n + 1)
  {
  }

  lemma {:induction false} FailsUntilSpent(c: Cell, rounds: seq<Round>)
    requires c.row.status.Queued? && Patient(c, rounds) && |rounds| <= TriesLeft(c)
    ensures FailedTimes(c, AfterRounds(c, rounds), |rounds|)
    decreases |rounds|
  {
    if rounds != [] {
      var n := |rounds| - 1;
      PatientBefore(c, rounds, n);
      FailsUntilSpent(c, rounds[..n]);
      var before := AfterRounds(c, rounds[..n]);
      assert c.policy.Some? ==> PatientRound(c, rounds, n);
      OneRound(before, rounds[n]);
      OneMoreTime(c, before, AfterRound(before, rounds[n]), n);
    }
  }

  lemma PatientBefore(c: Cell, rounds: seq<Round>, n: nat)
    requires Patient(c, rounds) && n <= |rounds|
    ensures Patient(c, rounds[..n])
  {
    forall k | c.policy.Some? && 0 <= k < n ensures PatientRound(c, rounds[..n], k) {
      assert PatientRound(c, rounds, k);
    }
  }

  /** A queued job whose executions all fail is dead after exactly the tries it has left,
      no sooner and no later: one without a retry policy, otherwise what the attempt limit
      leaves, and never less than one. */
  lemma DeadAfterExactlyTheTriesLeft(c: Cell, rounds: seq<Round>)
    requires c.row.status.Queued? && Patient(c, rounds) && |rounds| <= TriesLeft(c)
    ensures AfterRounds(c, rounds).row.status.Dead? <==> |rounds| == TriesLeft(c)
    ensures |AfterRounds(c, rounds).starts| == |c.starts| + |rounds|
    ensures |AfterRounds(c, rounds).dead| == |c.dead| + (if |rounds| == TriesLeft(c) then 1 else 0)
  {
    FailsUntilSpent(c, rounds);
  }

  /** A job that died by exhausting its attempts: a manual retry allows one more execution,
      a replay the whole limit again. */
  lemma RetryAddsOneTryReplayAddsAll(c: Cell, now: Time, retried: seq<Round>, replayed: seq<Round>)
    requires c.row.status.Dead? && c.dead != [] && c.policy.Some? && c.row.attempts >= c.row.maxAttempts
    requires |retried| == 1 && Patient(Effect(c, now, Retry), retried)
    requires |replayed| == Max(1, c.row.maxAttempts) && Patient(Effect(c, now, Replay), replayed)
    ensures AfterRounds(Effect(c, now, Retry), retried).row.status.Dead?
    ensures AfterRounds(Effect(c, now, Replay), replayed).row.status.Dead?
    ensures forall n: nat :: n < |replayed| ==> AfterRounds(Effect(c, now, Replay), replayed[..n]).row.status.Queued?
  {
    var afterRetry, afterReplay := Effect(c, now, Retry), Effect(c, now, Replay);
    FailsUntilSpent(afterRetry, retried);
    FailsUntilSpent(afterReplay, replayed);
    forall n: nat | n < |replayed| ensures AfterRounds(afterReplay, replayed[..n]).row.status.Queued? {
      PatientBefore(afterReplay, replayed, n);
      FailsUntilSpent(afterReplay, replayed[..n]);
    }
  }

  // ---- what counts as an attempt

  /** Only a start uses an attempt up and only a replay forgets any: claims, failures,
      re-queueing, recovery, cancellation and a manual retry leave the count alone. */
  lemma EventMovesAttempts(c: Cell, now: Time, e: Event)
    ensures var was, after := c.row.attempts, Effect(c, now, e).row.attempts;
            after == if !CanOccur(c, now, e) then was else if e.Start? then was + 1 else if e.Replay? then 0 else was
  {
  }

  ghost predicate ReplayFree(steps: seq<Step>, job: JobId) {
    forall k :: 0 <= k < |steps| ==> EventAt(steps[k], job) != Some(Replay)
  }

  /** Open runs: between replays the attempt count rises by exactly the executions started;
      so a job that keeps killing its worker uses up its limit through every recovery. */
  lemma {:induction false} AttemptsCountStarts(s: State, steps: seq<Step>, job: JobId)
    requires job in s.jobs && ReplayFree(steps, job)
    ensures job in After(s, steps).jobs
    ensures var c, c' := s.jobs[job], After(s, steps).jobs[job];
            c'.row.attempts - c.row.attempts == |c'.starts| - |c.starts|
    decreases |steps|
  {
    if steps != [] {
      var e := EventAt(steps[0], job);
      if e.Some? {
        EventMovesAttempts(s.jobs[job], s.now, e.value);
      }
      assert ReplayFree(steps[1..], job) by {
        forall k | 0 <= k < |steps| - 1 ensures EventAt(steps[1..][k], job) != Some(Replay) {
          assert steps[1..][k] == steps[k + 1];
        }
      }
      AttemptsCountStarts(Apply(s, steps[0]), steps[1..], job);
    }
  }
}
