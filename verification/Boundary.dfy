/** Concrete runs at the edge of the guarantees: what goes wrong, and can only go wrong,
    once the discipline or the absence of rollbacks is given up. */
module Boundary {
  import opened Types
  import opened Lifecycle
  import opened Protocol
  import opened Claiming
  import opened OpenRuns
  import opened Progress
  import opened Queues
  import opened PhasedClaims

  const NEW_JOB := Create(0, "job", 0, "", 0, 3, None)

  /** One job, claimed by worker 1 at time 0 and recovered at time 100 while its
      execution, still live, has not started. */
  lemma RecoveredTooSoon() returns (s: State)
    ensures Reachable(s) && s.now == 100.0 && s.jobs.Keys == {0}
    ensures s.jobs[0].row.status.Queued? && s.jobs[0].row.claimedAt.None? && s.jobs[0].row.queue == 0
    ensures s.jobs[0].tasks == [Task(1, 0.0, Waiting)] && s.jobs[0].recovered == 1
  {
    var s1 := Apply(Empty(0.0), NEW_JOB);
    var s2 := Apply(s1, ClaimBatch(1, {0}, 0.0));
    var s3 := Apply(s2, SetClock(100.0));
    s := Apply(s3, RecoverAll(90.0));
    ReachableAfter4(Empty(0.0), NEW_JOB, ClaimBatch(1, {0}, 0.0), SetClock(100.0), RecoverAll(90.0));
  }

  lemma ReachableStep(s: State, step: Step)
    requires Reachable(s)
    ensures Reachable(Apply(s, step))
  {
    ReachableAfter(s, [step]);
    assert After(s, [step]) == Apply(s, step);
  }

  lemma ReachableAfter4(s: State, a: Step, b: Step, c: Step, d: Step)
    requires s == Empty(s.now)
    ensures Reachable(Apply(Apply(Apply(Apply(s, a), b), c), d))
  {
    assert After(Empty(s.now), []) == s;
    ReachableStep(s, a);
    ReachableStep(Apply(s, a), b);
    ReachableStep(Apply(Apply(s, a), b), c);
    ReachableStep(Apply(Apply(Apply(s, a), b), c), d);
  }

  /** Recovery before the execution is over lets two workers run one job at once. */
  lemma EarlyRecoveryDuplicates() returns (s: State)
    ensures Reachable(s) && 0 in s.jobs
    ensures var c := s.jobs[0];
            && |c.tasks| == 2 && c.tasks[0].worker != c.tasks[1].worker
            && c.tasks[0].phase == Executing && c.tasks[1].phase == Executing
  {
    var s0 := RecoveredTooSoon();
    var s1 := Apply(s0, ClaimBatch(2, {0}, 100.0));
    var s2 := Apply(s1, On(0, Start(0)));
    s := Apply(s2, On(0, Start(1)));
    ReachableStep(s0, ClaimBatch(2, {0}, 100.0));
    ReachableStep(s1, On(0, Start(0)));
    ReachableStep(s2, On(0, Start(1)));
  }

  /** Then, too, a job whose cancellation was confirmed may still complete. */
  lemma CancelledJobCompletes() returns (s: State, s': State)
    ensures Reachable(s) && 0 in s.jobs && Cancellable(s.jobs[0].row)
    ensures s' == After(s, [On(0, Cancel)] + [On(0, Start(0))] + [On(0, Succeed(0))])
    ensures Apply(s, On(0, Cancel)).jobs[0].row.status.Cancelled?
    ensures 0 in s'.jobs && s'.jobs[0].row.status.Completed?
  {
    s := RecoveredTooSoon();
    var s1 := Apply(s, On(0, Cancel));
    var s2 := Apply(s1, On(0, Start(0)));
    s' := Apply(s2, On(0, Succeed(0)));
    AfterConcat(s, [On(0, Cancel)], [On(0, Start(0))]);
    AfterConcat(s, [On(0, Cancel)] + [On(0, Start(0))], [On(0, Succeed(0))]);
    assert After(s, [On(0, Cancel)]) == s1;
    assert After(s1, [On(0, Start(0))]) == s2;
    assert After(s2, [On(0, Succeed(0))]) == s';
  }

  /** And a late start followed by a crash leaves a running row that recovery can never
      see again, because its claim time is gone. */
  lemma LateStartWedges() returns (s: State)
    ensures Reachable(s) && s.jobs.Keys == {0} && Wedged(s.jobs[0]) && s.jobs[0].row.queue == 0
  {
    var s0 := RecoveredTooSoon();
    var s1 := Apply(s0, On(0, Start(0)));
    s := Apply(s1, CrashWorker(1));
    ReachableStep(s0, On(0, Start(0)));
    ReachableStep(s1, CrashWorker(1));
    assert s.jobs[0].tasks == [Task(1, 0.0, Gone)];
  }

  /** The wedged row counts as running for ever: in a queue that runs one job at a time, a
      new job that nothing has ever disturbed cannot finish without an operator. */
  lemma WedgedRowStarvesItsQueue(timeout: Time) returns (env: Setting, s: State)
    ensures env.timeout == timeout && env.queues == map[0 := Queue(0, 0, 0, 1, false, None)]
    ensures Reachable(s) && s.jobs.Keys == {0, 1}
    ensures s.jobs[1].row.status.Queued? && Undisturbed(s.jobs[1]) && !CanFinish(env, s, 1)
  {
    env := Setting(map[0 := Queue(0, 0, 0, 1, false, None)], timeout);
    var s0 := LateStartWedges();
    var create := Create(1, "next", 0, "", 0, 3, None);
    s := Apply(s0, create);
    ReachableStep(s0, create);
    assert s.jobs[0] == s0.jobs[0];
    assert WedgedIds(s, 0) == {0};
    assert s.jobs[1].Live() == {};
    FinishesExactlyUnlessStuck(env, s, 1);
  }

  /** Two queued jobs of one queue, the first of higher priority. */
  function Rivals(): State {
    State(0.0, map[
      0 := FreshCell(EnqueuedRow("better", 0, "", 5, 3, 0.0), None),
      1 := FreshCell(EnqueuedRow("worse", 0, "", 1, 3, 0.0), None)])
  }

  lemma RivalsAreReachable()
    ensures Reachable(Rivals())
  {
    var better, worse := Create(0, "better", 0, "", 5, 3, None), Create(1, "worse", 0, "", 1, 3, None);
    var s1 := Apply(Empty(0.0), better);
    assert After(Empty(0.0), []) == Empty(0.0);
    ReachableStep(Empty(0.0), better);
    ReachableStep(s1, worse);
    assert Apply(s1, worse).jobs == Rivals().jobs;
  }

  lemma OnlyTheBetterIsFirst()
    ensures TopK(Rows(Rivals()), {}, 0, 1, [0]) && !TopK(Rows(Rivals()), {}, 0, 1, [1])
    ensures TopK(Rows(Rivals()), {0}, 0, 1, [1])
  {
    assert Claimable(Rows(Rivals()), {}, 0, 0);
    assert 0 !in [1];
    assert Before(Rows(Rivals())[0], Rows(Rivals())[[1][0]]);
  }

  const FIRST_TX := Tx(1, 0, [0], 0.0, None)
  const SECOND_TX := Tx(2, 0, [1], 0.0, None)

  function UpdatedTx(): Tx {
    SECOND_TX.(versions := Some(map[1 := ClaimedRow(Rivals().jobs[1].row, 2, 0.0)]))
  }

  /** The first transaction locks the better job, the second has to skip it, the first
      rolls back, the second updates its row. */
  const ROLLBACK_RUN: seq<PStep> := [Lock(0, 1, 0, 1, [0]), Lock(1, 2, 0, 1, [1]), Rollback(0), Update(1)]

  lemma SoleLock(p: PState, tx: TxId, job: JobId)
    requires p.txs.Keys == {tx} && p.txs[tx].ids == [job]
    ensures LockedRows(p) == {job}
  {
    assert job in p.txs[tx].ids;
    forall j | j in LockedRows(p) ensures j == job {
    }
  }

  lemma RollbackRunIsLegal()
    ensures LegalRun(PState(Rivals(), map[]), ROLLBACK_RUN)
    ensures PerformAll(PState(Rivals(), map[]), ROLLBACK_RUN) ==
              PState(Rivals(), map[1 := UpdatedTx()])
  {
    OnlyTheBetterIsFirst();
    var p0, p1 := PState(Rivals(), map[]), PState(Rivals(), map[0 := FIRST_TX]);
    var p2 := PState(Rivals(), map[0 := FIRST_TX, 1 := SECOND_TX]);
    var p3 := PState(Rivals(), map[1 := SECOND_TX]);
    var p4 := PState(Rivals(), map[1 := UpdatedTx()]);
    assert LockedRows(p0) == {};
    SoleLock(p1, 0, 0);
    assert NewVersions(Rivals(), SECOND_TX) == UpdatedTx().versions.value;
    Leads(p3, [Update(1)], p4);
    Leads(p2, [Rollback(0), Update(1)], p3);
    Leads(p1, [Lock(1, 2, 0, 1, [1]), Rollback(0), Update(1)], p2);
    Leads(p0, ROLLBACK_RUN, p1);
  }

  lemma Leads(p: PState, run: seq<PStep>, p': PState)
    requires run != [] && Legal(p, run[0]) && p' == Perform(p, run[0])
    ensures LegalRun(p', run[1..]) ==> LegalRun(p, run) && PerformAll(p, run) == PerformAll(p', run[1..])
  {
  }

  lemma SecondCommits()
    ensures var p := PState(Rivals(), map[1 := UpdatedTx()]);
            Legal(p, Commit(1)) && Rows(Perform(p, Commit(1)).sys) == Marked(Rows(Rivals()), {1}, 2, 0.0)
  {
    var p := PState(Rivals(), map[1 := UpdatedTx()]);
    assert Versions(p.txs[1]) == map[1 := ClaimedRow(Rivals().jobs[1].row, 2, 0.0)];
  }

  /** With a rollback, skipping locked rows can cost priority order: the second
      transaction commits the worse of two queued jobs although the better one was never
      claimed. The table does not change before that commit, and no claim of one row
      from it would have picked that job. */
  lemma RollbackInvertsPriority()
    ensures Reachable(Rivals()) && LegalRun(PState(Rivals(), map[]), ROLLBACK_RUN)
    ensures var p := PerformAll(PState(Rivals(), map[]), ROLLBACK_RUN);
            && p.sys == Rivals() && Legal(p, Commit(1))
            && Rows(Perform(p, Commit(1)).sys) == Marked(Rows(Rivals()), {1}, 2, 0.0)
    ensures 1 in Rows(Rivals()) && !TopK(Rows(Rivals()), {}, 0, 1, [1])
  {
    RivalsAreReachable();
    OnlyTheBetterIsFirst();
    RollbackRunIsLegal();
    SecondCommits();
  }
}
