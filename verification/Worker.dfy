/** apps/worker/process.py: one poll over the queues, and one execution of a claimed job. */
module Worker {
  import opened Types
  import opened Retry
  import opened Lifecycle
  import opened Protocol
  import opened Claiming
  import opened JobStore
  import opened Queues

  // ---- one poll

  /** What a poll starts from: its worker, the queues it walks, the budget free at entry,
      what the clock shows at each visit, and the rows other claims hold locked. */
  datatype Poll = Poll(worker: WorkerId, queues: seq<Queue>, budget: int, clock: nat -> Time, locked: set<JobId>)

  /** What a poll did with a queue, and the budget it had free when it came to it: it
      passed the queue over at its limit, or claimed from it. */
  datatype Visit = Visit(queue: Queue, free: int, atLimit: bool, claimed: seq<JobId>)
  {
    function FreeAfter(): int {
      free - |claimed|
    }
  }

  /** A queue at its limit is left alone; from any other the best unlocked rows are
      claimed, as many as the budget still free. */
  ghost predicate VisitStep(s: State, s': State, v: Visit, worker: WorkerId, now: Time, locked: set<JobId>) {
    && v.atLimit == AtLimit(Rows(s), v.queue)
    && if v.atLimit then s' == s && v.claimed == [] else
       && v.free > 0
       && TopK(Rows(s), locked, v.queue.id, v.free, v.claimed)
       && s' == At(s, now, ClaimBatch(worker, IdSet(v.claimed), now))
  }

  /** The queues in order, one protocol step per queue it claims from, each visit with the
      budget the previous one left. */
  ghost predicate Polls(p: Poll, trace: seq<State>, visits: seq<Visit>) {
    && |trace| == |visits| + 1 && |visits| <= |p.queues|
    && forall k: nat :: k < |visits| ==> VisitAt(p, trace, visits, k)
  }

  ghost predicate VisitAt(p: Poll, trace: seq<State>, visits: seq<Visit>, k: nat)
    requires |trace| == |visits| + 1 && k < |visits| <= |p.queues|
  {
    && visits[k].queue == p.queues[k]
    && visits[k].free == BudgetAt(p, visits, k)
    && VisitStep(trace[k], trace[k + 1], visits[k], p.worker, p.clock(k), p.locked)
  }

  function BudgetAt(p: Poll, visits: seq<Visit>, k: nat): int
    requires k <= |visits|
  {
    if k == 0 then p.budget else visits[k - 1].FreeAfter()
  }

  lemma PollExtends(p: Poll, trace: seq<State>, visits: seq<Visit>, v: Visit, s: State)
    requires Polls(p, trace, visits) && |visits| < |p.queues|
    requires v.queue == p.queues[|visits|] && v.free == BudgetAt(p, visits, |visits|)
    requires VisitStep(trace[|visits|], s, v, p.worker, p.clock(|visits|), p.locked)
    ensures Polls(p, trace + [s], visits + [v])
  {
    forall k: nat | k < |visits| + 1 ensures VisitAt(p, trace + [s], visits + [v], k) {
      assert k < |visits| ==> VisitAt(p, trace, visits, k);
    }
  }

  // ---- what a poll guarantees

  lemma ClaimedRows(s: State, v: Visit, worker: WorkerId, now: Time, locked: set<JobId>)
    requires v.free > 0 && TopK(Rows(s), locked, v.queue.id, v.free, v.claimed)
    ensures Rows(At(s, now, ClaimBatch(worker, IdSet(v.claimed), now))) ==
              Marked(Rows(s), IdSet(v.claimed), worker, now)
    ensures forall j :: j in IdSet(v.claimed) ==>
              j in s.jobs && s.jobs[j].row.status.Queued? && s.jobs[j].row.queue == v.queue.id
  {
    forall j | j in IdSet(v.claimed)
      ensures j in s.jobs && s.jobs[j].row.status.Queued? && s.jobs[j].row.queue == v.queue.id
    {
      var a :| 0 <= a < |v.claimed| && v.claimed[a] == j;
      assert Claimable(Rows(s), locked, v.queue.id, v.claimed[a]);
    }
  }

  lemma VisitKeepsRunning(s: State, s': State, v: Visit, worker: WorkerId, now: Time, locked: set<JobId>,
                          queue: QueueId)
    requires VisitStep(s, s', v, worker, now, locked)
    ensures RunningIds(Rows(s'), queue) == RunningIds(Rows(s), queue)
  {
    if !v.atLimit {
      ClaimedRows(s, v, worker, now, locked);
    }
  }

  /** Claiming fills no queue, and claiming less than was asked empties one. */
  lemma VisitDrains(s: State, s': State, v: Visit, worker: WorkerId, now: Time, locked: set<JobId>, queue: QueueId)
    requires VisitStep(s, s', v, worker, now, locked)
    ensures Drained(Rows(s), locked, queue) ==> Drained(Rows(s'), locked, queue)
    ensures !v.atLimit && v.FreeAfter() > 0 ==> Drained(Rows(s'), locked, v.queue.id)
  {
    if !v.atLimit {
      ClaimedRows(s, v, worker, now, locked);
      forall j | j in s.jobs
        ensures Claimable(Rows(s'), locked, queue, j) ==> Claimable(Rows(s), locked, queue, j)
        ensures Claimable(Rows(s'), locked, v.queue.id, j) ==>
                  Claimable(Rows(s), locked, v.queue.id, j) && j !in v.claimed
      {
      }
    }
  }

  lemma {:induction false} DrainedStays(p: Poll, trace: seq<State>, visits: seq<Visit>, a: nat, b: nat, queue: QueueId)
    requires Polls(p, trace, visits) && a <= b <= |visits|
    requires Drained(Rows(trace[a]), p.locked, queue)
    ensures Drained(Rows(trace[b]), p.locked, queue)
    decreases b - a
  {
    if a < b {
      assert VisitAt(p, trace, visits, a);
      VisitDrains(trace[a], trace[a + 1], visits[a], p.worker, p.clock(a), p.locked, queue);
      DrainedStays(p, trace, visits, a + 1, b, queue);
    }
  }

  lemma {:induction false} BudgetShrinks(p: Poll, trace: seq<State>, visits: seq<Visit>, a: nat, b: nat)
    requires Polls(p, trace, visits) && a <= b <= |visits|
    ensures BudgetAt(p, visits, b) <= BudgetAt(p, visits, a)
    decreases b - a
  {
    if a < b {
      assert VisitAt(p, trace, visits, b - 1);
      BudgetShrinks(p, trace, visits, a, b - 1);
    }
  }

  /** A queue yields claims only if every queue polled before it was at its limit or holds
      no claimable row any more. */
  lemma EarlierQueuesAreServedFirst(p: Poll, trace: seq<State>, visits: seq<Visit>, a: nat, b: nat)
    requires Polls(p, trace, visits)
    requires a < b < |visits| && visits[b].claimed != []
    ensures visits[a].queue == p.queues[a]
    ensures visits[a].atLimit || Drained(Rows(trace[|visits|]), p.locked, visits[a].queue.id)
  {
    assert VisitAt(p, trace, visits, a);
    if !visits[a].atLimit {
      assert VisitAt(p, trace, visits, b);
      BudgetShrinks(p, trace, visits, a + 1, b);
      VisitDrains(trace[a], trace[a + 1], visits[a], p.worker, p.clock(a), p.locked, visits[a].queue.id);
      DrainedStays(p, trace, visits, a + 1, |visits|, visits[a].queue.id);
    }
  }

  /** A poll never fills a queue's running count: each limit reads as it did at entry. */
  lemma {:induction false} LimitsReadAsAtEntry(p: Poll, trace: seq<State>, visits: seq<Visit>, k: nat)
    requires Polls(p, trace, visits) && k <= |visits|
    ensures forall q :: AtLimit(Rows(trace[k]), q) == AtLimit(Rows(trace[0]), q)
  {
    if k > 0 {
      LimitsReadAsAtEntry(p, trace, visits, k - 1);
      assert VisitAt(p, trace, visits, k - 1);
      forall q: Queue ensures AtLimit(Rows(trace[k]), q) == AtLimit(Rows(trace[k - 1]), q) {
        VisitKeepsRunning(trace[k - 1], trace[k], visits[k - 1], p.worker, p.clock(k - 1), p.locked, q.id);
      }
    }
  }

  /** Priority drain: when a poll claims from a queue, every active queue of the project
      with higher priority was at its limit when the poll began, or is left without a
      claimable row when it ends. */
  lemma HigherQueuesAreServedFirst(p: Poll, trace: seq<State>, visits: seq<Visit>,
                                   registered: QueueTable, project: nat, b: nat, higher: Queue)
    requires Polls(p, trace, visits)
    requires ActiveInOrder(registered, project, p.queues)
    requires b < |visits| && visits[b].claimed != []
    requires IsPolled(registered, project, higher.id) && registered[higher.id] == higher
    requires higher.priority > visits[b].queue.priority
    ensures AtLimit(Rows(trace[0]), higher) || Drained(Rows(trace[|visits|]), p.locked, higher.id)
  {
    assert higher in p.queues;
    var a :| 0 <= a < |p.queues| && p.queues[a] == higher;
    assert VisitAt(p, trace, visits, b);
    assert a < b;
    assert VisitAt(p, trace, visits, a);
    EarlierQueuesAreServedFirst(p, trace, visits, a, b);
    LimitsReadAsAtEntry(p, trace, visits, a);
  }

  /** Whatever a poll claims carries the retry policy of the queue it was claimed from, and
      that is the policy its execution will read. */
  lemma ClaimsCarryTheirPolicy(p: Poll, trace: seq<State>, visits: seq<Visit>, registered: QueueTable, project: nat,
                               k: nat, job: JobId)
    requires Polls(p, trace, visits) && ActiveInOrder(registered, project, p.queues)
    requires PoliciesAgree(trace[0], registered)
    requires k < |visits| && job in visits[k].claimed
    ensures PoliciesAgree(trace[|visits|], registered)
    ensures job in trace[|visits|].jobs && trace[|visits|].jobs[job].row.queue == visits[k].queue.id
    ensures trace[|visits|].jobs[job].policy == visits[k].queue.retryPolicy
  {
    PollKeepsPolicies(p, trace, visits, registered, k);
    assert VisitAt(p, trace, visits, k);
    ClaimedRows(trace[k], visits[k], p.worker, p.clock(k), p.locked);
    assert visits[k].queue in p.queues;
    PollKeepsIdentity(p, trace, visits, k, |visits|, job);
    PollKeepsPolicies(p, trace, visits, registered, |visits|);
    assert PolicyAgrees(trace[|visits|].jobs[job], registered);
  }

  lemma {:induction false} PollKeepsPolicies(p: Poll, trace: seq<State>, visits: seq<Visit>, registered: QueueTable,
                                             k: nat)
    requires Polls(p, trace, visits) && k <= |visits| && PoliciesAgree(trace[0], registered)
    ensures PoliciesAgree(trace[k], registered)
  {
    if k > 0 {
      PollKeepsPolicies(p, trace, visits, registered, k - 1);
      assert VisitAt(p, trace, visits, k - 1);
      var now := p.clock(k - 1);
      StepKeepsPolicies(trace[k - 1], SetClock(now), registered);
      StepKeepsPolicies(Apply(trace[k - 1], SetClock(now)),
                        ClaimBatch(p.worker, IdSet(visits[k - 1].claimed), now), registered);
    }
  }

  lemma {:induction false} PollKeepsIdentity(p: Poll, trace: seq<State>, visits: seq<Visit>, a: nat, b: nat, job: JobId)
    requires Polls(p, trace, visits) && a <= b <= |visits| && job in trace[a].jobs
    ensures job in trace[b].jobs && trace[b].jobs[job].row.queue == trace[a].jobs[job].row.queue
    decreases b - a
  {
    if a < b {
      assert VisitAt(p, trace, visits, b - 1);
      PollKeepsIdentity(p, trace, visits, a, b - 1, job);
    }
  }

  class WorkerProcess {
    const id: WorkerId
    const project: nat
    const batchSize: nat
    var active: nat
    var shutdown: bool

    constructor (id: WorkerId, project: nat, batchSize: nat)
      ensures this.id == id && this.project == project && this.batchSize == batchSize
      ensures active == 0 && !shutdown
    {
      this.id, this.project, this.batchSize := id, project, batchSize;
      active, shutdown := 0, false;
    }

    /** One poll, while no execution of this worker finishes and nobody else writes to the
        table; locked is what other claims hold, clock what the worker reads at each visit. */
    method PollOnce(store: JobRepository, registry: QueueRepository, locked: set<JobId>, clock: nat -> Time)
      returns (queues: seq<Queue>, visits: seq<Visit>, ghost trace: seq<State>)
      requires store.Valid() && registry.Valid()
      modifies this`active, store`jobs, store`model
      ensures store.Valid()
      ensures ActiveInOrder(registry.queues, project, queues)
      ensures Polls(Poll(id, queues, batchSize - old(active), clock, locked), trace, visits)
      ensures trace[0] == old(store.model) && trace[|visits|] == store.model
      ensures batchSize - active == BudgetAt(Poll(id, queues, batchSize - old(active), clock, locked), visits, |visits|)
      ensures active <= Max(old(active), batchSize)
      // told to shut down, the worker claims nothing
      ensures shutdown ==>
                && visits == [] && active == old(active)
                && store.model == old(store.model) && store.jobs == old(store.jobs)
      // otherwise the poll stops early only when the budget is spent
      ensures !shutdown ==> |visits| == |queues| || active >= batchSize
    {
      queues := registry.GetActiveQueues(project);
      visits := [];
      trace := [store.model];
      ghost var poll := Poll(id, queues, batchSize - active, clock, locked);
      while |visits| < |queues|
        invariant store.Valid() && active <= Max(old(active), batchSize)
        invariant shutdown ==> visits == [] && store.jobs == old(store.jobs) && active == old(active)
        invariant Polls(poll, trace, visits)
        invariant trace[0] == old(store.model) && trace[|visits|] == store.model
        invariant batchSize - active == BudgetAt(poll, visits, |visits|)
        decreases |queues| - |visits|
      {
        if shutdown {
          break;
        }
        var visit := VisitQueue(store, queues[|visits|], locked, clock(|visits|));
        if visit.None? {
          break;
        }
        PollExtends(poll, trace, visits, visit.value, store.model);
        visits := visits + [visit.value];
        trace := trace + [store.model];
      }
    }

    /** Passes over a queue at its limit, else claims up to the free budget from it; None
        when there is no budget left to claim with. */
    method VisitQueue(store: JobRepository, queue: Queue, locked: set<JobId>, now: Time) returns (visit: Option<Visit>)
      requires store.Valid()
      modifies this`active, store`jobs, store`model
      ensures store.Valid()
      ensures visit.None? <==> old(active) >= batchSize && !AtLimit(old(store.jobs), queue)
      ensures visit.None? ==> active == old(active) && store.model == old(store.model)
      // at the limit: every running row of the queue counts, and nothing is claimed
      ensures queue.concurrencyLimit > 0 &&
              |set j | j in old(store.jobs) && old(store.jobs)[j].queue == queue.id
                       && old(store.jobs)[j].status == Running|
                >= queue.concurrencyLimit ==>
                && visit == Some(Visit(queue, batchSize - old(active), true, []))
                && active == old(active) && store.model == old(store.model) && store.jobs == old(store.jobs)
      // below it, or without one: the queue is not passed over unless the budget is spent
      ensures queue.concurrencyLimit == 0 ||
              |set j | j in old(store.jobs) && old(store.jobs)[j].queue == queue.id
                       && old(store.jobs)[j].status == Running|
                < queue.concurrencyLimit ==>
                if old(active) >= batchSize then visit.None? else visit.Some? && !visit.value.atLimit
      ensures visit.None? ==> store.jobs == old(store.jobs)
      ensures visit.Some? ==>
                && visit.value.queue == queue && visit.value.free == batchSize - old(active)
                && VisitStep(old(store.model), store.model, visit.value, id, now, locked)
                && active == old(active) + |visit.value.claimed| <= Max(old(active), batchSize)
    {
      EveryRunningRowCounts(store.jobs, queue.id);
      if queue.concurrencyLimit > 0 {
        var running := |RunningIds(store.jobs, queue.id)|;
        if running >= queue.concurrencyLimit {
          return Some(Visit(queue, batchSize - active, true, []));
        }
      }
      if active >= batchSize {
        return None;
      }
      var remaining := batchSize - active;
      var claimed := store.ClaimNextJobs(queue.id, id, remaining, locked, now);
      active := active + |claimed|;
      visit := Some(Visit(queue, remaining, false, claimed));
    }

    /** One execution of a claimed job, start to finish; queue is the row the poll read,
        failure what the work raised. */
    method ExecuteJob(store: JobRepository, job: JobId, queue: Queue, failure: Option<string>,
                      startedAt: Time, runningAt: Time, finishedAt: Time,
                      ghost task: nat, ghost registered: QueueTable)
      requires store.Valid() && active > 0
      requires job in store.jobs && store.jobs[job].queue == queue.id
      requires queue.id in registered && registered[queue.id].retryPolicy == queue.retryPolicy
      requires PoliciesAgree(store.model, registered)
      requires store.model.jobs[job].InPhase(task, Waiting)
      modifies this`active, store
      ensures store.Valid() && active == old(active) - 1
      ensures store.model == At(At(old(store.model), runningAt, On(job, Start(task))), finishedAt,
                                On(job, if failure.None? then Succeed(task) else Fail(task, failure.value)))
      ensures store.executions == old(store.executions) + [
                if failure.None?
                then ExecutionRecord(job, id, store.jobs[job].attempts, true, startedAt, finishedAt, None)
                else ExecutionRecord(job, id, 1, false, startedAt, finishedAt, failure)]
      ensures job in store.jobs && store.jobs[job].attempts == old(store.jobs)[job].attempts + 1
      ensures PoliciesAgree(store.model, registered)
    {
      ExecutionKeepsPolicies(store.model, job, task, failure, runningAt, finishedAt, registered);
      StartKeepsPolicy(store.model, job, task, runningAt, registered);
      store.MarkRunning(job, runningAt, task);
      Report(store, job, queue, failure, startedAt, finishedAt, task);
      active := active - 1;
    }

    /** The outcome of the work: status, dead-letter entry and execution record. */
    method Report(store: JobRepository, job: JobId, queue: Queue, failure: Option<string>,
                  startedAt: Time, finishedAt: Time, ghost task: nat)
      requires store.Valid() && job in store.jobs
      requires store.model.jobs[job].InPhase(task, Executing) && store.model.jobs[job].policy == queue.retryPolicy
      modifies store
      ensures store.Valid()
      ensures store.model == At(old(store.model), finishedAt,
                                On(job, if failure.None? then Succeed(task) else Fail(task, failure.value)))
      ensures job in store.jobs && store.jobs[job].attempts == old(store.jobs)[job].attempts
      ensures store.executions == old(store.executions) + [
                if failure.None?
                then ExecutionRecord(job, id, store.jobs[job].attempts, true, startedAt, finishedAt, None)
                else ExecutionRecord(job, id, 1, false, startedAt, finishedAt, failure)]
    {
      if failure.None? {
        store.MarkCompleted(job, finishedAt, task);
        store.RecordExecution(
          ExecutionRecord(job, id, store.jobs[job].attempts, true, startedAt, finishedAt, None));
      } else {
        var delay := RetryDelay(store.jobs[job], queue.retryPolicy);
        store.MarkFailed(job, failure.value, delay, finishedAt, task);
        store.RecordExecution(ExecutionRecord(job, id, 1, false, startedAt, finishedAt, failure));
      }
    }

    /** The delay a failure is reported with: none without a policy or attempts left. */
    method RetryDelay(row: Job, retryPolicy: Option<RetryPolicy>) returns (delay: Option<real>)
      ensures delay == RetryDelayFor(retryPolicy, row)
      ensures delay.Some? <==> retryPolicy.Some? && row.attempts < row.maxAttempts
      ensures delay.Some? ==> delay.value == Delay(retryPolicy.value, row.attempts)
    {
      delay := None;
      if retryPolicy.Some? {
        var policy := retryPolicy.value;
        if row.attempts < row.maxAttempts {
          delay := Some(CalculateRetryDelay(policy.strategy, row.attempts, policy.baseDelay, policy.maxDelay));
        }
      }
    }

    static lemma StartKeepsPolicy(s: State, job: JobId, task: nat, now: Time, registered: QueueTable)
      requires job in s.jobs && PoliciesAgree(s, registered) && s.jobs[job].InPhase(task, Waiting)
      ensures var s' := At(s, now, On(job, Start(task)));
              && job in s'.jobs && s'.jobs[job].InPhase(task, Executing)
              && s.jobs[job].row.queue in registered
              && s'.jobs[job].policy == registered[s.jobs[job].row.queue].retryPolicy
    {
      assert PolicyAgrees(s.jobs[job], registered);
    }

    static lemma ExecutionKeepsPolicies(s: State, job: JobId, task: nat, failure: Option<string>,
                                        runningAt: Time, finishedAt: Time, registered: QueueTable)
      requires PoliciesAgree(s, registered)
      ensures PoliciesAgree(At(At(s, runningAt, On(job, Start(task))), finishedAt,
                               On(job, if failure.None? then Succeed(task) else Fail(task, failure.value))),
                            registered)
    {
      var s1 := Apply(s, SetClock(runningAt));
      var s2 := Apply(s1, On(job, Start(task)));
      var s3 := Apply(s2, SetClock(finishedAt));
      StepKeepsPolicies(s, SetClock(runningAt), registered);
      StepKeepsPolicies(s1, On(job, Start(task)), registered);
      StepKeepsPolicies(s2, SetClock(finishedAt), registered);
      StepKeepsPolicies(s3, On(job, if failure.None? then Succeed(task) else Fail(task, failure.value)), registered);
    }
  }
}
