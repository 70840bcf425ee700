/** The jobs, dead-letter and execution tables, and the statements that
    packages/db/repositories/job_repo.py and the operator routes run on them. Every
    method is one committed transaction; a ghost field follows the protocol state, so
    each method is proved to be the protocol step it implements. */
module JobStore {
  import opened Types
  import opened Retry
  import opened Lifecycle
  import opened Protocol
  import opened Claiming

  datatype DeadLetterEntry = DeadLetterEntry(job: JobId, copy: Snapshot, isResolved: bool, resolvedAt: Option<Time>)

  datatype ExecutionRecord = ExecutionRecord(
    job: JobId,
    worker: WorkerId,
    attemptNumber: int,
    completed: bool,
    startedAt: Time,
    finishedAt: Time,
    errorMessage: Option<string>)

  /** A step taken when the caller's clock shows the given time. */
  function At(s: State, now: Time, step: Step): State {
    Apply(Apply(s, SetClock(now)), step)
  }

  function BuriedEntry(job: JobId, row: Job, error: string): DeadLetterEntry {
    DeadLetterEntry(job, SnapshotOf(row, error), false, None)
  }

  lemma AtKeepsReachable(s: State, now: Time, step: Step)
    requires Reachable(s)
    ensures Reachable(At(s, now, step))
  {
    var steps := [SetClock(now), step];
    ReachableAfter(s, steps);
    assert After(s, steps) == After(Apply(s, steps[0]), steps[1..]);
    assert steps[1..][1..] == [];
    assert After(Apply(Apply(s, steps[0]), step), []) == At(s, now, step);
  }

  /** The dead-letter entry a failure leaves behind: none if the job retries. */
  function EntriesFor(jobs: Table, job: JobId, error: string, delay: Option<real>): seq<DeadLetterEntry> {
    if job in jobs && !RetriesAfter(jobs[job], delay)
    then [BuriedEntry(job, jobs[job], error)]
    else []
  }

  /** The dead-letter entries of one job, oldest first. */
  function CopiesFor(dlq: seq<DeadLetterEntry>, job: JobId): seq<Snapshot> {
    if dlq == [] then [] else
    var n := |dlq| - 1;
    CopiesFor(dlq[..n], job) + (if dlq[n].job == job then [dlq[n].copy] else [])
  }

  lemma CopiesAfterAppend(dlq: seq<DeadLetterEntry>, e: DeadLetterEntry, job: JobId)
    ensures CopiesFor(dlq + [e], job) == CopiesFor(dlq, job) + (if e.job == job then [e.copy] else [])
  {
    assert (dlq + [e])[..|dlq|] == dlq;
  }

  lemma {:induction false} CopiesAfterResolve(dlq: seq<DeadLetterEntry>, k: nat, e: DeadLetterEntry, job: JobId)
    requires k < |dlq| && e.job == dlq[k].job && e.copy == dlq[k].copy
    ensures CopiesFor(dlq[k := e], job) == CopiesFor(dlq, job)
    decreases |dlq|
  {
    var n := |dlq| - 1;
    if k < n {
      assert dlq[k := e][..n] == dlq[..n][k := e];
      CopiesAfterResolve(dlq[..n], k, e, job);
    } else {
      assert dlq[k := e][..n] == dlq[..n];
    }
  }

  lemma {:induction false} ListedHasCopies(dlq: seq<DeadLetterEntry>, k: nat)
    requires k < |dlq|
    ensures CopiesFor(dlq, dlq[k].job) != []
    decreases |dlq|
  {
    var n := |dlq| - 1;
    if k < n {
      ListedHasCopies(dlq[..n], k);
    }
  }

  // ---- what the bulk statements do to the table

  function DueIds(jobs: Table, now: Time): set<JobId> {
    set j | j in jobs && RetryDue(jobs[j], now)
  }

  function StaleIds(jobs: Table, cutoff: Time): set<JobId> {
    set j | j in jobs && Stale(jobs[j], cutoff)
  }

  function Rewritten(jobs: Table, ids: set<JobId>, rewrite: Job -> Job): Table {
    map j | j in jobs :: if j in ids then rewrite(jobs[j]) else jobs[j]
  }

  function Requeued(jobs: Table, now: Time): Table {
    Rewritten(jobs, DueIds(jobs, now), RequeuedRow)
  }

  function Recovered(jobs: Table, cutoff: Time): Table {
    Rewritten(jobs, StaleIds(jobs, cutoff), RecoveredRow)
  }

  lemma SecondPassFindsNone(jobs: Table, now: Time, cutoff: Time)
    ensures DueIds(Requeued(jobs, now), now) == {} && StaleIds(Recovered(jobs, cutoff), cutoff) == {}
  {
  }

  function ChangedRows(before: Table, after: Table): set<JobId> {
    set j | j in before && j in after && before[j] != after[j]
  }

  /** The count reported is the number of rows that were meant, and of those that changed. */
  predicate CountsMoved(before: Table, after: Table, meant: set<JobId>, count: nat) {
    count == |meant| && meant == ChangedRows(before, after)
  }

  /** A waiting retry whose time has come is queued and loses its retry time; its attempts,
      its last error and everything else stay, and so does every other row. */
  predicate RequeuesExactly(before: Table, after: Table, now: Time) {
    && after.Keys == before.Keys
    && forall j :: j in before ==>
         after[j] ==
           if before[j].status == RetryScheduled && before[j].nextRetryAt.Some? && before[j].nextRetryAt.value <= now
           then before[j].(status := Queued, nextRetryAt := None, version := before[j].version + 1)
           else before[j]
  }

  lemma RequeuedRows(jobs: Table, now: Time)
    ensures RequeuesExactly(jobs, Requeued(jobs, now), now)
    ensures DueIds(jobs, now) == ChangedRows(jobs, Requeued(jobs, now))
  {
  }

  /** A row held under a claim from before the cutoff is queued and loses holder and claim
      time; its attempts and everything else stay, and so does every other row. */
  predicate RecoversExactly(before: Table, after: Table, cutoff: Time) {
    && after.Keys == before.Keys
    && forall j :: j in before ==>
         after[j] ==
           if before[j].status in {Claimed, Running} && before[j].claimedAt.Some? && before[j].claimedAt.value < cutoff
           then before[j].(status := Queued, claimedBy := None, claimedAt := None, version := before[j].version + 1)
           else before[j]
  }

  /** What a recovery pass does and reports; a second one finds nothing. */
  predicate RecoveredAll(before: Table, after: Table, cutoff: Time, count: nat) {
    && RecoversExactly(before, after, cutoff)
    && CountsMoved(before, after, StaleIds(before, cutoff), count)
    && StaleIds(after, cutoff) == {}
  }

  lemma RecoveredRows(jobs: Table, cutoff: Time)
    ensures RecoversExactly(jobs, Recovered(jobs, cutoff), cutoff)
    ensures StaleIds(jobs, cutoff) == ChangedRows(jobs, Recovered(jobs, cutoff))
  {
  }

  // ---- tables and protocol state move together

  /** The tables show exactly the protocol state. */
  ghost predicate Mirrors(jobs: Table, dlq: seq<DeadLetterEntry>, s: State) {
    && jobs == Rows(s)
    && (forall j :: j in jobs ==> s.jobs[j].dead == CopiesFor(dlq, j))
    && (forall k :: 0 <= k < |dlq| ==> dlq[k].job in jobs)
  }

  lemma ClaimMirrors(jobs: Table, dlq: seq<DeadLetterEntry>, s: State, ids: set<JobId>, worker: WorkerId, now: Time)
    requires Mirrors(jobs, dlq, s)
    requires forall j :: j in ids ==> j in jobs && jobs[j].status.Queued?
    ensures Mirrors(Marked(jobs, ids, worker, now), dlq, At(s, now, ClaimBatch(worker, ids, now)))
  {
    var s' := At(s, now, ClaimBatch(worker, ids, now));
    forall j | j in jobs
      ensures s'.jobs[j].row == Marked(jobs, ids, worker, now)[j] && s'.jobs[j].dead == s.jobs[j].dead
    {
    }
  }

  lemma RequeueMirrors(jobs: Table, dlq: seq<DeadLetterEntry>, s: State, now: Time)
    requires Mirrors(jobs, dlq, s)
    ensures Mirrors(Requeued(jobs, now), dlq, At(s, now, RequeueAll))
  {
    var s' := At(s, now, RequeueAll);
    forall j | j in jobs
      ensures s'.jobs[j].row == Requeued(jobs, now)[j] && s'.jobs[j].dead == s.jobs[j].dead
    {
    }
  }

  lemma RecoverMirrors(jobs: Table, dlq: seq<DeadLetterEntry>, s: State, timeout: Time, now: Time)
    requires Mirrors(jobs, dlq, s)
    ensures Mirrors(Recovered(jobs, now - timeout), dlq, At(s, now, RecoverAll(timeout)))
  {
    var s' := At(s, now, RecoverAll(timeout));
    forall j | j in jobs
      ensures s'.jobs[j].row == Recovered(jobs, now - timeout)[j] && s'.jobs[j].dead == s.jobs[j].dead
    {
    }
  }

  lemma OneJobChanges(s: State, job: JobId, e: Event, now: Time)
    requires Single(e) && job in s.jobs
    ensures At(s, now, On(job, e)).jobs == s.jobs[job := Effect(s.jobs[job], now, e)]
  {
  }

  lemma CellRows(jobs: Table, s: State, job: JobId, c: Cell, s': State)
    requires jobs == Rows(s) && job in jobs && s'.jobs == s.jobs[job := c]
    ensures jobs[job := c.row] == Rows(s')
  {
  }

  lemma CellMirrors(jobs: Table, dlq: seq<DeadLetterEntry>, s: State, job: JobId, c: Cell, s': State)
    requires Mirrors(jobs, dlq, s) && job in jobs
    requires s'.jobs == s.jobs[job := c] && c.dead == s.jobs[job].dead
    ensures Mirrors(jobs[job := c.row], dlq, s')
  {
    CellRows(jobs, s, job, c, s');
  }

  lemma BuriedCopies(dlq: seq<DeadLetterEntry>, before: seq<Snapshot>, after: seq<Snapshot>, entry: DeadLetterEntry,
                     job: JobId)
    requires before == CopiesFor(dlq, job)
    requires after == if entry.job == job then before + [entry.copy] else before
    ensures after == CopiesFor(dlq + [entry], job)
  {
    CopiesAfterAppend(dlq, entry, job);
  }

  lemma BuriedCellMirrors(jobs: Table, dlq: seq<DeadLetterEntry>, s: State, job: JobId, c: Cell, s': State,
                          entry: DeadLetterEntry)
    requires Mirrors(jobs, dlq, s) && job in jobs && entry.job == job
    requires s'.jobs == s.jobs[job := c] && c.dead == s.jobs[job].dead + [entry.copy]
    ensures Mirrors(jobs[job := c.row], dlq + [entry], s')
  {
    CellRows(jobs, s, job, c, s');
    forall j | j in jobs ensures s'.jobs[j].dead == CopiesFor(dlq + [entry], j) {
      BuriedCopies(dlq, s.jobs[j].dead, s'.jobs[j].dead, entry, j);
    }
  }

  lemma OneJobMirrors(jobs: Table, dlq: seq<DeadLetterEntry>, s: State, job: JobId, e: Event, now: Time)
    requires Mirrors(jobs, dlq, s) && Single(e) && job in jobs
    requires Effect(s.jobs[job], now, e).dead == s.jobs[job].dead
    ensures Mirrors(jobs[job := Effect(s.jobs[job], now, e).row], dlq, At(s, now, On(job, e)))
  {
    OneJobChanges(s, job, e, now);
    CellMirrors(jobs, dlq, s, job, Effect(s.jobs[job], now, e), At(s, now, On(job, e)));
  }

  lemma EventMirrors(jobs: Table, dlq: seq<DeadLetterEntry>, s: State, job: JobId, e: Event, now: Time)
    requires Mirrors(jobs, dlq, s) && Single(e)
    requires job in jobs ==> Effect(s.jobs[job], now, e).dead == s.jobs[job].dead
    ensures Mirrors(if job in jobs then jobs[job := Effect(s.jobs[job], now, e).row] else jobs,
                    dlq, At(s, now, On(job, e)))
  {
    if job in jobs {
      OneJobMirrors(jobs, dlq, s, job, e, now);
    }
  }

  lemma CancelMirrors(jobs: Table, dlq: seq<DeadLetterEntry>, s: State, job: JobId, now: Time)
    requires Mirrors(jobs, dlq, s)
    ensures Mirrors(if job in jobs && Cancellable(jobs[job]) then jobs[job := CancelledRow(jobs[job])] else jobs,
                    dlq, At(s, now, On(job, Event.Cancel)))
  {
    if job in jobs {
      OneJobMirrors(jobs, dlq, s, job, Event.Cancel, now);
      assert jobs[job := jobs[job]] == jobs;
    }
  }

  lemma FailureMirrors(jobs: Table, dlq: seq<DeadLetterEntry>, s: State, job: JobId, task: nat, error: string,
                       now: Time)
    requires Mirrors(jobs, dlq, s) && job in jobs && CanOccur(s.jobs[job], now, Fail(task, error))
    ensures var delay := RetryDelayFor(s.jobs[job].policy, jobs[job]);
            Mirrors(jobs[job := FailedRow(jobs[job], now, error, delay)],
                    dlq + EntriesFor(jobs, job, error, delay), At(s, now, On(job, Fail(task, error))))
  {
    var e, delay := Fail(task, error), RetryDelayFor(s.jobs[job].policy, jobs[job]);
    OneJobChanges(s, job, e, now);
    var c, s' := Effect(s.jobs[job], now, e), At(s, now, On(job, e));
    if RetriesAfter(jobs[job], delay) {
      assert dlq + [] == dlq;
      CellMirrors(jobs, dlq, s, job, c, s');
    } else {
      BuriedCellMirrors(jobs, dlq, s, job, c, s', BuriedEntry(job, jobs[job], error));
    }
  }

  class JobRepository {
    var jobs: Table
    var dlq: seq<DeadLetterEntry>
    var executions: seq<ExecutionRecord>
    ghost var model: State

    ghost predicate Valid()
      reads this
    {
      Mirrors(jobs, dlq, model)
    }

    constructor (now: Time)
      ensures Valid() && jobs == map[] && dlq == [] && executions == [] && model == Empty(now)
    {
      jobs := map[];
      dlq := [];
      executions := [];
      model := Empty(now);
    }

    /** POST /jobs, and the scheduler's enqueue: the row enters queued. */
    method Create(job: JobId, name: string, queue: QueueId, payload: string, priority: int,
                  maxAttempts: int, now: Time, ghost policy: Option<RetryPolicy>)
      requires Valid() && job !in jobs
      modifies this`jobs, this`model
      ensures Valid()
      ensures jobs == old(jobs)[job := EnqueuedRow(name, queue, payload, priority, maxAttempts, now)]
      ensures jobs[job] == Job(name, queue, payload, priority, Queued, None, 0, maxAttempts,
                               None, None, None, None, None, 1, now)
      ensures model == At(old(model), now, Protocol.Create(job, name, queue, payload, priority, maxAttempts, policy))
    {
      NoCopiesYet(job);
      jobs := jobs[job := EnqueuedRow(name, queue, payload, priority, maxAttempts, now)];
      model := At(model, now, Protocol.Create(job, name, queue, payload, priority, maxAttempts, policy));
    }

    lemma NoCopiesYet(job: JobId)
      requires Valid() && job !in jobs
      ensures CopiesFor(dlq, job) == []
    {
      NoneListed(dlq, job);
    }

    static lemma {:induction false} NoneListed(dlq: seq<DeadLetterEntry>, job: JobId)
      requires forall k :: 0 <= k < |dlq| ==> dlq[k].job != job
      ensures CopiesFor(dlq, job) == []
      decreases |dlq|
    {
      if dlq != [] {
        NoneListed(dlq[..|dlq| - 1], job);
      }
    }

    method ClaimNextJobs(queue: QueueId, worker: WorkerId, limit: nat, locked: set<JobId>, now: Time)
      returns (claimed: seq<JobId>)
      requires Valid()
      modifies this`jobs, this`model
      ensures Valid()
      ensures TopK(old(jobs), locked, queue, limit, claimed)
      ensures jobs == Marked(old(jobs), IdSet(claimed), worker, now)
      // which rows: queued and unlocked, in serving order, nothing better left behind
      ensures |claimed| <= limit && forall a :: 0 <= a < |claimed| ==>
                && claimed[a] in old(jobs) && claimed[a] !in locked
                && old(jobs)[claimed[a]].queue == queue && old(jobs)[claimed[a]].status == Queued
      ensures forall a, b :: 0 <= a < b < |claimed| ==>
                && claimed[a] != claimed[b]
                && var first, next := old(jobs)[claimed[a]], old(jobs)[claimed[b]];
                && first.priority >= next.priority
                && (first.priority == next.priority ==> first.createdAt <= next.createdAt)
      ensures forall j :: j in old(jobs) && j !in locked && j !in claimed
                          && old(jobs)[j].queue == queue && old(jobs)[j].status == Queued ==>
                && |claimed| == limit
                && forall a :: 0 <= a < |claimed| ==>
                     && var taken, left := old(jobs)[claimed[a]], old(jobs)[j];
                     && taken.priority >= left.priority
                     && (taken.priority == left.priority ==> taken.createdAt <= left.createdAt)
      // what becomes of them
      ensures jobs.Keys == old(jobs).Keys
      ensures forall j :: j in jobs ==>
                && var was := old(jobs)[j];
                jobs[j] == if j !in claimed then was else
                  was.(status := Claimed, claimedBy := Some(worker), claimedAt := Some(now), version := was.version + 1)
      ensures model == At(old(model), now, ClaimBatch(worker, IdSet(claimed), now))
    {
      claimed := SelectClaimable(jobs, locked, queue, limit);
      forall j | j in IdSet(claimed) ensures j in jobs && jobs[j].status.Queued? {
        var a :| 0 <= a < |claimed| && claimed[a] == j;
        assert Claimable(jobs, locked, queue, claimed[a]);
      }
      ClaimMirrors(jobs, dlq, model, IdSet(claimed), worker, now);
      var _ := UpdateEach(IdSet(claimed), r => ClaimedRow(r, worker, now));
      assert jobs == Marked(old(jobs), IdSet(claimed), worker, now);
      model := At(model, now, ClaimBatch(worker, IdSet(claimed), now));
    }

    method MarkRunning(job: JobId, now: Time, ghost task: nat)
      requires Valid()
      requires job in jobs ==> CanOccur(model.jobs[job], now, Start(task))
      modifies this`jobs, this`model
      ensures Valid()
      ensures jobs == if job in old(jobs) then old(jobs)[job := StartedRow(old(jobs)[job], now)] else old(jobs)
      ensures job in jobs ==>
                && var r, was := jobs[job], old(jobs)[job];
                r == was.(status := Running, startedAt := Some(now), attempts := was.attempts + 1,
                          version := was.version + 1)
      ensures model == At(old(model), now, On(job, Start(task)))
    {
      EventMirrors(jobs, dlq, model, job, Start(task), now);
      if job in jobs {
        jobs := jobs[job := StartedRow(jobs[job], now)];
      }
      model := At(model, now, On(job, Start(task)));
    }

    method MarkCompleted(job: JobId, now: Time, ghost task: nat)
      requires Valid()
      requires job in jobs ==> CanOccur(model.jobs[job], now, Succeed(task))
      modifies this`jobs, this`model
      ensures Valid()
      ensures jobs == if job in old(jobs) then old(jobs)[job := CompletedRow(old(jobs)[job], now)] else old(jobs)
      ensures job in jobs ==>
                && var r, was := jobs[job], old(jobs)[job];
                r == was.(status := Completed, completedAt := Some(now), claimedBy := None,
                          version := was.version + 1)
      ensures model == At(old(model), now, On(job, Succeed(task)))
    {
      EventMirrors(jobs, dlq, model, job, Succeed(task), now);
      if job in jobs {
        jobs := jobs[job := CompletedRow(jobs[job], now)];
      }
      model := At(model, now, On(job, Succeed(task)));
    }

    /** mark_failed with the delay its caller computed: a retry while attempts remain,
        otherwise a dead-letter entry and a dead row. */
    method MarkFailed(job: JobId, error: string, delay: Option<real>, now: Time, ghost task: nat)
      requires Valid()
      requires job in jobs ==>
                 && CanOccur(model.jobs[job], now, Fail(task, error))
                 && delay == RetryDelayFor(model.jobs[job].policy, jobs[job])
      modifies this`jobs, this`dlq, this`model
      ensures Valid()
      ensures jobs == if job in old(jobs)
                      then old(jobs)[job := FailedRow(old(jobs)[job], now, error, delay)]
                      else old(jobs)
      ensures dlq == old(dlq) + EntriesFor(old(jobs), job, error, delay)
      ensures model == At(old(model), now, On(job, Fail(task, error)))
    {
      if job in jobs {
        FailureMirrors(jobs, dlq, model, job, task, error, now);
      }
      RetryOrBury(job, error, delay, now);
      assert old(dlq) + [] == old(dlq);
      model := At(model, now, On(job, Fail(task, error)));
    }

    method RetryOrBury(job: JobId, error: string, delay: Option<real>, now: Time)
      modifies this`jobs, this`dlq
      ensures jobs == if job in old(jobs)
                      then old(jobs)[job := FailedRow(old(jobs)[job], now, error, delay)]
                      else old(jobs)
      ensures dlq == old(dlq) + EntriesFor(old(jobs), job, error, delay)
      ensures job in jobs ==>
                && var r, was := jobs[job], old(jobs)[job];
                if delay.Some? && was.attempts < was.maxAttempts then
                  && r == was.(status := RetryScheduled, lastError := Some(error),
                               nextRetryAt := Some(now + delay.value), claimedBy := None, version := was.version + 1)
                  && dlq == old(dlq)
                else
                  && r == was.(status := Dead, lastError := Some(error), claimedBy := None, version := was.version + 1)
                  && dlq == old(dlq) + [DeadLetterEntry(
                       job, Snapshot(was.name, was.queue, was.payload, error, was.attempts), false, None)]
    {
      if job in jobs {
        var row := jobs[job];
        if delay.Some? && row.attempts < row.maxAttempts {
          jobs := jobs[job := RetryLaterRow(row, error, now + delay.value)];
        } else {
          SendToDlq(job, row, error);
          jobs := jobs[job := DeadRow(row, error)];
        }
      }
    }

    method SendToDlq(job: JobId, row: Job, error: string)
      modifies this`dlq
      ensures dlq == old(dlq) + [BuriedEntry(job, row, error)]
    {
      dlq := dlq + [BuriedEntry(job, row, error)];
    }

    /** Returns how many rows it moved; a second pass at the same time finds none. */
    method RequeueRetryableJobs(now: Time) returns (count: nat)
      requires Valid()
      modifies this`jobs, this`model
      ensures Valid()
      ensures jobs == Requeued(old(jobs), now)
      ensures RequeuesExactly(old(jobs), jobs, now)
      ensures CountsMoved(old(jobs), jobs, DueIds(old(jobs), now), count) && DueIds(jobs, now) == {}
      ensures model == At(old(model), now, RequeueAll)
    {
      RequeueMirrors(jobs, dlq, model, now);
      RequeuedRows(jobs, now);
      SecondPassFindsNone(jobs, now, now);
      count := UpdateEach(DueIds(jobs, now), RequeuedRow);
      model := At(model, now, RequeueAll);
    }

    /** Likewise for claims older than the timeout. */
    method RecoverStaleClaims(timeout: Time, now: Time) returns (count: nat)
      requires Valid()
      modifies this`jobs, this`model
      ensures Valid()
      ensures jobs == Recovered(old(jobs), now - timeout)
      ensures RecoveredAll(old(jobs), jobs, now - timeout, count)
      ensures model == At(old(model), now, RecoverAll(timeout))
    {
      RecoverMirrors(jobs, dlq, model, timeout, now);
      count := ReleaseClaims(timeout, now);
      model := At(model, now, RecoverAll(timeout));
    }

    method ReleaseClaims(timeout: Time, now: Time) returns (count: nat)
      modifies this`jobs
      ensures jobs == Recovered(old(jobs), now - timeout)
      ensures RecoveredAll(old(jobs), jobs, now - timeout, count)
    {
      RecoveredRows(jobs, now - timeout);
      SecondPassFindsNone(jobs, now, now - timeout);
      count := UpdateEach(StaleIds(jobs, now - timeout), RecoveredRow);
    }

    /** A bulk UPDATE: rewrites every matching row and reports how many there were. */
    method UpdateEach(matching: set<JobId>, rewrite: Job -> Job) returns (count: nat)
      requires matching <= jobs.Keys
      modifies this`jobs
      ensures jobs == Rewritten(old(jobs), matching, rewrite)
      ensures count == |matching|
    {
      var todo := matching;
      count := 0;
      while todo != {}
        invariant todo <= matching && jobs.Keys == old(jobs).Keys
        invariant forall j :: j in jobs ==>
                    jobs[j] == if j in matching - todo then rewrite(old(jobs)[j]) else old(jobs)[j]
        invariant count + |todo| == |matching|
        decreases |todo|
      {
        var j :| j in todo;
        jobs := jobs[j := rewrite(jobs[j])];
        todo := todo - {j};
        count := count + 1;
      }
    }

    /** Returns whether a row was cancelled; the route reports not-found otherwise. */
    method Cancel(job: JobId, now: Time) returns (cancelled: bool)
      requires Valid()
      modifies this`jobs, this`model
      ensures Valid()
      ensures cancelled <==> job in old(jobs) && old(jobs)[job].status in {Queued, Scheduled, RetryScheduled}
      ensures jobs == if cancelled then old(jobs)[job := CancelledRow(old(jobs)[job])] else old(jobs)
      ensures cancelled ==>
                && var r, was := jobs[job], old(jobs)[job];
                && r == was.(status := Cancelled, version := was.version + 1)
      ensures model == At(old(model), now, On(job, Event.Cancel))
    {
      CancelMirrors(jobs, dlq, model, job, now);
      cancelled := job in jobs && Cancellable(jobs[job]);
      if cancelled {
        jobs := jobs[job := CancelledRow(jobs[job])];
      }
      model := At(model, now, On(job, Event.Cancel));
    }

    /** POST /jobs/{id}/retry. */
    method RetryJob(job: JobId, now: Time) returns (found: bool)
      requires Valid()
      modifies this`jobs, this`model
      ensures Valid()
      ensures found <==> job in old(jobs)
      ensures jobs == if found then old(jobs)[job := RetriedRow(old(jobs)[job])] else old(jobs)
      // the attempts used up so far still count
      ensures found ==>
                && var r, was := jobs[job], old(jobs)[job];
                r == was.(status := Queued, claimedBy := None, claimedAt := None, lastError := None,
                          nextRetryAt := None, version := was.version + 1)
      ensures model == At(old(model), now, On(job, Event.Retry))
    {
      found := job in jobs;
      if found {
        OneJobMirrors(jobs, dlq, model, job, Event.Retry, now);
        jobs := jobs[job := RetriedRow(jobs[job])];
      }
      model := At(model, now, On(job, Event.Retry));
    }

    /** POST /dlq/{id}/replay: the job goes back to its queue with its attempts reset,
        and the entry is marked resolved but keeps its copy. */
    method ReplayEntry(entry: nat, now: Time) returns (found: bool)
      requires Valid()
      modifies this`jobs, this`dlq, this`model
      ensures Valid()
      ensures found <==> entry < |old(dlq)|
      ensures found ==>
                && var job := old(dlq)[entry].job;
                && jobs == old(jobs)[job := ReplayedRow(old(jobs)[job])]
                && var r, was := jobs[job], old(jobs)[job];
                && r == was.(status := Queued, claimedBy := None, lastError := None, attempts := 0,
                             version := was.version + 1)
                && dlq == old(dlq)[entry := old(dlq)[entry].(isResolved := true, resolvedAt := Some(now))]
                && model == At(old(model), now, On(job, Replay))
      ensures !found ==> jobs == old(jobs) && dlq == old(dlq) && model == old(model)
    {
      found := entry < |dlq|;
      if found {
        var job := dlq[entry].job;
        ListedHasCopies(dlq, entry);
        OneJobMirrors(jobs, dlq, model, job, Replay, now);
        jobs := jobs[job := ReplayedRow(jobs[job])];
        Resolve(entry, now);
        model := At(model, now, On(job, Replay));
      }
    }

    /** POST /dlq/{id}/resolve. */
    method ResolveEntry(entry: nat, now: Time) returns (found: bool)
      requires Valid()
      modifies this`dlq
      ensures Valid()
      ensures found <==> entry < |old(dlq)|
      ensures dlq == if found
                     then old(dlq)[entry := old(dlq)[entry].(isResolved := true, resolvedAt := Some(now))]
                     else old(dlq)
    {
      found := entry < |dlq|;
      if found {
        Resolve(entry, now);
      }
    }

    method Resolve(entry: nat, now: Time)
      requires entry < |dlq|
      modifies this`dlq
      ensures dlq == old(dlq)[entry := old(dlq)[entry].(isResolved := true, resolvedAt := Some(now))]
      ensures forall j :: CopiesFor(dlq, j) == CopiesFor(old(dlq), j)
    {
      var e := dlq[entry].(isResolved := true, resolvedAt := Some(now));
      dlq := dlq[entry := e];
      forall j ensures CopiesFor(dlq, j) == CopiesFor(old(dlq), j) {
        CopiesAfterResolve(old(dlq), entry, e, j);
      }
    }

    method RecordExecution(record: ExecutionRecord)
      modifies this`executions
      ensures executions == old(executions) + [record]
    {
      executions := executions + [record];
    }
  }
}
