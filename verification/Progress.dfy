/** Can every job still finish? Workers that poll as they do, the scheduler's re-queueing
    and recovery alone can bring a job to an end exactly unless it is stuck: wedged itself,
    or in need of a claim from a queue that is paused or filled by wedged rows. */
module Progress {
  import opened Types
  import opened Lifecycle
  import opened Protocol
  import opened OpenRuns
  import opened DisciplinedRuns
  import opened Claiming
  import opened Queues

  /** Running according to its row, but with no claim time that recovery could find and no
      execution that could report. */
  predicate Wedged(c: Cell) {
    c.row.status.Running? && c.row.claimedAt.None? && c.Live() == {}
  }

  /** What the system's own steps depend on: the queues table, which only operators change,
      and the configured timeout. */
  datatype Setting = Setting(queues: QueueTable, timeout: Time)

  function WedgedIds(s: State, queue: QueueId): set<JobId> {
    set j | j in s.jobs && s.jobs[j].row.queue == queue && Wedged(s.jobs[j])
  }

  /** No poll will ever claim from the queue: it is unknown or paused, or wedged rows have
      used up its concurrency limit. */
  predicate Blocked(env: Setting, s: State, queue: QueueId) {
    queue in env.queues ==>
      || env.queues[queue].isPaused
      || (env.queues[queue].concurrencyLimit > 0 && |WedgedIds(s, queue)| >= env.queues[queue].concurrencyLimit)
  }

  /** Unfinished, with no execution to finish it, and wedged or waiting for a claim that
      cannot come. */
  predicate Stuck(env: Setting, s: State, job: JobId)
    requires job in s.jobs
  {
    && !s.jobs[job].row.status.IsTerminal() && s.jobs[job].Live() == {}
    && (Wedged(s.jobs[job]) || Blocked(env, s, s.jobs[job].row.queue))
  }

  // ---- the steps the system takes by itself

  /** A poll gets as far as claiming from the queue. */
  predicate Admits(env: Setting, s: State, queue: QueueId) {
    queue in env.queues && !env.queues[queue].isPaused && !AtLimit(Rows(s), env.queues[queue])
  }

  /** A step of a client, a worker or the scheduler: no operator, recovery with the
      configured timeout, claims only from queues that admit them, clocks running forward. */
  predicate SystemStep(env: Setting, s: State, step: Step) {
    match step
    case SetClock(now) => s.now <= now
    case Create(_, _, _, _, _, _, _) => true
    case ClaimBatch(_, ids, at) =>
      at == s.now && forall j :: j in ids && j in s.jobs ==> Admits(env, s, s.jobs[j].row.queue)
    case RequeueAll => true
    case RecoverAll(t) => t == env.timeout
    case CrashWorker(_) => true
    case On(_, e) => e.Start? || e.Succeed? || e.Fail? || e.Abandon?
  }

  ghost predicate SystemRun(env: Setting, s: State, steps: seq<Step>)
    decreases |steps|
  {
    steps != [] ==> SystemStep(env, s, steps[0]) && SystemRun(env, Apply(s, steps[0]), steps[1..])
  }

  /** A poll of the project looks into q before the queue. */
  predicate GoesFirst(queues: QueueTable, queue: QueueId, q: QueueId)
    requires queue in queues
  {
    IsPolled(queues, queues[queue].project, q) && queues[q].priority > queues[queue].priority
  }

  /** Every unpaused queue of the same project that goes first is at its limit or empty. */
  ghost predicate IsNext(env: Setting, s: State, queue: QueueId) {
    queue in env.queues &&
    forall q :: GoesFirst(env.queues, queue, q) ==> AtLimit(Rows(s), env.queues[q]) || Drained(Rows(s), {}, q)
  }

  /** The best rows of the queue whose turn it is, as a poll claims them. */
  ghost predicate ServesBest(env: Setting, s: State, ids: set<JobId>) {
    exists queue, list :: IsNext(env, s, queue) && Admits(env, s, queue) &&
      TopK(Rows(s), {}, queue, |list|, list) && ids == IdSet(list)
  }

  /** A system step that keeps priority order, too, and adds no jobs. */
  ghost predicate PolledStep(env: Setting, s: State, step: Step) {
    SystemStep(env, s, step) && !step.Create? && (step.ClaimBatch? ==> ServesBest(env, s, step.ids))
  }

  ghost predicate PolledRun(env: Setting, s: State, steps: seq<Step>)
    decreases |steps|
  {
    steps != [] ==> PolledStep(env, s, steps[0]) && PolledRun(env, Apply(s, steps[0]), steps[1..])
  }

  lemma {:induction false} PolledIsSystemRun(env: Setting, s: State, steps: seq<Step>)
    requires PolledRun(env, s, steps)
    ensures SystemRun(env, s, steps)
    decreases |steps|
  {
    if steps != [] {
      PolledIsSystemRun(env, Apply(s, steps[0]), steps[1..]);
    }
  }

  /** A polled run that is also disciplined when it starts from a disciplined state. */
  ghost predicate Schedule(env: Setting, s: State, steps: seq<Step>) {
    PolledRun(env, s, steps) && (DisciplinedInv(s) ==> DisciplinedRun(s, steps))
  }

  /** A polled step, disciplined if the state is. */
  ghost predicate Sound(env: Setting, s: State, step: Step) {
    PolledStep(env, s, step) && (DisciplinedInv(s) ==> DisciplinedStep(s, step))
  }

  lemma ScheduleOne(env: Setting, s: State, step: Step)
    requires Sound(env, s, step)
    ensures Schedule(env, s, [step]) && After(s, [step]) == Apply(s, step)
  {
    assert [step][1..] == [];
    assert After(Apply(s, step), []) == Apply(s, step);
  }

  lemma {:induction false} RunsConcat(env: Setting, s: State, a: seq<Step>, b: seq<Step>)
    ensures PolledRun(env, s, a) && PolledRun(env, After(s, a), b) ==> PolledRun(env, s, a + b)
    ensures DisciplinedRun(s, a) && DisciplinedRun(After(s, a), b) ==> DisciplinedRun(s, a + b)
    decreases |a|
  {
    if a == [] {
      assert a + b == b;
    } else {
      assert (a + b)[0] == a[0] && (a + b)[1..] == a[1..] + b;
      RunsConcat(env, Apply(s, a[0]), a[1..], b);
    }
  }

  lemma ScheduleConcat(env: Setting, s: State, a: seq<Step>, b: seq<Step>)
    requires Schedule(env, s, a) && Schedule(env, After(s, a), b)
    ensures Schedule(env, s, a + b) && After(s, a + b) == After(After(s, a), b)
  {
    RunsConcat(env, s, a, b);
    AfterConcat(s, a, b);
    if DisciplinedInv(s) {
      RunKeepsDiscipline(s, a);
    }
  }

  /** The second state differs from the first only in one job, now completed. */
  ghost predicate CompletesOnly(s: State, s': State, job: JobId) {
    && job in s.jobs && s'.now == s.now && s'.jobs.Keys == s.jobs.Keys
    && s'.jobs[job].row.status.Completed? && s'.jobs[job].row.queue == s.jobs[job].row.queue
    && forall k :: k in s.jobs && k != job ==> s'.jobs[k] == s.jobs[k]
  }

  // ---- a live execution can run to its end

  lemma TouchesOnly(s: State, job: JobId, e: Event)
    requires job in s.jobs && Single(e)
    ensures Apply(s, On(job, e)) == s.(jobs := s.jobs[job := Effect(s.jobs[job], s.now, e)])
  {
  }

  lemma ReportStarted(env: Setting, s: State, job: JobId, i: nat) returns (steps: seq<Step>)
    requires job in s.jobs && s.jobs[job].InPhase(i, Executing)
    ensures Schedule(env, s, steps) && CompletesOnly(s, After(s, steps), job)
  {
    TouchesOnly(s, job, Succeed(i));
    ScheduleOne(env, s, On(job, Succeed(i)));
    steps := [On(job, Succeed(i))];
  }

  lemma RunTask(env: Setting, s: State, job: JobId, i: nat) returns (steps: seq<Step>)
    requires job in s.jobs && i in s.jobs[job].Live()
    ensures Schedule(env, s, steps) && CompletesOnly(s, After(s, steps), job)
  {
    if s.jobs[job].tasks[i].phase.Waiting? {
      TouchesOnly(s, job, Start(i));
      ScheduleOne(env, s, On(job, Start(i)));
      var s' := Apply(s, On(job, Start(i)));
      var rest := ReportStarted(env, s', job, i);
      ScheduleConcat(env, s, [On(job, Start(i))], rest);
      steps := [On(job, Start(i))] + rest;
    } else {
      steps := ReportStarted(env, s, job, i);
    }
  }

  // ---- phase one: let every live execution of an unfinished job report

  ghost function Busy(s: State): set<JobId> {
    set j | j in s.jobs && !s.jobs[j].row.status.IsTerminal() && s.jobs[j].Live() != {}
  }

  /** What a phase of the schedule must not spoil. */
  ghost predicate Keeps(s: State, s': State) {
    && s'.jobs.Keys == s.jobs.Keys
    && (forall j :: j in s.jobs ==> s'.jobs[j].row.queue == s.jobs[j].row.queue)
    && (forall j :: j in s.jobs && s.jobs[j].row.status.IsTerminal() ==> s'.jobs[j].row.status.IsTerminal())
    && (forall j :: j in s.jobs && Wedged(s'.jobs[j]) ==> Wedged(s.jobs[j]))
  }

  lemma BlockedOnlyFromTheStart(env: Setting, s: State, s': State, queue: QueueId)
    requires Keeps(s, s') && Blocked(env, s', queue)
    ensures Blocked(env, s, queue)
  {
    forall j | j in WedgedIds(s', queue) ensures j in WedgedIds(s, queue) {
      assert j in s.jobs;
    }
    SubsetSize(WedgedIds(s', queue), WedgedIds(s, queue));
  }

  lemma CompletingKeeps(s: State, s': State, job: JobId)
    requires CompletesOnly(s, s', job)
    ensures Keeps(s, s')
    ensures Busy(s') == Busy(s) - {job}
    ensures Sorted(s) ==> Sorted(s')
  {
  }

  lemma KeepsTransitive(s: State, s1: State, s2: State)
    requires Keeps(s, s1) && Keeps(s1, s2)
    ensures Keeps(s, s2)
  {
  }

  lemma {:induction false} DrainBusy(env: Setting, s: State) returns (steps: seq<Step>)
    ensures Schedule(env, s, steps) && Keeps(s, After(s, steps)) && Busy(After(s, steps)) == {}
    ensures forall j :: j in Busy(s) ==> After(s, steps).jobs[j].row.status.IsTerminal()
    decreases |Busy(s)|
  {
    if Busy(s) == {} {
      steps := [];
    } else {
      var j :| j in Busy(s);
      var i :| i in s.jobs[j].Live();
      var first := RunTask(env, s, j, i);
      var s' := After(s, first);
      CompletingKeeps(s, s', j);
      var rest := DrainBusy(env, s');
      KeepsTransitive(s, s', After(s', rest));
      ScheduleConcat(env, s, first, rest);
      steps := first + rest;
    }
  }

  // ---- phase two: wait until every retry is due and every claim stale

  /** Late enough for every retry and every claim of the job. */
  predicate IsLateFor(r: Job, t: Time, timeout: Time) {
    && (r.nextRetryAt.Some? ==> r.nextRetryAt.value <= t)
    && (r.claimedAt.Some? ==> r.claimedAt.value < t - timeout)
  }

  lemma {:induction false} Horizon(s: State, timeout: Time, ids: set<JobId>) returns (t: Time)
    requires ids <= s.jobs.Keys
    ensures t >= s.now && forall j :: j in ids ==> IsLateFor(s.jobs[j].row, t, timeout)
    decreases |ids|
  {
    t := s.now;
    if ids != {} {
      var j :| j in ids;
      t := Horizon(s, timeout, ids - {j});
      var r := s.jobs[j].row;
      if r.nextRetryAt.Some? {
        t := MaxTime(t, r.nextRetryAt.value);
      }
      if r.claimedAt.Some? {
        t := MaxTime(t, r.claimedAt.value + timeout + 1.0);
      }
    }
  }

  /** Every job is queued, finished or wedged. */
  ghost predicate Sorted(s: State) {
    forall j :: j in s.jobs ==>
      s.jobs[j].row.status.Queued? || s.jobs[j].row.status.IsTerminal() || Wedged(s.jobs[j])
  }

  lemma LateRequeues(c: Cell, now: Time, timeout: Time)
    requires CellOpen(c) && (c.row.status.IsTerminal() || c.Live() == {}) && IsLateFor(c.row, now, timeout)
    ensures var c1 := Effect(c, now, Requeue); var c2 := Effect(c1, now, Recover(timeout));
            && c1.Live() == c.Live() && c2.Live() == c.Live() && c2.row.queue == c.row.queue
            && c1.row.status.IsTerminal() == c.row.status.IsTerminal()
            && (c2.row.status.Queued? || (c2.row == c.row && (c.row.status.IsTerminal() || Wedged(c))))
            && (c.row.status.IsTerminal() ==> c2.row == c.row)
  {
  }

  lemma LateRequeuesAll(s: State, t: Time, timeout: Time)
    requires OpenInv(s) && Busy(s) == {} && forall j :: j in s.jobs ==> IsLateFor(s.jobs[j].row, t, timeout)
    ensures var s3 := Apply(Apply(Apply(s, SetClock(t)), RequeueAll), RecoverAll(timeout));
            Keeps(s, s3) && Sorted(s3)
  {
    var s3 := Apply(Apply(Apply(s, SetClock(t)), RequeueAll), RecoverAll(timeout));
    forall j | j in s.jobs
      ensures s3.jobs[j].Live() == s.jobs[j].Live() && s3.jobs[j].row.queue == s.jobs[j].row.queue
      ensures s.jobs[j].row.status.IsTerminal() ==> s3.jobs[j].row == s.jobs[j].row
      ensures s3.jobs[j].row.status.Queued? ||
                (s3.jobs[j].row == s.jobs[j].row && (s.jobs[j].row.status.IsTerminal() || Wedged(s.jobs[j])))
    {
      assert j !in Busy(s);
      LateRequeues(s.jobs[j], t, timeout);
    }
  }

  lemma IdleRecoveryIsDisciplined(s: State, timeout: Time)
    requires DisciplinedInv(s) && Busy(s) == {}
    ensures DisciplinedStep(s, RecoverAll(timeout))
  {
    forall j | j in s.jobs ensures s.jobs[j].Live() == {} {
      assert j !in Busy(s);
      assert Exclusive(s.jobs[j]);
    }
  }

  lemma RequeueingWakesNobody(s: State, t: Time)
    requires Busy(s) == {}
    ensures Busy(Apply(Apply(s, SetClock(t)), RequeueAll)) == {}
  {
    var s2 := Apply(Apply(s, SetClock(t)), RequeueAll);
    forall j | j in s.jobs ensures j !in Busy(s2) {
      assert j !in Busy(s);
      assert s2.jobs[j].Live() == s.jobs[j].Live();
    }
  }

  lemma ThreeSteps(env: Setting, s: State, a: Step, b: Step, c: Step)
    requires Sound(env, s, a) && Sound(env, Apply(s, a), b) && Sound(env, Apply(Apply(s, a), b), c)
    ensures Schedule(env, s, [a] + [b] + [c])
    ensures After(s, [a] + [b] + [c]) == Apply(Apply(Apply(s, a), b), c)
  {
    ScheduleOne(env, s, a);
    ScheduleOne(env, Apply(s, a), b);
    ScheduleConcat(env, s, [a], [b]);
    ScheduleOne(env, Apply(Apply(s, a), b), c);
    ScheduleConcat(env, s, [a] + [b], [c]);
  }

  lemma LateStepsAreSound(env: Setting, s: State, t: Time)
    requires Busy(s) == {} && t >= s.now
    ensures Sound(env, s, SetClock(t)) && Sound(env, Apply(s, SetClock(t)), RequeueAll)
    ensures Sound(env, Apply(Apply(s, SetClock(t)), RequeueAll), RecoverAll(env.timeout))
  {
    RequeueingWakesNobody(s, t);
    var s2 := Apply(Apply(s, SetClock(t)), RequeueAll);
    if DisciplinedInv(s2) {
      IdleRecoveryIsDisciplined(s2, env.timeout);
    }
  }

  lemma RequeueEverything(env: Setting, s: State) returns (steps: seq<Step>)
    requires OpenInv(s) && Busy(s) == {}
    ensures Schedule(env, s, steps) && Keeps(s, After(s, steps)) && Sorted(After(s, steps))
  {
    var t := Horizon(s, env.timeout, s.jobs.Keys);
    LateRequeuesAll(s, t, env.timeout);
    LateStepsAreSound(env, s, t);
    ThreeSteps(env, s, SetClock(t), RequeueAll, RecoverAll(env.timeout));
    steps := [SetClock(t)] + [RequeueAll] + [RecoverAll(env.timeout)];
  }

  // ---- phase three: serve the queues that are not blocked, as polls do

  ghost function Backlog(env: Setting, s: State): set<JobId> {
    set j | j in s.jobs && s.jobs[j].row.status.Queued? && !Blocked(env, s, s.jobs[j].row.queue)
  }

  lemma {:induction false} BestOf(jobs: Table, pool: set<JobId>) returns (best: JobId)
    requires pool != {} && pool <= jobs.Keys
    ensures best in pool && forall j :: j in pool ==> !Before(jobs[j], jobs[best])
    decreases |pool|
  {
    var j :| j in pool;
    best := j;
    if pool - {j} != {} {
      var other := BestOf(jobs, pool - {j});
      best := if Before(jobs[j], jobs[other]) then j else other;
      forall k | k in pool ensures !Before(jobs[k], jobs[best]) {
        assert k == j || k in pool - {j};
      }
    } else {
      assert pool == {j};
    }
  }

  /** One of the jobs whose queue goes first. */
  lemma {:induction false} FirstServed(env: Setting, s: State, pool: set<JobId>) returns (first: JobId)
    requires pool != {} && pool <= s.jobs.Keys && forall j :: j in pool ==> s.jobs[j].row.queue in env.queues
    ensures first in pool
    ensures forall j :: j in pool ==>
              env.queues[s.jobs[j].row.queue].priority <= env.queues[s.jobs[first].row.queue].priority
    decreases |pool|
  {
    var j :| j in pool;
    first := j;
    if pool - {j} != {} {
      var other := FirstServed(env, s, pool - {j});
      if env.queues[s.jobs[other].row.queue].priority > env.queues[s.jobs[j].row.queue].priority {
        first := other;
      }
      forall k | k in pool
        ensures env.queues[s.jobs[k].row.queue].priority <= env.queues[s.jobs[first].row.queue].priority
      {
        assert k == j || k in pool - {j};
      }
    } else {
      assert pool == {j};
    }
  }

  lemma WedgedRowsRun(s: State, queue: QueueId)
    ensures |WedgedIds(s, queue)| <= |RunningIds(Rows(s), queue)|
    ensures Sorted(s) ==> |RunningIds(Rows(s), queue)| <= |WedgedIds(s, queue)|
  {
    SubsetSize(WedgedIds(s, queue), RunningIds(Rows(s), queue));
    if Sorted(s) {
      SubsetSize(RunningIds(Rows(s), queue), WedgedIds(s, queue));
    }
  }

  /** A queue blocked by wedged rows is at its limit; once only wedged rows run, an open
      queue is not. */
  lemma BlockedIsRefused(env: Setting, s: State, queue: QueueId)
    requires Keyed(env.queues)
    ensures Blocked(env, s, queue) ==> !Admits(env, s, queue)
    ensures Sorted(s) && !Blocked(env, s, queue) ==> Admits(env, s, queue)
  {
    WedgedRowsRun(s, queue);
  }

  lemma TurnComes(env: Setting, s: State, first: JobId)
    requires Keyed(env.queues) && Sorted(s) && first in Backlog(env, s)
    requires forall j :: j in Backlog(env, s) ==>
               env.queues[s.jobs[j].row.queue].priority <= env.queues[s.jobs[first].row.queue].priority
    ensures IsNext(env, s, s.jobs[first].row.queue) && Admits(env, s, s.jobs[first].row.queue)
  {
    var queue := s.jobs[first].row.queue;
    BlockedIsRefused(env, s, queue);
    forall q | GoesFirst(env.queues, queue, q)
      ensures AtLimit(Rows(s), env.queues[q]) || Drained(Rows(s), {}, q)
    {
      BlockedIsRefused(env, s, q);
      forall j | j in s.jobs && Claimable(Rows(s), {}, q, j) ensures AtLimit(Rows(s), env.queues[q]) {
        assert j !in Backlog(env, s);
      }
    }
  }

  lemma BestIsServed(env: Setting, s: State) returns (job: JobId)
    requires Keyed(env.queues) && Sorted(s) && Backlog(env, s) != {}
    ensures job in Backlog(env, s) && ServesBest(env, s, {job}) && Admits(env, s, s.jobs[job].row.queue)
  {
    var first := FirstServed(env, s, Backlog(env, s));
    TurnComes(env, s, first);
    var queue := s.jobs[first].row.queue;
    var pool := set j | j in s.jobs && Claimable(Rows(s), {}, queue, j);
    assert first in pool;
    job := BestOf(Rows(s), pool);
    assert IdSet([job]) == {job};
    assert TopK(Rows(s), {}, queue, |[job]|, [job]);
  }

  lemma ClaimAlone(s: State, worker: WorkerId, job: JobId)
    requires job in s.jobs && s.jobs[job].row.status.Queued?
    ensures var s' := Apply(s, ClaimBatch(worker, {job}, s.now));
            && s'.now == s.now && s'.jobs.Keys == s.jobs.Keys && s'.jobs[job].row.queue == s.jobs[job].row.queue
            && (forall k :: k in s.jobs && k != job ==> s'.jobs[k] == s.jobs[k])
            && |s.jobs[job].tasks| in s'.jobs[job].Live()
  {
  }

  lemma ServeOne(env: Setting, s: State, worker: WorkerId) returns (job: JobId, steps: seq<Step>)
    requires Keyed(env.queues) && Sorted(s) && Backlog(env, s) != {}
    ensures job in Backlog(env, s) && Schedule(env, s, steps) && CompletesOnly(s, After(s, steps), job)
  {
    job := BestIsServed(env, s);
    var claim := ClaimBatch(worker, {job}, s.now);
    assert DisciplinedStep(s, claim);
    ScheduleOne(env, s, claim);
    ClaimAlone(s, worker, job);
    var rest := RunTask(env, Apply(s, claim), job, |s.jobs[job].tasks|);
    ScheduleConcat(env, s, [claim], rest);
    steps := [claim] + rest;
  }

  lemma CompletingShrinksBacklog(env: Setting, s: State, s': State, job: JobId)
    requires CompletesOnly(s, s', job) && job in Backlog(env, s)
    ensures Backlog(env, s') == Backlog(env, s) - {job}
  {
    forall q ensures WedgedIds(s', q) == WedgedIds(s, q) {
    }
  }

  lemma {:induction false} ServeBacklog(env: Setting, s: State, worker: WorkerId) returns (steps: seq<Step>)
    requires Keyed(env.queues) && Sorted(s)
    ensures Schedule(env, s, steps) && Keeps(s, After(s, steps))
    ensures Sorted(After(s, steps)) && Backlog(env, After(s, steps)) == {}
    decreases |Backlog(env, s)|
  {
    if Backlog(env, s) == {} {
      steps := [];
    } else {
      var j, first := ServeOne(env, s, worker);
      var s' := After(s, first);
      CompletingKeeps(s, s', j);
      CompletingShrinksBacklog(env, s, s', j);
      var rest := ServeBacklog(env, s', worker);
      KeepsTransitive(s, s', After(s', rest));
      ScheduleConcat(env, s, first, rest);
      steps := first + rest;
    }
  }

  // ---- what can finish

  /** Open runs: from any reachable state one finite schedule of worker, scheduler and
      recovery steps - each claim the best rows of the queue whose turn it is - finishes
      every job that is not stuck; from a disciplined state it is itself disciplined. */
  lemma AllButStuckJobsFinish(env: Setting, s: State, worker: WorkerId) returns (steps: seq<Step>)
    requires OpenInv(s) && Keyed(env.queues)
    ensures Schedule(env, s, steps)
    ensures forall j :: j in s.jobs ==>
              && j in After(s, steps).jobs
              && (After(s, steps).jobs[j].row.status.IsTerminal() || Stuck(env, s, j))
  {
    var a := DrainBusy(env, s);
    var s1 := After(s, a);
    RunKeepsOpen(s, a);
    var b := RequeueEverything(env, s1);
    var s2 := After(s1, b);
    var c := ServeBacklog(env, s2, worker);
    ScheduleConcat(env, s, a, b);
    ScheduleConcat(env, s, a + b, c);
    steps := a + b + c;
    var s3 := After(s, steps);
    KeepsTransitive(s1, s2, s3);
    KeepsTransitive(s, s1, s3);
    forall j | j in s.jobs ensures s3.jobs[j].row.status.IsTerminal() || Stuck(env, s, j) {
      if !s3.jobs[j].row.status.IsTerminal() {
        LeftBehindIsStuck(env, s, s1, s3, j);
      }
    }
  }

  lemma LeftBehindIsStuck(env: Setting, s: State, s1: State, s3: State, job: JobId)
    requires job in s.jobs && Keeps(s, s1) && Keeps(s1, s3) && Keeps(s, s3)
    requires forall j :: j in Busy(s) ==> s1.jobs[j].row.status.IsTerminal()
    requires Sorted(s3) && Backlog(env, s3) == {} && !s3.jobs[job].row.status.IsTerminal()
    ensures Stuck(env, s, job)
  {
    assert job !in Busy(s);
    assert job !in Backlog(env, s3);
    if !Wedged(s3.jobs[job]) {
      BlockedOnlyFromTheStart(env, s, s3, s.jobs[job].row.queue);
    }
  }

  // ---- what cannot

  lemma StepKeepsWedged(s: State, step: Step, job: JobId)
    requires job in s.jobs && Wedged(s.jobs[job]) && EventAt(step, job) !in {Some(Retry), Some(Replay)}
    ensures job in Apply(s, step).jobs
    ensures Wedged(Apply(s, step).jobs[job]) && Apply(s, step).jobs[job].row == s.jobs[job].row
  {
    var e := EventAt(step, job);
    if e.Some? && CanOccur(s.jobs[job], s.now, e.value) {
      TasksMove(s.jobs[job], s.now, e.value);
      ReporterIsLive(s.jobs[job], s.now, e.value);
    }
  }

  /** Open runs: nothing but an operator's retry or replay ever changes a wedged row. */
  lemma {:induction false} WedgedStaysWedged(s: State, steps: seq<Step>, job: JobId)
    requires job in s.jobs && Wedged(s.jobs[job]) && OperatorFree(steps, job)
    ensures job in After(s, steps).jobs
    ensures Wedged(After(s, steps).jobs[job]) && After(s, steps).jobs[job].row == s.jobs[job].row
    decreases |steps|
  {
    if steps != [] {
      StepKeepsWedged(s, steps[0], job);
      WedgedStaysWedged(Apply(s, steps[0]), steps[1..], job);
    }
  }

  lemma StepKeepsBlocked(env: Setting, s: State, step: Step, queue: QueueId)
    requires SystemStep(env, s, step) && Blocked(env, s, queue)
    ensures Blocked(env, Apply(s, step), queue)
  {
    forall j | j in WedgedIds(s, queue) ensures j in WedgedIds(Apply(s, step), queue) {
      StepKeepsWedged(s, step, j);
    }
    SubsetSize(WedgedIds(s, queue), WedgedIds(Apply(s, step), queue));
  }

  /** A stuck job is not claimed, and nothing else moves it out of the table's reach. */
  lemma EventKeepsIdle(c: Cell, now: Time, e: Event)
    requires !c.row.status.IsTerminal() && c.Live() == {}
    requires !e.Claim? && !e.Cancel? && !e.Retry? && !e.Replay?
    ensures var c' := Effect(c, now, e);
            !c'.row.status.IsTerminal() && c'.Live() == {} && c'.row.queue == c.row.queue
  {
    ReporterIsLive(c, now, e);
    if CanOccur(c, now, e) {
      TasksMove(c, now, e);
    }
  }

  lemma StepKeepsStuck(env: Setting, s: State, step: Step, job: JobId)
    requires Keyed(env.queues) && SystemStep(env, s, step) && job in s.jobs && Stuck(env, s, job)
    ensures job in Apply(s, step).jobs && Stuck(env, Apply(s, step), job)
  {
    var queue, e := s.jobs[job].row.queue, EventAt(step, job);
    if Wedged(s.jobs[job]) {
      StepKeepsWedged(s, step, job);
    } else {
      StepKeepsBlocked(env, s, step, queue);
      BlockedIsRefused(env, s, queue);
      if e.Some? {
        EventKeepsIdle(s.jobs[job], s.now, e.value);
      }
    }
  }

  lemma {:induction false} StuckStaysStuck(env: Setting, s: State, steps: seq<Step>, job: JobId)
    requires Keyed(env.queues) && SystemRun(env, s, steps) && job in s.jobs && Stuck(env, s, job)
    ensures job in After(s, steps).jobs && Stuck(env, After(s, steps), job)
    decreases |steps|
  {
    if steps != [] {
      StepKeepsStuck(env, s, steps[0], job);
      StuckStaysStuck(env, Apply(s, steps[0]), steps[1..], job);
    }
  }

  // ---- the theorems

  ghost predicate CanFinish(env: Setting, s: State, job: JobId) {
    exists steps :: SystemRun(env, s, steps) &&
      job in After(s, steps).jobs && After(s, steps).jobs[job].row.status.IsTerminal()
  }

  /** Open runs: the system can finish a job without an operator exactly when the job is
      not stuck: it is finished already, or has a live execution, or is not wedged and its
      queue is not paused and has fewer wedged rows than its limit, if it has one. */
  lemma FinishesExactlyUnlessStuck(env: Setting, s: State, job: JobId)
    requires Reachable(s) && job in s.jobs && Keyed(env.queues)
    ensures CanFinish(env, s, job) <==> !Stuck(env, s, job)
  {
    ReachableIsOpen(s);
    if Stuck(env, s, job) {
      forall steps | SystemRun(env, s, steps)
        ensures job in After(s, steps).jobs && !After(s, steps).jobs[job].row.status.IsTerminal()
      {
        StuckStaysStuck(env, s, steps, job);
      }
    } else {
      var steps := AllButStuckJobsFinish(env, s, 0);
      PolledIsSystemRun(env, s, steps);
    }
  }

  /** Disciplined runs: while no queue that has jobs is paused, no job is ever stuck. From
      every reachable state a finite, disciplined schedule without operators brings all
      jobs to a terminal status, serving queues and rows in order. */
  lemma EveryJobCanFinish(env: Setting, s: State, worker: WorkerId) returns (steps: seq<Step>)
    requires DisciplinedReachable(s) && Keyed(env.queues)
    requires forall j :: j in s.jobs ==>
               s.jobs[j].row.queue in env.queues && !env.queues[s.jobs[j].row.queue].isPaused
    ensures PolledRun(env, s, steps) && DisciplinedRun(s, steps)
    ensures forall j :: j in s.jobs ==> j in After(s, steps).jobs && After(s, steps).jobs[j].row.status.IsTerminal()
  {
    ReachableIsDisciplined(s);
    steps := AllButStuckJobsFinish(env, s, worker);
    forall j | j in s.jobs ensures !Stuck(env, s, j) {
      NothingWedges(s, s.jobs[j].row.queue);
      assert !Wedged(s.jobs[j]);
    }
  }

  lemma NothingWedges(s: State, queue: QueueId)
    requires DisciplinedInv(s)
    ensures WedgedIds(s, queue) == {} && forall j :: j in s.jobs ==> !Wedged(s.jobs[j])
  {
    forall j | j in s.jobs ensures !Wedged(s.jobs[j]) {
      assert CellDisciplined(s.jobs[j]);
    }
  }

  /** Open runs: a job waiting for its retry is queued by a pass of the scheduler exactly
      when the time recorded in its row has come. */
  lemma RetriesComeBackOnTime(s: State, job: JobId, t: Time)
    requires Reachable(s) && job in s.jobs && s.jobs[job].row.status.RetryScheduled?
    ensures s.jobs[job].row.nextRetryAt.Some?
    ensures Apply(Apply(s, SetClock(t)), RequeueAll).jobs[job].row.status.Queued? <==>
              s.jobs[job].row.nextRetryAt.value <= t
  {
    RowsStayConsistent(s, job);
  }

  /** Disciplined runs: a job whose execution is gone without a report is queued by a
      recovery pass exactly when its recorded claim has outlived the timeout. */
  lemma AbandonedJobsComeBackOnTime(s: State, job: JobId, timeout: Time, t: Time)
    requires DisciplinedReachable(s) && job in s.jobs
    requires s.jobs[job].row.status.IsHeld() && s.jobs[job].Live() == {}
    ensures s.jobs[job].row.claimedAt.Some?
    ensures Apply(Apply(s, SetClock(t)), RecoverAll(timeout)).jobs[job].row.status.Queued? <==>
              s.jobs[job].row.claimedAt.value < t - timeout
  {
    ReachableIsDisciplined(s);
  }
}
