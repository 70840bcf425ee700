/** The claim budget of apps/worker/process.py across a fleet: polls ask for a batch,
    executions finish while the claim is under way, workers crash - and the counter each
    worker keeps still is the number of its live executions, never above its batch size. */
module Fleet {
  import opened Types
  import opened Lifecycle
  import opened Protocol

  /** A worker process: its batch size, its _active_jobs, and the batch its poll has
      requested but not yet received. */
  datatype Proc = Proc(batch: nat, active: int, asked: Option<int>)
  {
    function Reserved(): int {
      active + (if asked.Some? then asked.value else 0)
    }
  }

  datatype FState = FState(sys: State, procs: map<WorkerId, Proc>)

  datatype FStep =
    | Boot(worker: WorkerId, batch: nat)
    | Ask(worker: WorkerId)
    | Take(worker: WorkerId, ids: set<JobId>, at: Time)
    | Drop(worker: WorkerId)
    | Sys(step: Step)

  /** The live executions of a worker, wherever in the table they are. */
  ghost function LiveOf(s: State, worker: WorkerId): set<(JobId, nat)> {
    set j, i | j in s.jobs && i in s.jobs[j].Live() && s.jobs[j].tasks[i].worker == worker :: (j, i)
  }

  ghost function AllLive(s: State): set<(JobId, nat)> {
    set j, i | j in s.jobs && i in s.jobs[j].Live() :: (j, i)
  }

  ghost predicate Unknown(s: State, worker: WorkerId) {
    LiveOf(s, worker) == {}
  }

  ghost predicate FLegal(f: FState, step: FStep) {
    match step
    case Boot(worker, _) => worker !in f.procs && Unknown(f.sys, worker)
    // remaining = batch size - _active_jobs, and nothing is asked for unless it is positive
    case Ask(worker) =>
      worker in f.procs && f.procs[worker].asked.None? && f.procs[worker].active < f.procs[worker].batch
    case Take(worker, ids, _) =>
      && worker in f.procs && f.procs[worker].asked.Some? && |ids| <= f.procs[worker].asked.value
      && (forall j :: j in ids ==> j in f.sys.jobs && f.sys.jobs[j].row.status.Queued?)
    // the claim transaction failed; the poll ends
    case Drop(worker) => worker in f.procs
    case Sys(step) => !step.ClaimBatch?
  }

  /** The worker whose execution the step brings to an end, if it does. */
  function Ends(s: State, step: Step): Option<WorkerId> {
    if step.On? && step.target in s.jobs && CanOccur(s.jobs[step.target], s.now, step.event) &&
       (step.event.Succeed? || step.event.Fail? || step.event.Abandon?)
    then Some(s.jobs[step.target].tasks[step.event.task].worker)
    else None
  }

  function Settle(procs: map<WorkerId, Proc>, s: State, step: Step): map<WorkerId, Proc> {
    if step.CrashWorker? then procs - {step.worker} else
    var w := Ends(s, step);
    if w.Some? && w.value in procs
    then procs[w.value := procs[w.value].(active := procs[w.value].active - 1)]
    else procs
  }

  function FApply(f: FState, step: FStep): FState {
    match step
    case Boot(worker, batch) => f.(procs := f.procs[worker := Proc(batch, 0, None)])
    case Ask(worker) =>
      if worker !in f.procs then f else
      var p := f.procs[worker];
      f.(procs := f.procs[worker := p.(asked := Some(p.batch - p.active))])
    case Take(worker, ids, at) =>
      if worker !in f.procs then f else
      var p := f.procs[worker];
      FState(Apply(f.sys, ClaimBatch(worker, ids, at)),
             f.procs[worker := p.(active := p.active + |ids|, asked := None)])
    case Drop(worker) =>
      if worker !in f.procs then f else f.(procs := f.procs[worker := f.procs[worker].(asked := None)])
    case Sys(step) => FState(Apply(f.sys, step), Settle(f.procs, f.sys, step))
  }

  ghost predicate FRun(f: FState, steps: seq<FStep>)
    decreases |steps|
  {
    steps != [] ==> FLegal(f, steps[0]) && FRun(FApply(f, steps[0]), steps[1..])
  }

  function FAfter(f: FState, steps: seq<FStep>): FState
    decreases |steps|
  {
    if steps == [] then f else FAfter(FApply(f, steps[0]), steps[1..])
  }

  predicate Fits(p: Proc, live: set<(JobId, nat)>) {
    && p.active == |live| && p.active <= p.Reserved() <= p.batch
    && (p.asked.Some? ==> p.asked.value > 0)
  }

  ghost predicate Budgeted(f: FState) {
    && (forall w :: w in f.procs ==> Fits(f.procs[w], LiveOf(f.sys, w)))
    && (forall w :: w !in f.procs ==> Unknown(f.sys, w))
  }

  // ---- how steps move a worker's executions

  ghost function NewTasks(s: State, ids: set<JobId>): set<(JobId, nat)>
    requires ids <= s.jobs.Keys
  {
    set j | j in ids :: (j, |s.jobs[j].tasks|)
  }

  lemma ClaimAddsOne(s: State, worker: WorkerId, ids: set<JobId>, at: Time, j: JobId)
    requires j in s.jobs && (j in ids ==> s.jobs[j].row.status.Queued?)
    ensures var c, c' := s.jobs[j], Apply(s, ClaimBatch(worker, ids, at)).jobs[j];
            && c'.Live() == c.Live() + (if j in ids then {|c.tasks|} else {})
            && (forall i :: i in c.Live() ==> c'.tasks[i] == c.tasks[i])
            && (j in ids ==> c'.tasks[|c.tasks|].worker == worker)
  {
    if j in ids {
      TasksMove(s.jobs[j], s.now, Claim(worker, at));
    }
  }

  lemma ClaimMembers(s: State, worker: WorkerId, ids: set<JobId>, at: Time, w: WorkerId, p: (JobId, nat))
    requires forall j :: j in ids ==> j in s.jobs && s.jobs[j].row.status.Queued?
    ensures p in LiveOf(Apply(s, ClaimBatch(worker, ids, at)), w) <==>
              p in LiveOf(s, w) || (w == worker && p in NewTasks(s, ids))
    ensures p in NewTasks(s, ids) ==> p !in LiveOf(s, w)
  {
    if p.0 in s.jobs {
      ClaimAddsOne(s, worker, ids, at, p.0);
    }
  }

  lemma ClaimGrows(s: State, worker: WorkerId, ids: set<JobId>, at: Time, w: WorkerId)
    requires forall j :: j in ids ==> j in s.jobs && s.jobs[j].row.status.Queued?
    ensures var s' := Apply(s, ClaimBatch(worker, ids, at));
            |LiveOf(s', w)| == |LiveOf(s, w)| + (if w == worker then |ids| else 0)
  {
    var before, after := LiveOf(s, w), LiveOf(Apply(s, ClaimBatch(worker, ids, at)), w);
    var added := if w == worker then NewTasks(s, ids) else {};
    forall p ensures p in after <==> p in before || p in added {
      ClaimMembers(s, worker, ids, at, w, p);
    }
    forall p | p in added ensures p !in before {
      ClaimMembers(s, worker, ids, at, w, p);
    }
    SameSize(ids, NewTasks(s, ids), s);
    UnionSize(before, added, after);
  }

  lemma UnionSize<T>(a: set<T>, b: set<T>, c: set<T>)
    requires a !! b && forall x :: x in c <==> x in a || x in b
    ensures |c| == |a| + |b|
  {
    assert c == a + b;
  }

  lemma {:induction false} SameSize(ids: set<JobId>, pairs: set<(JobId, nat)>, s: State)
    requires ids <= s.jobs.Keys && pairs == NewTasks(s, ids)
    ensures |pairs| == |ids|
    decreases |ids|
  {
    if ids != {} {
      var j :| j in ids;
      SameSize(ids - {j}, pairs - {(j, |s.jobs[j].tasks|)}, s);
    }
  }

  lemma EndedTask(s: State, step: Step)
    requires Ends(s, step).Some?
    ensures var job, i, s' := step.target, step.event.task, Apply(s, step);
            && s'.jobs.Keys == s.jobs.Keys
            && i in s.jobs[job].Live() && Ends(s, step) == Some(s.jobs[job].tasks[i].worker)
            && s'.jobs[job].Live() == s.jobs[job].Live() - {i}
            && (forall k :: k in s'.jobs[job].Live() ==> s'.jobs[job].tasks[k] == s.jobs[job].tasks[k])
            && (forall j :: j in s.jobs && j != job ==> s'.jobs[j] == s.jobs[j])
  {
    TasksMove(s.jobs[step.target], s.now, step.event);
    ReporterIsLive(s.jobs[step.target], s.now, step.event);
  }

  lemma EndMembers(s: State, step: Step, w: WorkerId, p: (JobId, nat))
    requires Ends(s, step).Some?
    ensures p in LiveOf(Apply(s, step), w) <==> p in LiveOf(s, w) && p != (step.target, step.event.task)
    ensures (step.target, step.event.task) in LiveOf(s, w) <==> Ends(s, step) == Some(w)
  {
    EndedTask(s, step);
  }

  lemma EndShrinks(s: State, step: Step, w: WorkerId)
    requires Ends(s, step).Some?
    ensures |LiveOf(Apply(s, step), w)| == |LiveOf(s, w)| - (if Ends(s, step) == Some(w) then 1 else 0)
  {
    var before, after := LiveOf(s, w), LiveOf(Apply(s, step), w);
    var ended := (step.target, step.event.task);
    EndMembers(s, step, w, ended);
    forall p ensures p in after <==> p in before - {ended} {
      EndMembers(s, step, w, p);
    }
    assert after == before - {ended};
  }

  lemma CrashClears(s: State, worker: WorkerId, w: WorkerId)
    ensures LiveOf(Apply(s, CrashWorker(worker)), w) == if w == worker then {} else LiveOf(s, w)
  {
    var s' := Apply(s, CrashWorker(worker));
    forall j | j in s.jobs
      ensures s'.jobs[j].Live() == set i | i in s.jobs[j].Live() && s.jobs[j].tasks[i].worker != worker
    {
      TasksMove(s.jobs[j], s.now, Crash(worker));
    }
  }

  lemma OthersKeep(s: State, step: Step, w: WorkerId)
    requires !step.ClaimBatch? && !step.CrashWorker? && Ends(s, step).None?
    ensures LiveOf(Apply(s, step), w) == LiveOf(s, w)
  {
    var s' := Apply(s, step);
    forall j | j in s.jobs ensures s'.jobs[j].Live() == s.jobs[j].Live() {
      var e := EventAt(step, j);
      if e.Some? && CanOccur(s.jobs[j], s.now, e.value) {
        TasksMove(s.jobs[j], s.now, e.value);
      }
    }
    forall j | j in s'.jobs && j !in s.jobs ensures s'.jobs[j].Live() == {} {
    }
  }

  lemma StepKeepsBudget(f: FState, step: FStep)
    requires Budgeted(f) && FLegal(f, step)
    ensures Budgeted(FApply(f, step))
  {
    var f' := FApply(f, step);
    forall w
      ensures w in f'.procs ==> Fits(f'.procs[w], LiveOf(f'.sys, w))
      ensures w !in f'.procs ==> Unknown(f'.sys, w)
    {
      match step {
        case Take(worker, ids, at) => ClaimGrows(f.sys, worker, ids, at, w);
        case Sys(step) =>
          if step.CrashWorker? {
            CrashClears(f.sys, step.worker, w);
          } else if Ends(f.sys, step).Some? {
            EndShrinks(f.sys, step, w);
          } else {
            OthersKeep(f.sys, step, w);
          }
        case _ =>
      }
    }
  }

  lemma {:induction false} RunKeepsBudget(f: FState, steps: seq<FStep>)
    requires Budgeted(f) && FRun(f, steps)
    ensures Budgeted(FAfter(f, steps))
    decreases |steps|
  {
    if steps != [] {
      StepKeepsBudget(f, steps[0]);
      RunKeepsBudget(FApply(f, steps[0]), steps[1..]);
    }
  }

  // ---- the theorems

  /** With polls, claims, finishes, failures and crashes interleaved in any way, a worker's
      counter is the number of its live executions, and together with the batch it is
      waiting for it stays within its batch size; it never waits for an empty batch. */
  lemma CounterIsExact(start: Time, steps: seq<FStep>, worker: WorkerId)
    requires FRun(FState(Empty(start), map[]), steps)
    requires worker in FAfter(FState(Empty(start), map[]), steps).procs
    ensures var f := FAfter(FState(Empty(start), map[]), steps);
            && f.procs[worker].active == |LiveOf(f.sys, worker)|
            && f.procs[worker].Reserved() <= f.procs[worker].batch
            && (f.procs[worker].asked.Some? ==> f.procs[worker].asked.value > 0)
  {
    EmptyIsBudgeted(start);
    RunKeepsBudget(FState(Empty(start), map[]), steps);
  }

  lemma EmptyIsBudgeted(start: Time)
    ensures Budgeted(FState(Empty(start), map[]))
  {
  }

  ghost function TotalBatch(procs: map<WorkerId, Proc>): nat
    decreases |procs|
  {
    if procs == map[] then 0 else
    var w :| w in procs;
    procs[w].batch + TotalBatch(procs - {w})
  }

  ghost function LiveAmong(s: State, workers: set<WorkerId>): set<(JobId, nat)> {
    set j, i | j in s.jobs && i in s.jobs[j].Live() && s.jobs[j].tasks[i].worker in workers :: (j, i)
  }

  lemma {:induction false} FleetFits(s: State, procs: map<WorkerId, Proc>)
    requires forall w :: w in procs ==> |LiveOf(s, w)| <= procs[w].batch
    ensures |LiveAmong(s, procs.Keys)| <= TotalBatch(procs)
    decreases |procs|
  {
    if procs == map[] {
      assert LiveAmong(s, procs.Keys) == {};
    } else {
      var w :| w in procs && TotalBatch(procs) == procs[w].batch + TotalBatch(procs - {w});
      FleetFits(s, procs - {w});
      assert LiveAmong(s, procs.Keys) == LiveOf(s, w) + LiveAmong(s, (procs - {w}).Keys);
    }
  }

  /** Fleet-wide, the live executions never exceed the batch sizes of the live workers. */
  lemma FleetNeverOverdraws(start: Time, steps: seq<FStep>)
    requires FRun(FState(Empty(start), map[]), steps)
    ensures var f := FAfter(FState(Empty(start), map[]), steps); |AllLive(f.sys)| <= TotalBatch(f.procs)
  {
    EmptyIsBudgeted(start);
    RunKeepsBudget(FState(Empty(start), map[]), steps);
    var f := FAfter(FState(Empty(start), map[]), steps);
    forall w | w in f.procs ensures |LiveOf(f.sys, w)| <= f.procs[w].batch {
      assert Fits(f.procs[w], LiveOf(f.sys, w));
    }
    forall j, i | j in f.sys.jobs && i in f.sys.jobs[j].Live() ensures f.sys.jobs[j].tasks[i].worker in f.procs {
      var w := f.sys.jobs[j].tasks[i].worker;
      assert (j, i) in LiveOf(f.sys, w);
    }
    assert AllLive(f.sys) == LiveAmong(f.sys, f.procs.Keys);
    FleetFits(f.sys, f.procs);
  }
}
