/** The whole job system as a transition system: many jobs, workers, a scheduler and
    operators, each committed transaction one step. */
module Protocol {
  import opened Types
  import opened Retry
  import opened Lifecycle

  datatype State = State(now: Time, jobs: map<JobId, Cell>)

  datatype Step =
    | SetClock(now: Time)
    | Create(job: JobId, name: string, queue: QueueId, payload: string, priority: int,
             maxAttempts: int, policy: Option<RetryPolicy>)
    | ClaimBatch(worker: WorkerId, ids: set<JobId>, at: Time)
    | RequeueAll
    | RecoverAll(timeout: Time)
    | CrashWorker(worker: WorkerId)
    | On(target: JobId, event: Event)

  /** Events that arrive for one job at a time. */
  predicate Single(e: Event) {
    !(e.Claim? || e.Crash? || e.Requeue? || e.Recover?)
  }

  /** What a step means for one job. */
  function EventAt(step: Step, job: JobId): Option<Event> {
    match step
    case ClaimBatch(worker, ids, at) => if job in ids then Some(Claim(worker, at)) else None
    case RequeueAll => Some(Requeue)
    case RecoverAll(timeout) => Some(Recover(timeout))
    case CrashWorker(worker) => Some(Crash(worker))
    case On(target, event) => if target == job && Single(event) then Some(event) else None
    case _ => None
  }

  function CellAfter(c: Cell, now: Time, e: Option<Event>): Cell {
    if e.Some? then Effect(c, now, e.value) else c
  }

  /** One step. A bulk statement reaches every job; a step that no row or task
      qualifies for changes nothing. */
  function Apply(s: State, step: Step): State {
    match step
    case SetClock(now) => s.(now := now)
    case Create(job, name, queue, payload, priority, maxAttempts, policy) =>
      if job in s.jobs then s else
      s.(jobs := s.jobs[job := FreshCell(EnqueuedRow(name, queue, payload, priority, maxAttempts, s.now), policy)])
    case _ =>
      s.(jobs := map j | j in s.jobs :: CellAfter(s.jobs[j], s.now, EventAt(step, j)))
  }

  function After(s: State, steps: seq<Step>): State
    decreases |steps|
  {
    if steps == [] then s else After(Apply(s, steps[0]), steps[1..])
  }

  /** The jobs table. */
  function Rows(s: State): map<JobId, Job> {
    map j | j in s.jobs :: s.jobs[j].row
  }

  /** The empty database: every run starts here. */
  function Empty(now: Time): State {
    State(now, map[])
  }

  ghost predicate Reachable(s: State) {
    exists start, steps :: s == After(Empty(start), steps)
  }

  // ---- regimes

  /** Clocks do not go backwards. */
  predicate ForwardStep(s: State, step: Step) {
    step.SetClock? ==> s.now <= step.now
  }

  ghost predicate ForwardRun(s: State, steps: seq<Step>)
    decreases |steps|
  {
    steps != [] ==> ForwardStep(s, steps[0]) && ForwardRun(Apply(s, steps[0]), steps[1..])
  }

  /** Operators re-queue only dead jobs, and recovery finds no execution of the job
      that was claimed longer ago than the timeout. */
  ghost predicate DisciplinedEvent(c: Cell, now: Time, e: Event) {
    match e
    case Retry => c.row.status.Dead?
    case Replay => c.row.status.Dead?
    case Recover(timeout) => forall i :: i in c.Live() ==> c.tasks[i].claimedAt >= now - timeout
    case _ => true
  }

  ghost predicate DisciplinedStep(s: State, step: Step) {
    ForwardStep(s, step) &&
    forall j :: j in s.jobs && EventAt(step, j).Some? ==>
      DisciplinedEvent(s.jobs[j], s.now, EventAt(step, j).value)
  }

  ghost predicate DisciplinedRun(s: State, steps: seq<Step>)
    decreases |steps|
  {
    steps != [] ==> DisciplinedStep(s, steps[0]) && DisciplinedRun(Apply(s, steps[0]), steps[1..])
  }

  ghost predicate ForwardReachable(s: State) {
    exists start, steps :: ForwardRun(Empty(start), steps) && s == After(Empty(start), steps)
  }

  ghost predicate DisciplinedReachable(s: State) {
    exists start, steps :: DisciplinedRun(Empty(start), steps) && s == After(Empty(start), steps)
  }

  /** What a job is asked to do never changes. */
  predicate SameIdentity(a: Job, b: Job) {
    && a.name == b.name && a.queue == b.queue && a.payload == b.payload && a.priority == b.priority
    && a.maxAttempts == b.maxAttempts && a.createdAt == b.createdAt
  }

  lemma EventKeepsIdentity(c: Cell, now: Time, e: Event)
    ensures SameIdentity(c.row, Effect(c, now, e).row) && Effect(c, now, e).policy == c.policy
  {
  }

  lemma {:induction false} IdentityIsKept(s: State, steps: seq<Step>, job: JobId)
    requires job in s.jobs
    ensures job in After(s, steps).jobs
    ensures SameIdentity(s.jobs[job].row, After(s, steps).jobs[job].row)
    ensures s.jobs[job].policy == After(s, steps).jobs[job].policy
    decreases |steps|
  {
    if steps != [] {
      if EventAt(steps[0], job).Some? {
        EventKeepsIdentity(s.jobs[job], s.now, EventAt(steps[0], job).value);
      }
      IdentityIsKept(Apply(s, steps[0]), steps[1..], job);
    }
  }

  lemma {:induction false} AfterConcat(s: State, a: seq<Step>, b: seq<Step>)
    ensures After(s, a + b) == After(After(s, a), b)
    decreases |a|
  {
    if a == [] {
      assert a + b == b;
    } else {
      assert (a + b)[0] == a[0] && (a + b)[1..] == a[1..] + b;
      AfterConcat(Apply(s, a[0]), a[1..], b);
    }
  }

  lemma ReachableAfter(s: State, steps: seq<Step>)
    requires Reachable(s)
    ensures Reachable(After(s, steps))
  {
    var start, before :| s == After(Empty(start), before);
    AfterConcat(Empty(start), before, steps);
  }
}
