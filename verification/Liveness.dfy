/** Worker liveness, packages/db/repositories/worker_repo.py: registration, heartbeats,
    shutdown and the detection of lost workers, with the event log they write. Detection
    reads the overdue workers first and marks them lost later in the same transaction;
    other transactions, other detections among them, may commit in between. */
module Liveness {
  import opened Types
  import opened Claiming

  datatype WorkerStatus = Online | Lost | Offline

  datatype WorkerRow = WorkerRow(
    name: string,
    project: nat,
    status: WorkerStatus,
    lastHeartbeatAt: Option<Time>,
    stoppedAt: Option<Time>)

  datatype EventType = StartedEvent | LostEvent | StoppedEvent

  datatype WorkerEvent = WorkerEvent(worker: WorkerId, kind: EventType)

  type DetectionId = nat

  /** The workers table, its event log, and the detections that have read but not yet
      written. */
  datatype Registry = Registry(
    now: Time,
    workers: map<WorkerId, WorkerRow>,
    events: seq<WorkerEvent>,
    pending: map<DetectionId, seq<WorkerId>>)

  datatype LiveStep =
    | Clock(now: Time)
    | Register(worker: WorkerId, name: string, project: nat, beat: Option<Time>)
    | Beat(worker: WorkerId)
    | Stop(worker: WorkerId)
    | Scan(detection: DetectionId, timeout: Time, ids: seq<WorkerId>)
    | Report(detection: DetectionId)

  predicate Overdue(r: WorkerRow, cutoff: Time) {
    r.status.Online? && r.lastHeartbeatAt.Some? && r.lastHeartbeatAt.value < cutoff
  }

  function OverdueIds(workers: map<WorkerId, WorkerRow>, cutoff: Time): set<WorkerId> {
    set w | w in workers && Overdue(workers[w], cutoff)
  }

  predicate Lists(ids: seq<WorkerId>, all: set<WorkerId>) {
    Distinct(ids) && IdSet(ids) == all
  }

  function MarkedLost(workers: map<WorkerId, WorkerRow>, ids: set<WorkerId>): map<WorkerId, WorkerRow> {
    map w | w in workers :: if w in ids then workers[w].(status := Lost) else workers[w]
  }

  function LostEvents(ids: seq<WorkerId>): seq<WorkerEvent> {
    seq(|ids|, k requires 0 <= k < |ids| => WorkerEvent(ids[k], LostEvent))
  }

  predicate LiveLegal(r: Registry, step: LiveStep) {
    match step
    case Clock(now) => r.now <= now
    case Register(worker, _, _, _) => worker !in r.workers
    case Scan(d, timeout, ids) => d !in r.pending && Lists(ids, OverdueIds(r.workers, r.now - timeout))
    case Report(d) => d in r.pending
    case _ => true
  }

  /** Events and heartbeats refer to their worker: for an unknown one the statement is
      refused and nothing changes. */
  function LivePerform(r: Registry, step: LiveStep): Registry {
    match step
    case Clock(now) => r.(now := now)
    case Register(w, name, project, beat) =>
      r.(workers := r.workers[w := WorkerRow(name, project, Online, beat, None)],
         events := r.events + [WorkerEvent(w, StartedEvent)])
    case Beat(w) =>
      if w !in r.workers then r else
      r.(workers := r.workers[w := r.workers[w].(lastHeartbeatAt := Some(r.now))])
    case Stop(w) =>
      if w !in r.workers then r else
      r.(workers := r.workers[w := r.workers[w].(status := Offline, stoppedAt := Some(r.now))],
         events := r.events + [WorkerEvent(w, StoppedEvent)])
    case Scan(d, _, ids) => r.(pending := r.pending[d := ids])
    case Report(d) =>
      if d !in r.pending then r else
      r.(workers := MarkedLost(r.workers, IdSet(r.pending[d])),
         events := r.events + LostEvents(r.pending[d]),
         pending := r.pending - {d})
  }

  ghost predicate LiveRun(r: Registry, steps: seq<LiveStep>)
    decreases |steps|
  {
    steps != [] ==> LiveLegal(r, steps[0]) && LiveRun(LivePerform(r, steps[0]), steps[1..])
  }

  function LiveAfter(r: Registry, steps: seq<LiveStep>): Registry
    decreases |steps|
  {
    if steps == [] then r else LiveAfter(LivePerform(r, steps[0]), steps[1..])
  }

  function NoWorkers(now: Time): Registry {
    Registry(now, map[], [], map[])
  }

  // ---- reading the event log

  function MeaningOf(kind: EventType): WorkerStatus {
    match kind
    case StartedEvent => Online
    case LostEvent => Lost
    case StoppedEvent => Offline
  }

  /** The status the log gives a worker: what its latest event means. */
  function LogStatus(events: seq<WorkerEvent>, worker: WorkerId): Option<WorkerStatus> {
    if events == [] then None else
    var n := |events| - 1;
    if events[n].worker == worker then Some(MeaningOf(events[n].kind)) else LogStatus(events[..n], worker)
  }

  function LostCount(events: seq<WorkerEvent>, worker: WorkerId): nat {
    if events == [] then 0 else
    var n := |events| - 1;
    LostCount(events[..n], worker) + (if events[n] == WorkerEvent(worker, LostEvent) then 1 else 0)
  }

  lemma LogAppend(events: seq<WorkerEvent>, e: WorkerEvent, worker: WorkerId)
    ensures LogStatus(events + [e], worker) ==
              if e.worker == worker then Some(MeaningOf(e.kind)) else LogStatus(events, worker)
    ensures LostCount(events + [e], worker) ==
              LostCount(events, worker) + (if e == WorkerEvent(worker, LostEvent) then 1 else 0)
  {
    assert (events + [e])[..|events|] == events;
  }

  lemma LostEventsSplit(events: seq<WorkerEvent>, ids: seq<WorkerId>)
    requires ids != []
    ensures events + LostEvents(ids) ==
              (events + LostEvents(ids[..|ids| - 1])) + [WorkerEvent(ids[|ids| - 1], LostEvent)]
  {
  }

  lemma {:induction false} LogReports(events: seq<WorkerEvent>, ids: seq<WorkerId>, worker: WorkerId)
    requires Distinct(ids)
    ensures LogStatus(events + LostEvents(ids), worker) ==
              if worker in ids then Some(Lost) else LogStatus(events, worker)
    ensures LostCount(events + LostEvents(ids), worker) ==
              LostCount(events, worker) + (if worker in ids then 1 else 0)
    decreases |ids|
  {
    if ids == [] {
      assert events + LostEvents(ids) == events;
    } else {
      var front, last := ids[..|ids| - 1], ids[|ids| - 1];
      LogReports(events, front, worker);
      LogAppend(events + LostEvents(front), WorkerEvent(last, LostEvent), worker);
      LostEventsSplit(events, ids);
      assert ids == front + [last];
    }
  }

  // ---- the status is what the log says

  function StatusOf(r: Registry, worker: WorkerId): Option<WorkerStatus> {
    if worker in r.workers then Some(r.workers[worker].status) else None
  }

  ghost predicate LogAgrees(r: Registry) {
    && (forall w :: StatusOf(r, w) == LogStatus(r.events, w))
    && (forall d :: d in r.pending ==> Distinct(r.pending[d]))
    && (forall d, w :: d in r.pending && w in r.pending[d] ==> w in r.workers)
  }

  lemma StepKeepsLog(r: Registry, step: LiveStep)
    requires LogAgrees(r) && LiveLegal(r, step)
    ensures LogAgrees(LivePerform(r, step))
  {
    var r' := LivePerform(r, step);
    forall w ensures StatusOf(r', w) == LogStatus(r'.events, w) {
      match step {
        case Register(worker, _, _, _) => LogAppend(r.events, WorkerEvent(worker, StartedEvent), w);
        case Stop(worker) => LogAppend(r.events, WorkerEvent(worker, StoppedEvent), w);
        case Report(d) => LogReports(r.events, r.pending[d], w);
        case _ =>
      }
    }
    if step.Scan? {
      forall w | w in step.ids ensures w in r.workers {
        assert w in IdSet(step.ids);
      }
    }
  }

  lemma {:induction false} RunKeepsLog(r: Registry, steps: seq<LiveStep>)
    requires LogAgrees(r) && LiveRun(r, steps)
    ensures LogAgrees(LiveAfter(r, steps))
    decreases |steps|
  {
    if steps != [] {
      StepKeepsLog(r, steps[0]);
      RunKeepsLog(LivePerform(r, steps[0]), steps[1..]);
    }
  }

  /** In every run, overlapping detections included, a worker's status is the meaning of
      its latest event. */
  lemma StatusIsLatestEvent(start: Time, steps: seq<LiveStep>, worker: WorkerId)
    requires LiveRun(NoWorkers(start), steps)
    ensures var r := LiveAfter(NoWorkers(start), steps); StatusOf(r, worker) == LogStatus(r.events, worker)
  {
    RunKeepsLog(NoWorkers(start), steps);
  }

  // ---- when statuses only ever advance

  function Rank(s: WorkerStatus): nat {
    match s
    case Online => 0
    case Lost => 1
    case Offline => 2
  }

  /** The step sets no worker's status back, and nobody has been reported lost twice. */
  ghost predicate Orderly(r: Registry, r': Registry) {
    && (forall w :: w in r.workers ==> w in r'.workers && Rank(r.workers[w].status) <= Rank(r'.workers[w].status))
    && (forall w :: LostCount(r'.events, w) <= 1)
  }

  ghost predicate OrderlyRun(r: Registry, steps: seq<LiveStep>)
    decreases |steps|
  {
    steps != [] ==> Orderly(r, LivePerform(r, steps[0])) && OrderlyRun(LivePerform(r, steps[0]), steps[1..])
  }

  /** A detection that writes finds the workers it read still online. */
  predicate Fresh(r: Registry, step: LiveStep) {
    step.Report? && step.detection in r.pending ==>
      forall w :: w in r.pending[step.detection] ==> w in r.workers && r.workers[w].status.Online?
  }

  ghost predicate FreshRun(r: Registry, steps: seq<LiveStep>)
    decreases |steps|
  {
    steps != [] ==> Fresh(r, steps[0]) && FreshRun(LivePerform(r, steps[0]), steps[1..])
  }

  /** Reported at most once, and not while online. */
  ghost predicate ReportedOnce(r: Registry) {
    forall w :: LostCount(r.events, w) <= (if StatusOf(r, w) in {Some(Lost), Some(Offline)} then 1 else 0)
  }

  lemma {:induction false} LoggedLost(events: seq<WorkerEvent>, worker: WorkerId)
    requires LogStatus(events, worker) == Some(Lost)
    ensures LostCount(events, worker) >= 1
    decreases |events|
  {
    var n := |events| - 1;
    if events[n].worker != worker {
      LoggedLost(events[..n], worker);
    }
  }

  lemma FreshStepIsOrderly(r: Registry, step: LiveStep)
    requires LogAgrees(r) && ReportedOnce(r) && LiveLegal(r, step) && Fresh(r, step)
    ensures ReportedOnce(LivePerform(r, step)) && Orderly(r, LivePerform(r, step))
  {
    var r' := LivePerform(r, step);
    forall w
      ensures LostCount(r'.events, w) <= (if StatusOf(r', w) in {Some(Lost), Some(Offline)} then 1 else 0)
    {
      match step {
        case Register(worker, _, _, _) => LogAppend(r.events, WorkerEvent(worker, StartedEvent), w);
        case Stop(worker) => LogAppend(r.events, WorkerEvent(worker, StoppedEvent), w);
        case Report(d) => LogReports(r.events, r.pending[d], w);
        case _ =>
      }
    }
  }

  lemma StaleReportIsDisorderly(r: Registry, step: LiveStep)
    requires LogAgrees(r) && LiveLegal(r, step) && !Fresh(r, step)
    ensures !Orderly(r, LivePerform(r, step))
  {
    var d := step.detection;
    var w :| w in r.pending[d] && !(w in r.workers && r.workers[w].status.Online?);
    LogReports(r.events, r.pending[d], w);
    if r.workers[w].status.Lost? {
      assert StatusOf(r, w) == LogStatus(r.events, w);
      LoggedLost(r.events, w);
    }
  }

  lemma {:induction false} FreshnessDecides(r: Registry, steps: seq<LiveStep>)
    requires LogAgrees(r) && ReportedOnce(r) && LiveRun(r, steps)
    ensures OrderlyRun(r, steps) <==> FreshRun(r, steps)
    decreases |steps|
  {
    if steps != [] {
      if Fresh(r, steps[0]) {
        StepKeepsLog(r, steps[0]);
        FreshStepIsOrderly(r, steps[0]);
        FreshnessDecides(LivePerform(r, steps[0]), steps[1..]);
      } else {
        StaleReportIsDisorderly(r, steps[0]);
      }
    }
  }

  /** Through a run no status ever goes back (online, lost, offline) and no worker is
      reported lost twice, exactly when every detection still finds the workers it read
      online at the moment it marks them. */
  lemma OrderlyExactlyWhenFresh(start: Time, steps: seq<LiveStep>)
    requires LiveRun(NoWorkers(start), steps)
    ensures OrderlyRun(NoWorkers(start), steps) <==> FreshRun(NoWorkers(start), steps)
  {
    FreshnessDecides(NoWorkers(start), steps);
  }

  /** Every detection writes right after it has read. */
  predicate Undivided(steps: seq<LiveStep>)
    decreases |steps|
  {
    steps != [] ==>
      if steps[0].Scan?
      then |steps| > 1 && steps[1] == Report(steps[0].detection) && Undivided(steps[2..])
      else !steps[0].Report? && Undivided(steps[1..])
  }

  lemma ReportAfterScanIsFresh(r: Registry, scan: LiveStep)
    requires scan.Scan? && LiveLegal(r, scan)
    ensures Fresh(LivePerform(r, scan), Report(scan.detection))
  {
    forall w | w in scan.ids ensures w in r.workers && r.workers[w].status.Online? {
      assert w in IdSet(scan.ids);
    }
  }

  lemma {:induction false} UndividedIsFresh(r: Registry, steps: seq<LiveStep>)
    requires LiveRun(r, steps) && Undivided(steps)
    ensures FreshRun(r, steps)
    decreases |steps|
  {
    if steps != [] {
      var r' := LivePerform(r, steps[0]);
      if steps[0].Scan? {
        ReportAfterScanIsFresh(r, steps[0]);
        assert steps[1..][1..] == steps[2..] && steps[1..][0] == steps[1];
        UndividedIsFresh(LivePerform(r', steps[1]), steps[2..]);
      } else {
        UndividedIsFresh(r', steps[1..]);
      }
    }
  }

  /** With detection in one piece, statuses only advance and each worker is reported lost
      at most once - a lost worker that sends heartbeats again included. */
  lemma UndividedDetectionIsOrderly(start: Time, steps: seq<LiveStep>)
    requires LiveRun(NoWorkers(start), steps) && Undivided(steps)
    ensures OrderlyRun(NoWorkers(start), steps)
  {
    UndividedIsFresh(NoWorkers(start), steps);
    OrderlyExactlyWhenFresh(start, steps);
  }

  /** Worker 7, registered at time 0, has been silent for 100 seconds. */
  function Silent(): Registry {
    Registry(100.0, map[7 := WorkerRow("worker", 0, Online, Some(0.0), None)], [WorkerEvent(7, StartedEvent)], map[])
  }

  lemma SilentRun() returns (steps: seq<LiveStep>)
    ensures LiveRun(NoWorkers(0.0), steps) && LiveAfter(NoWorkers(0.0), steps) == Silent()
  {
    var register := Register(7, "worker", 0, Some(0.0));
    var r1 := LivePerform(NoWorkers(0.0), register);
    assert LivePerform(r1, Clock(100.0)) == Silent();
    Continues(r1, Clock(100.0), []);
    Continues(NoWorkers(0.0), register, [Clock(100.0)]);
    steps := [register] + [Clock(100.0)];
  }

  lemma TwoDetections() returns (steps: seq<LiveStep>)
    ensures LiveRun(Silent(), steps) && LostCount(LiveAfter(Silent(), steps).events, 7) == 2
  {
    var a, b := Scan(0, 90.0, [7]), Scan(1, 90.0, [7]);
    assert OverdueIds(Silent().workers, 10.0) == {7} == IdSet([7]);
    var r1 := LivePerform(Silent(), a);
    var r2 := LivePerform(r1, b);
    var r3 := LivePerform(r2, Report(0));
    Continues(r3, Report(1), []);
    Continues(r2, Report(0), [Report(1)]);
    Continues(r1, b, [Report(0)] + [Report(1)]);
    Continues(Silent(), a, [b] + ([Report(0)] + [Report(1)]));
    steps := [a] + ([b] + ([Report(0)] + [Report(1)]));
    LogReports(Silent().events, [7], 7);
    LogReports(r3.events, [7], 7);
  }

  lemma {:induction false} LiveRunsConcat(r: Registry, a: seq<LiveStep>, b: seq<LiveStep>)
    requires LiveRun(r, a) && LiveRun(LiveAfter(r, a), b)
    ensures LiveRun(r, a + b) && LiveAfter(r, a + b) == LiveAfter(LiveAfter(r, a), b)
    decreases |a|
  {
    if a == [] {
      assert a + b == b;
    } else {
      assert (a + b)[0] == a[0] && (a + b)[1..] == a[1..] + b;
      LiveRunsConcat(LivePerform(r, a[0]), a[1..], b);
    }
  }

  /** Two workers that start at the same time can both report a third one lost. */
  lemma OverlappingDetectionsReportTwice() returns (steps: seq<LiveStep>)
    ensures LiveRun(NoWorkers(0.0), steps) && LostCount(LiveAfter(NoWorkers(0.0), steps).events, 7) == 2
  {
    var before := SilentRun();
    var after := TwoDetections();
    LiveRunsConcat(NoWorkers(0.0), before, after);
    steps := before + after;
  }

  lemma Continues(r: Registry, step: LiveStep, rest: seq<LiveStep>)
    requires LiveLegal(r, step) && LiveRun(LivePerform(r, step), rest)
    ensures LiveRun(r, [step] + rest) && LiveAfter(r, [step] + rest) == LiveAfter(LivePerform(r, step), rest)
  {
    assert ([step] + rest)[1..] == rest;
  }

  // ---- who is reported

  /** Online by its row, with a recorded heartbeat older than the timeout. */
  predicate IsSilent(r: Registry, worker: WorkerId, timeout: Time) {
    && worker in r.workers && r.workers[worker].status == Online
    && r.workers[worker].lastHeartbeatAt.Some?
    && r.workers[worker].lastHeartbeatAt.value < r.now - timeout
  }

  /** Some detection of the run read the worker as online and without a heartbeat for
      longer than its timeout. */
  ghost predicate FoundOverdue(r: Registry, steps: seq<LiveStep>, worker: WorkerId)
    decreases |steps|
  {
    steps != [] &&
    ((steps[0].Scan? && IsSilent(r, worker, steps[0].timeout)) ||
     FoundOverdue(LivePerform(r, steps[0]), steps[1..], worker))
  }

  ghost predicate ReportedOrPending(r: Registry, worker: WorkerId) {
    LostCount(r.events, worker) > 0 || exists d :: d in r.pending && worker in r.pending[d]
  }

  lemma ReportStep(r: Registry, step: LiveStep, worker: WorkerId)
    requires LogAgrees(r) && LiveLegal(r, step)
    ensures ReportedOrPending(LivePerform(r, step), worker) <==>
              ReportedOrPending(r, worker) || (step.Scan? && IsSilent(r, worker, step.timeout))
  {
    var r' := LivePerform(r, step);
    match step {
      case Register(w, _, _, _) => LogAppend(r.events, WorkerEvent(w, StartedEvent), worker);
      case Stop(w) => LogAppend(r.events, WorkerEvent(w, StoppedEvent), worker);
      case Report(d) =>
        LogReports(r.events, r.pending[d], worker);
        PendingSplits(r, d, worker);
      case Scan(d, timeout, ids) =>
        assert worker in ids <==> worker in IdSet(ids);
        PendingSplits(r', d, worker);
        assert r'.pending - {d} == r.pending;
      case _ =>
    }
  }

  lemma PendingSplits(r: Registry, d: DetectionId, worker: WorkerId)
    requires d in r.pending
    ensures (exists e :: e in r.pending && worker in r.pending[e]) <==>
              worker in r.pending[d] || exists e :: e in r.pending - {d} && worker in (r.pending - {d})[e]
  {
    if e :| e in r.pending && worker in r.pending[e] {
      if e != d {
        assert e in r.pending - {d} && worker in (r.pending - {d})[e];
      }
    }
  }

  lemma {:induction false} ReportedIffFound(r: Registry, steps: seq<LiveStep>, worker: WorkerId)
    requires LogAgrees(r) && LiveRun(r, steps)
    ensures ReportedOrPending(LiveAfter(r, steps), worker) <==>
              ReportedOrPending(r, worker) || FoundOverdue(r, steps, worker)
    decreases |steps|
  {
    if steps != [] {
      StepKeepsLog(r, steps[0]);
      ReportStep(r, steps[0], worker);
      ReportedIffFound(LivePerform(r, steps[0]), steps[1..], worker);
    }
  }

  /** A worker is reported lost, or about to be, exactly when some detection read it
      online and overdue. */
  lemma ReportedExactlyWhenOverdue(start: Time, steps: seq<LiveStep>, worker: WorkerId)
    requires LiveRun(NoWorkers(start), steps)
    ensures ReportedOrPending(LiveAfter(NoWorkers(start), steps), worker) <==>
              FoundOverdue(NoWorkers(start), steps, worker)
  {
    ReportedIffFound(NoWorkers(start), steps, worker);
  }

  /** In every run: a detection in one piece turns exactly the silent workers of those
      online into lost ones, each with one more report, and no other worker's row or report
      count changes. */
  lemma DetectionFindsExactlyTheSilent(start: Time, steps: seq<LiveStep>, d: DetectionId, timeout: Time,
                                       ids: seq<WorkerId>, worker: WorkerId)
    requires LiveRun(NoWorkers(start), steps)
    requires LiveLegal(LiveAfter(NoWorkers(start), steps), Scan(d, timeout, ids))
    ensures var r := LiveAfter(NoWorkers(start), steps);
            var r' := LivePerform(LivePerform(r, Scan(d, timeout, ids)), Report(d));
            && (worker in r'.workers <==> worker in r.workers)
            && LostCount(r'.events, worker) ==
                 LostCount(r.events, worker) + (if IsSilent(r, worker, timeout) then 1 else 0)
            && (worker in r.workers ==>
                  r'.workers[worker] ==
                    if IsSilent(r, worker, timeout) then r.workers[worker].(status := Lost) else r.workers[worker])
  {
    var r := LiveAfter(NoWorkers(start), steps);
    assert worker in ids <==> worker in IdSet(ids);
    LogReports(r.events, ids, worker);
  }

  /** All detections use the timeout, and the worker's latest heartbeat is never older. */
  ghost predicate InTouch(r: Registry, steps: seq<LiveStep>, worker: WorkerId, timeout: Time)
    decreases |steps|
  {
    && (worker in r.workers && r.workers[worker].lastHeartbeatAt.Some? ==>
          r.now <= r.workers[worker].lastHeartbeatAt.value + timeout)
    && (steps != [] ==>
          && (steps[0].Scan? ==> steps[0].timeout == timeout)
          && InTouch(LivePerform(r, steps[0]), steps[1..], worker, timeout))
  }

  lemma {:induction false} InTouchIsNotFound(r: Registry, steps: seq<LiveStep>, worker: WorkerId, timeout: Time)
    requires InTouch(r, steps, worker, timeout)
    ensures !FoundOverdue(r, steps, worker)
    decreases |steps|
  {
    if steps != [] {
      InTouchIsNotFound(LivePerform(r, steps[0]), steps[1..], worker, timeout);
    }
  }

  /** A worker whose heartbeats never lag by more than the timeout is never reported lost,
      however many detections overlap. */
  lemma PunctualWorkersAreNeverLost(start: Time, steps: seq<LiveStep>, worker: WorkerId, timeout: Time)
    requires LiveRun(NoWorkers(start), steps) && InTouch(NoWorkers(start), steps, worker, timeout)
    ensures var r := LiveAfter(NoWorkers(start), steps);
            LostCount(r.events, worker) == 0 && StatusOf(r, worker) != Some(Lost)
  {
    InTouchIsNotFound(NoWorkers(start), steps, worker, timeout);
    ReportedExactlyWhenOverdue(start, steps, worker);
    StatusIsLatestEvent(start, steps, worker);
    var r := LiveAfter(NoWorkers(start), steps);
    if LogStatus(r.events, worker) == Some(Lost) {
      LoggedLost(r.events, worker);
    }
  }
}
