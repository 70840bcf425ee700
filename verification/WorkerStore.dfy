/** The workers, heartbeat and event tables of packages/db/repositories/worker_repo.py. A
    ghost field follows the liveness protocol: every method is proved to be the protocol
    steps it implements. */
module WorkerStore {
  import opened Types
  import opened Claiming
  import opened Liveness

  datatype HeartbeatRow = HeartbeatRow(worker: WorkerId, activeJobs: nat)

  /** A step taken when the caller's clock shows the given time. */
  function LiveAt(r: Registry, now: Time, step: LiveStep): Registry {
    LivePerform(r.(now := now), step)
  }

  class WorkerRepository {
    var workers: map<WorkerId, WorkerRow>
    var events: seq<WorkerEvent>
    var beats: seq<HeartbeatRow>
    ghost var model: Registry

    ghost predicate Valid()
      reads this
    {
      workers == model.workers && events == model.events && LogAgrees(model)
    }

    constructor (now: Time)
      ensures Valid() && workers == map[] && events == [] && beats == [] && model == NoWorkers(now)
    {
      workers := map[];
      events := [];
      beats := [];
      model := NoWorkers(now);
    }

    method Register(worker: WorkerId, name: string, project: nat, beat: Option<Time>, now: Time)
      requires Valid() && worker !in workers
      modifies this`workers, this`events, this`model
      ensures Valid()
      ensures workers == old(workers)[worker := WorkerRow(name, project, Online, beat, None)]
      ensures events == old(events) + [WorkerEvent(worker, StartedEvent)]
      ensures model == LiveAt(old(model), now, LiveStep.Register(worker, name, project, beat))
    {
      StepKeepsLog(model.(now := now), LiveStep.Register(worker, name, project, beat));
      workers := workers[worker := WorkerRow(name, project, Online, beat, None)];
      events := events + [WorkerEvent(worker, StartedEvent)];
      model := LiveAt(model, now, LiveStep.Register(worker, name, project, beat));
    }

    /** Only the time of the heartbeat is updated: a lost worker stays lost. */
    method Heartbeat(worker: WorkerId, activeJobs: nat, now: Time) returns (known: bool)
      requires Valid()
      modifies this`workers, this`beats, this`model
      ensures Valid()
      ensures known <==> worker in old(workers)
      ensures workers == if known
                         then old(workers)[worker := old(workers)[worker].(lastHeartbeatAt := Some(now))]
                         else old(workers)
      ensures beats == old(beats) + (if known then [HeartbeatRow(worker, activeJobs)] else [])
      ensures model == LiveAt(old(model), now, Beat(worker))
    {
      known := worker in workers;
      StepKeepsLog(model.(now := now), Beat(worker));
      if known {
        workers := workers[worker := workers[worker].(lastHeartbeatAt := Some(now))];
        beats := beats + [HeartbeatRow(worker, activeJobs)];
      }
      model := LiveAt(model, now, Beat(worker));
    }

    method MarkStopped(worker: WorkerId, now: Time) returns (known: bool)
      requires Valid()
      modifies this`workers, this`events, this`model
      ensures Valid()
      ensures known <==> worker in old(workers)
      ensures workers == if known
                         then old(workers)[worker := old(workers)[worker].(status := Offline, stoppedAt := Some(now))]
                         else old(workers)
      ensures events == old(events) + (if known then [WorkerEvent(worker, StoppedEvent)] else [])
      ensures model == LiveAt(old(model), now, Stop(worker))
    {
      known := worker in workers;
      StepKeepsLog(model.(now := now), Stop(worker));
      if known {
        workers := workers[worker := workers[worker].(status := Offline, stoppedAt := Some(now))];
        events := events + [WorkerEvent(worker, StoppedEvent)];
      }
      model := LiveAt(model, now, Stop(worker));
    }

    method ListOverdue(cutoff: Time) returns (ids: seq<WorkerId>)
      ensures Lists(ids, OverdueIds(workers, cutoff))
    {
      ids := [];
      var todo := OverdueIds(workers, cutoff);
      while todo != {}
        invariant todo <= OverdueIds(workers, cutoff)
        invariant Lists(ids, OverdueIds(workers, cutoff) - todo)
        decreases |todo|
      {
        var w :| w in todo;
        assert IdSet(ids + [w]) == IdSet(ids) + {w};
        assert w !in IdSet(ids);
        ids := ids + [w];
        todo := todo - {w};
      }
    }

    /** A detection that nothing interrupts: exactly the online workers without a recent
        heartbeat are marked and reported, each once. */
    method DetectLostWorkers(timeout: Time, now: Time, ghost detection: DetectionId) returns (lost: seq<WorkerId>)
      requires Valid() && detection !in model.pending
      modifies this`workers, this`events, this`model
      ensures Valid()
      ensures Lists(lost, OverdueIds(old(workers), now - timeout))
      ensures workers == MarkedLost(old(workers), IdSet(lost)) && OverdueIds(workers, now - timeout) == {}
      ensures events == old(events) + LostEvents(lost)
      // who: the online workers whose recorded heartbeat is older than the timeout
      ensures forall w :: w in lost <==>
                && w in old(workers) && old(workers)[w].status == Online
                && old(workers)[w].lastHeartbeatAt.Some? && old(workers)[w].lastHeartbeatAt.value < now - timeout
      // what: each is set to lost and reported once, in the order listed
      ensures workers.Keys == old(workers).Keys
      ensures forall w :: w in workers ==>
                workers[w] == if w in lost then old(workers)[w].(status := Lost) else old(workers)[w]
      ensures |events| == |old(events)| + |lost| && forall k :: 0 <= k < |lost| ==>
                events[|old(events)| + k] == WorkerEvent(lost[k], LostEvent)
      ensures model == LivePerform(LiveAt(old(model), now, Scan(detection, timeout, lost)), Report(detection))
      // nothing of the detection is left to be written later
      ensures model.pending == old(model).pending
    {
      lost := ListOverdue(now - timeout);
      forall w ensures w in lost <==> w in OverdueIds(workers, now - timeout) {
        assert w in lost <==> w in IdSet(lost);
      }
      var scan := Scan(detection, timeout, lost);
      ghost var scanned := LiveAt(model, now, scan);
      StepKeepsLog(model.(now := now), scan);
      StepKeepsLog(scanned, Report(detection));
      if lost != [] {
        MarkAll(lost);
        AppendLost(lost);
      }
      model := LivePerform(scanned, Report(detection));
      NoneOverdue(old(workers), lost, now - timeout);
    }

    static lemma NoneOverdue(before: map<WorkerId, WorkerRow>, lost: seq<WorkerId>, cutoff: Time)
      requires Lists(lost, OverdueIds(before, cutoff))
      ensures OverdueIds(MarkedLost(before, IdSet(lost)), cutoff) == {}
      ensures lost == [] ==> MarkedLost(before, IdSet(lost)) == before
    {
    }

    method MarkAll(ids: seq<WorkerId>)
      requires forall k :: 0 <= k < |ids| ==> ids[k] in workers
      modifies this`workers
      ensures workers == MarkedLost(old(workers), IdSet(ids))
    {
      for k := 0 to |ids|
        invariant workers == MarkedLost(old(workers), IdSet(ids[..k]))
      {
        assert IdSet(ids[..k + 1]) == IdSet(ids[..k]) + {ids[k]};
        workers := workers[ids[k] := workers[ids[k]].(status := Lost)];
      }
      assert ids[..|ids|] == ids;
    }

    method AppendLost(ids: seq<WorkerId>)
      modifies this`events
      ensures events == old(events) + LostEvents(ids)
    {
      for k := 0 to |ids|
        invariant events == old(events) + LostEvents(ids)[..k]
      {
        events := events + [WorkerEvent(ids[k], LostEvent)];
      }
    }
  }
}
