/** Claiming as Postgres runs it: SELECT ... FOR UPDATE SKIP LOCKED takes row locks, the
    UPDATE writes new row versions that only its transaction sees, and the commit puts
    them in place of the old ones. Any number of claiming transactions overlap each other
    and every other step of the system; a statement that would rewrite a locked row waits
    until the lock is gone. */
module PhasedClaims {
  import opened Types
  import opened Lifecycle
  import opened Protocol
  import opened OpenRuns
  import opened DisciplinedRuns
  import opened Claiming

  type TxId = nat

  /** A claiming transaction between its lock and its commit, with the row versions its
      update has written so far. */
  datatype Tx = Tx(worker: WorkerId, queue: QueueId, ids: seq<JobId>, at: Time, versions: Option<Table>)

  datatype PState = PState(sys: State, txs: map<TxId, Tx>)

  datatype PStep =
    | Lock(tx: TxId, worker: WorkerId, queue: QueueId, limit: nat, ids: seq<JobId>)
    | Update(tx: TxId)
    | Commit(tx: TxId)
    | Rollback(tx: TxId)
    | Other(step: Step)

  function LockedRows(p: PState): set<JobId> {
    set t, j | t in p.txs && j in p.txs[t].ids :: j
  }

  predicate LeavesAlone(s: State, step: Step, ids: set<JobId>) {
    forall j :: j in ids && j in s.jobs ==> Apply(s, step).jobs[j].row == s.jobs[j].row
  }

  /** Nothing found, nothing to update: then the transaction commits as it is. */
  predicate Legal(p: PState, step: PStep) {
    match step
    case Lock(tx, _, queue, limit, ids) => tx !in p.txs && TopK(Rows(p.sys), LockedRows(p), queue, limit, ids)
    case Update(tx) => tx in p.txs && p.txs[tx].versions.None? && p.txs[tx].ids != []
    case Commit(tx) => tx in p.txs && (p.txs[tx].versions.Some? || p.txs[tx].ids == [])
    case Rollback(tx) => tx in p.txs
    case Other(step) => !step.ClaimBatch? && LeavesAlone(p.sys, step, LockedRows(p))
  }

  /** The new versions an update by id writes. It does not look at the status again. */
  function NewVersions(s: State, t: Tx): Table {
    map j | j in t.ids && j in s.jobs :: ClaimedRow(s.jobs[j].row, t.worker, t.at)
  }

  function Versions(t: Tx): Table {
    if t.versions.Some? then t.versions.value else map[]
  }

  /** A commit: the written versions replace the rows, whatever those are by now, and the
      poll spawns one execution for each. */
  function Publish(s: State, t: Tx): State {
    s.(jobs := map j | j in s.jobs ::
      if j in Versions(t)
      then s.jobs[j].(row := Versions(t)[j], tasks := s.jobs[j].tasks + [Task(t.worker, t.at, Waiting)])
      else s.jobs[j])
  }

  function Perform(p: PState, step: PStep): PState
    requires Legal(p, step)
  {
    match step
    case Lock(tx, worker, queue, _, ids) => p.(txs := p.txs[tx := Tx(worker, queue, ids, p.sys.now, None)])
    case Update(tx) => p.(txs := p.txs[tx := p.txs[tx].(versions := Some(NewVersions(p.sys, p.txs[tx])))])
    case Commit(tx) => PState(Publish(p.sys, p.txs[tx]), p.txs - {tx})
    case Rollback(tx) => p.(txs := p.txs - {tx})
    case Other(step) => p.(sys := Apply(p.sys, step))
  }

  ghost predicate LegalRun(p: PState, steps: seq<PStep>)
    decreases |steps|
  {
    steps != [] ==> Legal(p, steps[0]) && LegalRun(Perform(p, steps[0]), steps[1..])
  }

  ghost function PerformAll(p: PState, steps: seq<PStep>): PState
    requires LegalRun(p, steps)
    decreases |steps|
  {
    if steps == [] then p else PerformAll(Perform(p, steps[0]), steps[1..])
  }

  // ---- locks

  predicate QueuedIn(s: State, j: JobId, queue: QueueId) {
    j in s.jobs && s.jobs[j].row.status.Queued? && s.jobs[j].row.queue == queue
  }

  ghost predicate LocksHold(p: PState) {
    && (forall t, u, j :: t in p.txs && u in p.txs && j in p.txs[t].ids && j in p.txs[u].ids ==> t == u)
    && (forall t :: t in p.txs ==> Distinct(p.txs[t].ids))
    && (forall t, j :: t in p.txs && j in p.txs[t].ids ==> QueuedIn(p.sys, j, p.txs[t].queue))
  }

  /** A locked row is still what it was when its new version was written. */
  ghost predicate VersionsFit(p: PState) {
    forall t :: t in p.txs ==> p.txs[t].versions in {None, Some(NewVersions(p.sys, p.txs[t]))}
  }

  lemma LockedByTop(p: PState, step: PStep, j: JobId)
    requires Legal(p, step) && step.Lock? && j in step.ids
    ensures QueuedIn(p.sys, j, step.queue) && j !in LockedRows(p)
  {
    var a :| 0 <= a < |step.ids| && step.ids[a] == j;
    assert Claimable(Rows(p.sys), LockedRows(p), step.queue, step.ids[a]);
  }

  lemma PublishKeepsOthers(p: PState, tx: TxId, j: JobId)
    requires VersionsFit(p) && Legal(p, Commit(tx)) && j in p.sys.jobs && j !in p.txs[tx].ids
    ensures Publish(p.sys, p.txs[tx]).jobs[j] == p.sys.jobs[j]
  {
    assert j !in Versions(p.txs[tx]);
  }

  lemma StepKeepsLocks(p: PState, step: PStep)
    requires LocksHold(p) && VersionsFit(p) && Legal(p, step)
    ensures LocksHold(Perform(p, step))
  {
    var p' := Perform(p, step);
    forall t, j | t in p'.txs && j in p'.txs[t].ids ensures QueuedIn(p'.sys, j, p'.txs[t].queue) {
      if step.Lock? && t == step.tx {
        LockedByTop(p, step, j);
      } else {
        assert t in p.txs && p'.txs[t].ids == p.txs[t].ids && QueuedIn(p.sys, j, p.txs[t].queue);
        assert j in LockedRows(p);
        if step.Commit? {
          PublishKeepsOthers(p, step.tx, j);
        }
      }
    }
    if step.Lock? {
      forall t, j | t in p.txs && j in p.txs[t].ids ensures j !in step.ids {
        assert j in LockedRows(p);
      }
    }
  }

  lemma StepKeepsVersions(p: PState, step: PStep)
    requires LocksHold(p) && VersionsFit(p) && Legal(p, step)
    ensures VersionsFit(Perform(p, step))
  {
    var p' := Perform(p, step);
    forall t | t in p'.txs ensures p'.txs[t].versions in {None, Some(NewVersions(p'.sys, p'.txs[t]))} {
      if t in p.txs {
        forall j | j in p.txs[t].ids ensures j in p'.sys.jobs && p'.sys.jobs[j].row == p.sys.jobs[j].row {
          assert j in LockedRows(p) && QueuedIn(p.sys, j, p.txs[t].queue);
          if step.Commit? {
            PublishKeepsOthers(p, step.tx, j);
          }
        }
        assert NewVersions(p'.sys, p.txs[t]) == NewVersions(p.sys, p.txs[t]);
      }
    }
  }

  /** With any number of transactions in flight, no row is locked by two of them, a locked
      row is still queued, in the queue it was selected from, at its update and at its
      commit, and no step overtakes a version already written. */
  lemma {:induction false} LocksAreExclusive(p: PState, steps: seq<PStep>)
    requires LocksHold(p) && VersionsFit(p) && LegalRun(p, steps)
    ensures LocksHold(PerformAll(p, steps)) && VersionsFit(PerformAll(p, steps))
    decreases |steps|
  {
    if steps != [] {
      StepKeepsLocks(p, steps[0]);
      StepKeepsVersions(p, steps[0]);
      LocksAreExclusive(Perform(p, steps[0]), steps[1..]);
    }
  }

  // ---- refinement

  function ClaimOf(t: Tx): Step {
    ClaimBatch(t.worker, IdSet(t.ids), t.at)
  }

  /** Publishing stored versions is an atomic claim, because its rows have stayed locked. */
  lemma CommitIsClaim(p: PState, tx: TxId)
    requires LocksHold(p) && VersionsFit(p) && Legal(p, Commit(tx))
    ensures Publish(p.sys, p.txs[tx]) == Apply(p.sys, ClaimOf(p.txs[tx]))
  {
    var t := p.txs[tx];
    forall j | j in p.sys.jobs
      ensures Publish(p.sys, t).jobs[j] == Apply(p.sys, ClaimOf(t)).jobs[j]
    {
      if j in t.ids {
        assert QueuedIn(p.sys, j, t.queue);
      } else {
        PublishKeepsOthers(p, tx, j);
      }
    }
  }

  /** The steps of the atomic system that a phased run amounts to: each commit is one
      atomic claim, every other step is itself. */
  ghost function Atomically(p: PState, steps: seq<PStep>): seq<Step>
    requires LegalRun(p, steps)
    decreases |steps|
  {
    if steps == [] then [] else AtomicStep(p, steps[0]) + Atomically(Perform(p, steps[0]), steps[1..])
  }

  function AtomicStep(p: PState, step: PStep): seq<Step>
    requires Legal(p, step)
  {
    match step
    case Commit(tx) => [ClaimOf(p.txs[tx])]
    case Other(step) => [step]
    case _ => []
  }

  lemma StepIsAtomic(p: PState, step: PStep)
    requires LocksHold(p) && VersionsFit(p) && Legal(p, step)
    ensures Perform(p, step).sys == After(p.sys, AtomicStep(p, step))
  {
    if step.Commit? {
      CommitIsClaim(p, step.tx);
    }
    var all := AtomicStep(p, step);
    if all != [] {
      assert all[1..] == [];
      assert After(Apply(p.sys, all[0]), []) == Apply(p.sys, all[0]);
    }
  }

  /** Every phased run, rollbacks included, takes the system where its atomic claims take
      it: private updates published late are never stale, and no other step is lost. */
  lemma {:induction false} PhasedRunIsAtomicRun(p: PState, steps: seq<PStep>)
    requires LocksHold(p) && VersionsFit(p) && LegalRun(p, steps)
    ensures PerformAll(p, steps).sys == After(p.sys, Atomically(p, steps))
    decreases |steps|
  {
    if steps != [] {
      var p', rest := Perform(p, steps[0]), steps[1..];
      StepKeepsLocks(p, steps[0]);
      StepKeepsVersions(p, steps[0]);
      StepIsAtomic(p, steps[0]);
      PhasedRunIsAtomicRun(p', rest);
      AfterConcat(p.sys, AtomicStep(p, steps[0]), Atomically(p', rest));
    }
  }

  /** Every transaction of the run starts and ends in it, on an empty database. */
  ghost predicate Starts(p: PState) {
    exists start :: p == PState(Empty(start), map[])
  }

  /** A commit hands each of its rows, still queued, to its own worker, and rewrites no
      other row: no two transactions ever claim the same job. */
  lemma CommitClaimsItsRows(p0: PState, steps: seq<PStep>, tx: TxId)
    requires Starts(p0) && LegalRun(p0, steps)
    requires Legal(PerformAll(p0, steps), Commit(tx))
    ensures var p := PerformAll(p0, steps); var t := p.txs[tx];
            && Reachable(p.sys)
            && (forall j :: j in t.ids ==> QueuedIn(p.sys, j, t.queue))
            && Rows(Perform(p, Commit(tx)).sys) == Marked(Rows(p.sys), IdSet(t.ids), t.worker, t.at)
  {
    LocksAreExclusive(p0, steps);
    PhasedRunIsAtomicRun(p0, steps);
    CommitMarks(PerformAll(p0, steps), tx);
  }

  lemma CommitMarks(p: PState, tx: TxId)
    requires LocksHold(p) && VersionsFit(p) && Legal(p, Commit(tx))
    ensures Rows(Publish(p.sys, p.txs[tx])) == Marked(Rows(p.sys), IdSet(p.txs[tx].ids), p.txs[tx].worker, p.txs[tx].at)
  {
    CommitIsClaim(p, tx);
    var t := p.txs[tx];
    forall j | j in p.sys.jobs ensures j in t.ids ==> p.sys.jobs[j].row.status.Queued? {
      assert j in t.ids ==> QueuedIn(p.sys, j, t.queue);
    }
  }

  // ---- the regimes carry over

  ghost predicate PhasedForward(p: PState, steps: seq<PStep>)
    requires LegalRun(p, steps)
    decreases |steps|
  {
    steps != [] ==>
      && (steps[0].Other? ==> ForwardStep(p.sys, steps[0].step))
      && PhasedForward(Perform(p, steps[0]), steps[1..])
  }

  ghost predicate PhasedDisciplined(p: PState, steps: seq<PStep>)
    requires LegalRun(p, steps)
    decreases |steps|
  {
    steps != [] ==>
      && (steps[0].Other? ==> DisciplinedStep(p.sys, steps[0].step))
      && PhasedDisciplined(Perform(p, steps[0]), steps[1..])
  }

  /** If the steps around the claims are forward or disciplined, so is the atomic run. */
  lemma {:induction false} RegimesCarryOver(p: PState, steps: seq<PStep>)
    requires LocksHold(p) && VersionsFit(p) && LegalRun(p, steps)
    ensures PhasedForward(p, steps) ==> ForwardRun(p.sys, Atomically(p, steps))
    ensures PhasedDisciplined(p, steps) ==> DisciplinedRun(p.sys, Atomically(p, steps))
    decreases |steps|
  {
    if steps != [] {
      var p', rest := Perform(p, steps[0]), steps[1..];
      StepKeepsLocks(p, steps[0]);
      StepKeepsVersions(p, steps[0]);
      StepIsAtomic(p, steps[0]);
      RegimesCarryOver(p', rest);
      var all := Atomically(p, steps);
      if steps[0].Commit? || steps[0].Other? {
        assert all[0] == AtomicStep(p, steps[0])[0] && all[1..] == Atomically(p', rest);
        assert After(Apply(p.sys, all[0]), []) == Apply(p.sys, all[0]);
        assert AtomicStep(p, steps[0])[1..] == [];
      } else {
        assert all == Atomically(p', rest);
      }
    }
  }

  /** Mutual exclusion with overlapping claims: disciplined around them, whatever their
      phases, every job has at most one live execution, the one its row names. */
  lemma PhasedMutualExclusion(p0: PState, steps: seq<PStep>, job: JobId)
    requires Starts(p0) && LegalRun(p0, steps) && PhasedDisciplined(p0, steps)
    requires job in PerformAll(p0, steps).sys.jobs
    ensures DisciplinedReachable(PerformAll(p0, steps).sys)
    ensures var c := PerformAll(p0, steps).sys.jobs[job]; |c.Live()| <= 1 && Exclusive(c)
  {
    RegimesCarryOver(p0, steps);
    PhasedRunIsAtomicRun(p0, steps);
    assert p0.sys == Empty(p0.sys.now);
    assert DisciplinedReachable(PerformAll(p0, steps).sys);
    MutualExclusion(PerformAll(p0, steps).sys, job);
    ReachableIsDisciplined(PerformAll(p0, steps).sys);
  }
}
