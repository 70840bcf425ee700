/** Does skipping locked rows keep priority order? Claims are placed at the moment they
    take their locks. A transaction that will roll back takes nothing, but while it holds
    its locks it hides its rows from the others. */
module PriorityOrder {
  import opened Types
  import opened Lifecycle
  import opened Protocol
  import opened Claiming
  import opened PhasedClaims

  // ---- which transactions roll back

  /** The transaction, in flight before these steps, is ended by a rollback. */
  predicate RollsBack(steps: seq<PStep>, tx: TxId)
    decreases |steps|
  {
    steps != [] &&
    (steps[0] == Rollback(tx) || (steps[0] != Commit(tx) && RollsBack(steps[1..], tx)))
  }

  function Back(p: PState, steps: seq<PStep>): set<TxId> {
    set t | t in p.txs && RollsBack(steps, t)
  }

  /** The rows locked by transactions that will commit, or are still open at the end. */
  function Taken(p: PState, back: set<TxId>): set<JobId> {
    set t, j | t in p.txs && t !in back && j in p.txs[t].ids :: j
  }

  function HeldBack(p: PState, back: set<TxId>): set<JobId> {
    set t, j | t in p.txs && t in back && j in p.txs[t].ids :: j
  }

  ghost function Holder(p: PState, j: JobId): Tx
    requires j in LockedRows(p)
  {
    var t :| t in p.txs && j in p.txs[t].ids; p.txs[t]
  }

  /** The table as if every claim in flight that will not roll back had happened when it
      took its locks. */
  ghost function Ahead(p: PState, back: set<TxId>): Table {
    map j | j in p.sys.jobs :: AheadRow(p, back, j)
  }

  ghost function AheadRow(p: PState, back: set<TxId>, j: JobId): Job
    requires j in p.sys.jobs
  {
    if j in Taken(p, back) then ClaimedRow(p.sys.jobs[j].row, Holder(p, j).worker, Holder(p, j).at)
    else p.sys.jobs[j].row
  }

  lemma HolderIs(p: PState, t: TxId, j: JobId)
    requires LocksHold(p) && t in p.txs && j in p.txs[t].ids
    ensures j in LockedRows(p) && Holder(p, j) == p.txs[t]
    ensures forall back :: (j in Taken(p, back) <==> t !in back) && (j in HeldBack(p, back) <==> t in back)
  {
  }

  // ---- one lock

  /** What the rows hidden by transactions that will roll back must not spoil: a lock that
      finds fewer rows than it asked for hides none of its queue, and none of those hidden
      was due before one that is taken. */
  ghost predicate Unspoilt(p: PState, back: set<TxId>, lock: PStep)
    requires lock.Lock?
  {
    forall j :: j in HeldBack(p, back) && QueuedIn(p.sys, j, lock.queue) ==>
      && |lock.ids| == lock.limit
      && forall a :: 0 <= a < |lock.ids| && lock.ids[a] in p.sys.jobs ==>
           !Before(p.sys.jobs[j].row, p.sys.jobs[lock.ids[a]].row)
  }

  lemma ClaimableAhead(p: PState, back: set<TxId>, queue: QueueId, j: JobId)
    requires LocksHold(p) && j in p.sys.jobs
    ensures Claimable(Ahead(p, back), {}, queue, j) <==>
              Claimable(Rows(p.sys), LockedRows(p), queue, j) || (j in HeldBack(p, back) && QueuedIn(p.sys, j, queue))
  {
    if t :| t in p.txs && j in p.txs[t].ids {
      HolderIs(p, t, j);
    }
  }

  lemma SameOrderAhead(p: PState, back: set<TxId>, j: JobId, k: JobId)
    requires j in p.sys.jobs && k in p.sys.jobs
    ensures Before(Ahead(p, back)[j], Ahead(p, back)[k]) <==> Before(p.sys.jobs[j].row, p.sys.jobs[k].row)
  {
  }

  /** The boundary of SKIP LOCKED: the rows a lock selects are the best queued rows of its
      queue, none skipped but those already taken, if and only if what the transactions
      that will roll back hide does not spoil it. */
  lemma LockTakesTheBestIffUnspoilt(p: PState, back: set<TxId>, lock: PStep)
    requires LocksHold(p) && lock.Lock? && Legal(p, lock)
    ensures TopK(Ahead(p, back), {}, lock.queue, lock.limit, lock.ids) <==> Unspoilt(p, back, lock)
  {
    if Unspoilt(p, back, lock) {
      UnspoiltTakesTheBest(p, back, lock);
    }
    if TopK(Ahead(p, back), {}, lock.queue, lock.limit, lock.ids) {
      BestIsUnspoilt(p, back, lock);
    }
  }

  lemma UnspoiltTakesTheBest(p: PState, back: set<TxId>, lock: PStep)
    requires LocksHold(p) && lock.Lock? && Legal(p, lock) && Unspoilt(p, back, lock)
    ensures TopK(Ahead(p, back), {}, lock.queue, lock.limit, lock.ids)
  {
    var table, ids := Ahead(p, back), lock.ids;
    forall a | 0 <= a < |ids| ensures Claimable(table, {}, lock.queue, ids[a]) {
      LockedByTop(p, lock, ids[a]);
      ClaimableAhead(p, back, lock.queue, ids[a]);
    }
    forall a, b | 0 <= a < b < |ids| ensures !Before(table[ids[b]], table[ids[a]]) {
      SameOrderAhead(p, back, ids[b], ids[a]);
      assert !Before(Rows(p.sys)[ids[b]], Rows(p.sys)[ids[a]]);
    }
    forall j | j in table && Claimable(table, {}, lock.queue, j) && j !in ids
      ensures |ids| == lock.limit && forall a :: 0 <= a < |ids| ==> !Before(table[j], table[ids[a]])
    {
      ClaimableAhead(p, back, lock.queue, j);
      forall a | 0 <= a < |ids| ensures !Before(table[j], table[ids[a]]) {
        SameOrderAhead(p, back, j, ids[a]);
      }
    }
  }

  lemma BestIsUnspoilt(p: PState, back: set<TxId>, lock: PStep)
    requires LocksHold(p) && lock.Lock? && Legal(p, lock)
    requires TopK(Ahead(p, back), {}, lock.queue, lock.limit, lock.ids)
    ensures Unspoilt(p, back, lock)
  {
    forall j | j in HeldBack(p, back) && QueuedIn(p.sys, j, lock.queue)
      ensures |lock.ids| == lock.limit
      ensures forall a :: 0 <= a < |lock.ids| && lock.ids[a] in p.sys.jobs ==>
                !Before(p.sys.jobs[j].row, p.sys.jobs[lock.ids[a]].row)
    {
      ClaimableAhead(p, back, lock.queue, j);
      assert j in LockedRows(p);
      if j in lock.ids {
        LockedByTop(p, lock, j);
      }
      forall a | 0 <= a < |lock.ids| && lock.ids[a] in p.sys.jobs
        ensures !Before(p.sys.jobs[j].row, p.sys.jobs[lock.ids[a]].row)
      {
        SameOrderAhead(p, back, j, lock.ids[a]);
      }
    }
  }

  // ---- the table over a run

  /** The rows a step rewrites or adds, laid over another version of the table. */
  function Overlay(table: Table, s: State, s': State): Table
    requires table.Keys == s.jobs.Keys
  {
    map j | j in s'.jobs ::
      if j in s.jobs && s'.jobs[j].row == s.jobs[j].row then table[j] else s'.jobs[j].row
  }

  /** What each step does to the table when claims happen in one piece at their locks, and
      transactions that roll back do nothing. */
  ghost function AtLock(p: PState, step: PStep, rest: seq<PStep>, table: Table): Table
    requires Legal(p, step) && table.Keys == p.sys.jobs.Keys
  {
    match step
    case Lock(tx, worker, _, _, ids) =>
      if RollsBack(rest, tx) then table else Marked(table, IdSet(ids), worker, p.sys.now)
    case Other(step) => Overlay(table, p.sys, Apply(p.sys, step))
    case _ => table
  }

  lemma SameRowAhead(p: PState, back: set<TxId>, p': PState, back': set<TxId>, j: JobId)
    requires LocksHold(p) && LocksHold(p') && j in p.sys.jobs && j in p'.sys.jobs
    requires p'.sys.jobs[j].row == p.sys.jobs[j].row
    requires forall t :: t in p.txs && t !in back && j in p.txs[t].ids ==>
               t in p'.txs && t !in back' && p'.txs[t].(versions := None) == p.txs[t].(versions := None)
    requires forall t :: t in p'.txs && t !in back' && j in p'.txs[t].ids ==>
               t in p.txs && t !in back && j in p.txs[t].ids
    ensures AheadRow(p', back', j) == AheadRow(p, back, j)
  {
    if t :| t in p.txs && t !in back && j in p.txs[t].ids {
      HolderIs(p, t, j);
      HolderIs(p', t, j);
    }
  }

  lemma LockRow(p: PState, lock: PStep, rest: seq<PStep>, j: JobId)
    requires LocksHold(p) && VersionsFit(p) && lock.Lock? && Legal(p, lock) && j in p.sys.jobs
    ensures var p' := Perform(p, lock);
            AheadRow(p', Back(p', rest), j) ==
              if j in lock.ids && !RollsBack(rest, lock.tx)
              then ClaimedRow(AheadRow(p, Back(p, [lock] + rest), j), lock.worker, p.sys.now)
              else AheadRow(p, Back(p, [lock] + rest), j)
  {
    var p' := Perform(p, lock);
    StepKeepsLocks(p, lock);
    assert ([lock] + rest)[1..] == rest;
    if j in lock.ids {
      LockedByTop(p, lock, j);
      HolderIs(p', lock.tx, j);
      assert j !in Taken(p, Back(p, [lock] + rest));
    } else {
      SameRowAhead(p, Back(p, [lock] + rest), p', Back(p', rest), j);
    }
  }

  lemma CommitRow(p: PState, tx: TxId, rest: seq<PStep>, j: JobId)
    requires LocksHold(p) && VersionsFit(p) && Legal(p, Commit(tx)) && j in p.sys.jobs
    ensures var p' := Perform(p, Commit(tx));
            AheadRow(p', Back(p', rest), j) == AheadRow(p, Back(p, [Commit(tx)] + rest), j)
  {
    var p', back := Perform(p, Commit(tx)), Back(p, [Commit(tx)] + rest);
    StepKeepsLocks(p, Commit(tx));
    assert ([Commit(tx)] + rest)[1..] == rest;
    if j in p.txs[tx].ids {
      HolderIs(p, tx, j);
      assert QueuedIn(p.sys, j, p.txs[tx].queue);
      assert j !in LockedRows(p');
    } else {
      PublishKeepsOthers(p, tx, j);
      SameRowAhead(p, back, p', Back(p', rest), j);
    }
  }

  lemma OtherRow(p: PState, step: Step, rest: seq<PStep>, j: JobId)
    requires LocksHold(p) && VersionsFit(p) && Legal(p, Other(step)) && j in p.sys.jobs
    ensures var p', back := Perform(p, Other(step)), Back(p, [Other(step)] + rest);
            && j in p'.sys.jobs
            && AheadRow(p', Back(p', rest), j) ==
                 if p'.sys.jobs[j].row == p.sys.jobs[j].row then AheadRow(p, back, j) else p'.sys.jobs[j].row
  {
    var p', back := Perform(p, Other(step)), Back(p, [Other(step)] + rest);
    StepKeepsLocks(p, Other(step));
    assert ([Other(step)] + rest)[1..] == rest;
    assert Back(p', rest) == back;
    if p'.sys.jobs[j].row == p.sys.jobs[j].row {
      SameRowAhead(p, back, p', Back(p', rest), j);
    } else {
      assert j !in LockedRows(p);
      assert j !in Taken(p', Back(p', rest));
    }
  }

  lemma QuietRow(p: PState, step: PStep, rest: seq<PStep>, j: JobId)
    requires LocksHold(p) && VersionsFit(p) && Legal(p, step) && (step.Update? || step.Rollback?) && j in p.sys.jobs
    ensures var p' := Perform(p, step);
            AheadRow(p', Back(p', rest), j) == AheadRow(p, Back(p, [step] + rest), j)
  {
    var p' := Perform(p, step);
    StepKeepsLocks(p, step);
    assert ([step] + rest)[1..] == rest;
    SameRowAhead(p, Back(p, [step] + rest), p', Back(p', rest), j);
  }

  lemma AheadStepRow(p: PState, step: PStep, rest: seq<PStep>, j: JobId)
    requires LocksHold(p) && VersionsFit(p) && Legal(p, step) && j in p.sys.jobs
    ensures var p' := Perform(p, step);
            && j in p'.sys.jobs
            && AheadRow(p', Back(p', rest), j) == AtLock(p, step, rest, Ahead(p, Back(p, [step] + rest)))[j]
  {
    match step {
      case Lock(_, _, _, _, _) => LockRow(p, step, rest, j);
      case Commit(tx) => CommitRow(p, tx, rest, j);
      case Other(other) => OtherRow(p, other, rest, j);
      case _ => QuietRow(p, step, rest, j);
    }
  }

  lemma AheadNewRow(p: PState, step: PStep, rest: seq<PStep>, j: JobId)
    requires LocksHold(p) && Legal(p, step) && j in Perform(p, step).sys.jobs && j !in p.sys.jobs
    ensures var p' := Perform(p, step);
            && AheadRow(p', Back(p', rest), j) == p'.sys.jobs[j].row
            && var table := AtLock(p, step, rest, Ahead(p, Back(p, [step] + rest)));
            && j in table && table[j] == p'.sys.jobs[j].row
  {
    NewRowIsUnlocked(p, step, j);
    assert j !in Taken(Perform(p, step), Back(Perform(p, step), rest));
  }

  lemma AheadAnyRow(p: PState, step: PStep, rest: seq<PStep>, j: JobId)
    requires LocksHold(p) && VersionsFit(p) && Legal(p, step)
    ensures var p', after := Perform(p, step), AtLock(p, step, rest, Ahead(p, Back(p, [step] + rest)));
            && (j in p'.sys.jobs <==> j in after)
            && (j in p'.sys.jobs ==> AheadRow(p', Back(p', rest), j) == after[j])
  {
    if j in p.sys.jobs {
      AheadStepRow(p, step, rest, j);
    } else if j in Perform(p, step).sys.jobs {
      AheadNewRow(p, step, rest, j);
    }
  }

  lemma SameTable(a: Table, b: Table)
    requires forall j :: (j in a <==> j in b) && (j in a ==> a[j] == b[j])
    ensures a == b
  {
  }

  lemma AheadStep(p: PState, step: PStep, rest: seq<PStep>)
    requires LocksHold(p) && VersionsFit(p) && Legal(p, step)
    ensures var p' := Perform(p, step);
            Ahead(p', Back(p', rest)) == AtLock(p, step, rest, Ahead(p, Back(p, [step] + rest)))
  {
    var p' := Perform(p, step);
    var ahead, after := Ahead(p', Back(p', rest)), AtLock(p, step, rest, Ahead(p, Back(p, [step] + rest)));
    forall j ensures (j in ahead <==> j in after) && (j in ahead ==> ahead[j] == after[j]) {
      AheadAnyRow(p, step, rest, j);
    }
    SameTable(ahead, after);
  }

  lemma NewRowIsUnlocked(p: PState, step: PStep, j: JobId)
    requires LocksHold(p) && Legal(p, step) && j in Perform(p, step).sys.jobs && j !in p.sys.jobs
    ensures j !in LockedRows(Perform(p, step))
  {
    forall t | t in p.txs ensures j !in p.txs[t].ids {
      assert j in p.txs[t].ids ==> QueuedIn(p.sys, j, p.txs[t].queue);
    }
  }

  ghost function AtLockAll(p: PState, steps: seq<PStep>, table: Table): Table
    requires LegalRun(p, steps) && table.Keys == p.sys.jobs.Keys
    decreases |steps|
  {
    if steps == [] then table else
    AtLockAll(Perform(p, steps[0]), steps[1..], AtLock(p, steps[0], steps[1..], table))
  }

  /** Every claim of the run that is not rolled back takes the best queued rows of the whole
      table, none skipped. */
  ghost predicate AllTakeTheBest(p: PState, steps: seq<PStep>, table: Table)
    requires LegalRun(p, steps) && table.Keys == p.sys.jobs.Keys
    decreases |steps|
  {
    steps != [] ==>
      && (steps[0].Lock? && !RollsBack(steps[1..], steps[0].tx) ==>
            TopK(table, {}, steps[0].queue, steps[0].limit, steps[0].ids))
      && AllTakeTheBest(Perform(p, steps[0]), steps[1..], AtLock(p, steps[0], steps[1..], table))
  }

  /** None of those claims is spoilt by a transaction that rolls back later. */
  ghost predicate NoneSpoilt(p: PState, steps: seq<PStep>)
    requires LegalRun(p, steps)
    decreases |steps|
  {
    steps != [] ==>
      && (steps[0].Lock? && !RollsBack(steps[1..], steps[0].tx) ==> Unspoilt(p, Back(p, steps), steps[0]))
      && NoneSpoilt(Perform(p, steps[0]), steps[1..])
  }

  /** Overlapping claims, rollbacks included, leave the table as if each claim that is not
      rolled back had happened in one piece when it took its locks; and each of those takes
      the best queued rows of its queue if and only if no lock is spoilt. */
  lemma {:induction false} PhasedClaimsTakeTheBestIffUnspoilt(p: PState, steps: seq<PStep>)
    requires LocksHold(p) && VersionsFit(p) && LegalRun(p, steps)
    ensures AtLockAll(p, steps, Ahead(p, Back(p, steps))) == Ahead(PerformAll(p, steps), {})
    ensures AllTakeTheBest(p, steps, Ahead(p, Back(p, steps))) <==> NoneSpoilt(p, steps)
    decreases |steps|
  {
    if steps == [] {
      assert Back(p, steps) == {};
    } else {
      var step, rest := steps[0], steps[1..];
      assert [step] + rest == steps;
      StepKeepsLocks(p, step);
      StepKeepsVersions(p, step);
      AheadStep(p, step, rest);
      if step.Lock? {
        LockTakesTheBestIffUnspoilt(p, Back(p, steps), step);
      }
      PhasedClaimsTakeTheBestIffUnspoilt(Perform(p, step), rest);
    }
  }

  // ---- corollaries

  ghost predicate NoRollback(steps: seq<PStep>) {
    forall k :: 0 <= k < |steps| ==> !steps[k].Rollback?
  }

  lemma {:induction false} NothingRollsBack(steps: seq<PStep>, tx: TxId)
    requires NoRollback(steps)
    ensures !RollsBack(steps, tx)
    decreases |steps|
  {
    if steps != [] {
      NothingRollsBack(steps[1..], tx);
    }
  }

  lemma {:induction false} NoRollbackSpoilsNothing(p: PState, steps: seq<PStep>)
    requires LegalRun(p, steps) && NoRollback(steps)
    ensures Back(p, steps) == {} && NoneSpoilt(p, steps)
    decreases |steps|
  {
    forall t | t in p.txs ensures !RollsBack(steps, t) {
      NothingRollsBack(steps, t);
    }
    if steps != [] {
      assert HeldBack(p, {}) == {};
      NoRollbackSpoilsNothing(Perform(p, steps[0]), steps[1..]);
    }
  }

  lemma NoneOpen(p: PState)
    requires p.txs == map[]
    ensures Ahead(p, {}) == Rows(p.sys)
  {
    assert Taken(p, {}) == {};
  }

  /** Without rollbacks, overlapping claims are a sequence of atomic ones, each taking the
      best queued rows: skipping locked rows never costs priority order. */
  lemma PhasedClaimsAreAtomicTopK(p: PState, steps: seq<PStep>)
    requires LocksHold(p) && VersionsFit(p) && LegalRun(p, steps) && NoRollback(steps)
    ensures AllTakeTheBest(p, steps, Ahead(p, {}))
    ensures AtLockAll(p, steps, Ahead(p, {})) == Ahead(PerformAll(p, steps), {})
    ensures PerformAll(p, steps).txs == map[] ==> AtLockAll(p, steps, Ahead(p, {})) == Rows(PerformAll(p, steps).sys)
  {
    NoRollbackSpoilsNothing(p, steps);
    PhasedClaimsTakeTheBestIffUnspoilt(p, steps);
    if PerformAll(p, steps).txs == map[] {
      NoneOpen(PerformAll(p, steps));
    }
  }
}
