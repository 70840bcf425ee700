/** The claim query of packages/db/repositories/job_repo.py: the queued, unlocked rows of
    one queue, by priority and then age, up to a limit. */
module Claiming {
  import opened Types
  import opened Lifecycle

  type Table = map<JobId, Job>

  predicate Claimable(jobs: Table, locked: set<JobId>, queue: QueueId, j: JobId) {
    j in jobs && j !in locked && jobs[j].queue == queue && jobs[j].status.Queued?
  }

  /** a is served strictly before b: higher priority first, older first among equals. */
  predicate Before(a: Job, b: Job) {
    a.priority > b.priority || (a.priority == b.priority && a.createdAt < b.createdAt)
  }

  predicate Ties(a: Job, b: Job) {
    a.priority == b.priority && a.createdAt == b.createdAt
  }

  function IdSet(ids: seq<JobId>): set<JobId> {
    set j | j in ids
  }

  predicate Distinct(ids: seq<JobId>) {
    forall a, b :: 0 <= a < b < |ids| ==> ids[a] != ids[b]
  }

  predicate InOrder(jobs: Table, ids: seq<JobId>)
    requires forall a :: 0 <= a < |ids| ==> ids[a] in jobs
  {
    forall a, b :: 0 <= a < b < |ids| ==> !Before(jobs[ids[b]], jobs[ids[a]])
  }

  /** The ids are a top-k of the queue: as many claimable rows as the limit allows, in
      serving order, and nothing left behind was due before one of them. */
  predicate TopK(jobs: Table, locked: set<JobId>, queue: QueueId, limit: nat, ids: seq<JobId>) {
    && |ids| <= limit
    && Distinct(ids)
    && (forall a :: 0 <= a < |ids| ==> Claimable(jobs, locked, queue, ids[a]))
    && InOrder(jobs, ids)
    && (forall j :: j in jobs && Claimable(jobs, locked, queue, j) && j !in ids ==>
          |ids| == limit && forall a :: 0 <= a < |ids| ==> !Before(jobs[j], jobs[ids[a]]))
  }

  // ---- the scan

  method FindFirst(jobs: Table, pool: set<JobId>) returns (best: JobId)
    requires pool != {} && pool <= jobs.Keys
    ensures best in pool && forall j :: j in pool ==> !Before(jobs[j], jobs[best])
  {
    best :| best in pool;
    var rest := pool - {best};
    while rest != {}
      invariant rest <= pool && best in pool
      invariant forall j :: j in pool - rest ==> !Before(jobs[j], jobs[best])
      decreases |rest|
    {
      var j :| j in rest;
      if Before(jobs[j], jobs[best]) {
        best := j;
      }
      rest := rest - {j};
    }
  }

  method SelectClaimable(jobs: Table, locked: set<JobId>, queue: QueueId, limit: nat) returns (ids: seq<JobId>)
    ensures TopK(jobs, locked, queue, limit, ids)
    // queued, unlocked rows of the queue, at most as many as asked for
    ensures |ids| <= limit && forall a :: 0 <= a < |ids| ==>
              && ids[a] in jobs && ids[a] !in locked && jobs[ids[a]].queue == queue && jobs[ids[a]].status == Queued
    // each once, by falling priority and then rising age
    ensures forall a, b :: 0 <= a < b < |ids| ==>
              && ids[a] != ids[b]
              && jobs[ids[a]].priority >= jobs[ids[b]].priority
              && (jobs[ids[a]].priority == jobs[ids[b]].priority ==> jobs[ids[a]].createdAt <= jobs[ids[b]].createdAt)
    // a row left behind means the limit is reached, by rows that are no worse
    ensures forall j :: j in jobs && j !in locked && j !in ids && jobs[j].queue == queue && jobs[j].status == Queued ==>
              && |ids| == limit
              && forall a :: 0 <= a < |ids| ==>
                   && jobs[ids[a]].priority >= jobs[j].priority
                   && (jobs[ids[a]].priority == jobs[j].priority ==> jobs[ids[a]].createdAt <= jobs[j].createdAt)
  {
    ids := [];
    var pool := set j | j in jobs && Claimable(jobs, locked, queue, j);
    while |ids| < limit && pool != {}
      invariant |ids| <= limit && Distinct(ids)
      invariant forall j :: j in pool <==> Claimable(jobs, locked, queue, j) && j !in ids
      invariant forall a :: 0 <= a < |ids| ==> Claimable(jobs, locked, queue, ids[a])
      invariant InOrder(jobs, ids)
      invariant forall a, j :: 0 <= a < |ids| && j in pool ==> !Before(jobs[j], jobs[ids[a]])
      decreases limit - |ids|
    {
      var best := FindFirst(jobs, pool);
      ids := ids + [best];
      pool := pool - {best};
    }
  }

  // ---- what the selection means

  lemma {:induction false} DistinctSize(ids: seq<JobId>)
    requires Distinct(ids)
    ensures |IdSet(ids)| == |ids|
  {
    if ids != [] {
      var n := |ids| - 1;
      DistinctSize(ids[..n]);
      assert ids == ids[..n] + [ids[n]];
      assert IdSet(ids) == IdSet(ids[..n]) + {ids[n]};
    }
  }

  /** Any two answers of the query have the same length and agree, position by position,
      on priority and age: only ties are free. */
  lemma TopKIsUniqueUpToTies(jobs: Table, locked: set<JobId>, queue: QueueId, limit: nat,
                             a: seq<JobId>, b: seq<JobId>)
    requires TopK(jobs, locked, queue, limit, a) && TopK(jobs, locked, queue, limit, b)
    ensures |a| == |b|
    ensures forall i :: 0 <= i < |a| ==> Ties(jobs[a[i]], jobs[b[i]])
  {
    NoLongerThan(jobs, locked, queue, limit, a, b);
    NoLongerThan(jobs, locked, queue, limit, b, a);
    forall i | 0 <= i < |a| ensures Ties(jobs[a[i]], jobs[b[i]]) {
      NotStrictlyBefore(jobs, locked, queue, limit, a, b, i);
      NotStrictlyBefore(jobs, locked, queue, limit, b, a, i);
    }
  }

  lemma NoLongerThan(jobs: Table, locked: set<JobId>, queue: QueueId, limit: nat, a: seq<JobId>, b: seq<JobId>)
    requires TopK(jobs, locked, queue, limit, a) && TopK(jobs, locked, queue, limit, b)
    ensures |a| <= |b|
  {
    if |b| < limit {
      DistinctSize(a);
      DistinctSize(b);
      SubsetSize(IdSet(a), IdSet(b));
    }
  }

  lemma NotStrictlyBefore(jobs: Table, locked: set<JobId>, queue: QueueId, limit: nat,
                          a: seq<JobId>, b: seq<JobId>, i: nat)
    requires TopK(jobs, locked, queue, limit, a) && TopK(jobs, locked, queue, limit, b)
    requires i < |a| == |b|
    ensures !Before(jobs[a[i]], jobs[b[i]])
  {
    if Before(jobs[a[i]], jobs[b[i]]) {
      // everything a serves up to i would have to sit among the first i of b
      var front, room := IdSet(a[..i + 1]), IdSet(b[..i]);
      forall j | j in front ensures j in room {
        var p :| 0 <= p <= i && a[p] == j;
        assert !Before(jobs[a[i]], jobs[a[p]]);
        assert Before(jobs[j], jobs[b[i]]);
        assert Claimable(jobs, locked, queue, j);
        assert j in b;
        var q :| 0 <= q < |b| && b[q] == j;
        assert q < i;
        assert b[..i][q] == j;
      }
      DistinctSize(a[..i + 1]);
      DistinctSize(b[..i]);
      SubsetSize(front, room);
    }
  }

  // ---- the update of the selected rows

  /** The table once the rows are marked claimed. */
  function Marked(jobs: Table, ids: set<JobId>, worker: WorkerId, at: Time): Table {
    map j | j in jobs :: if j in ids then ClaimedRow(jobs[j], worker, at) else jobs[j]
  }
}
