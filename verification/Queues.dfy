/** The queues table and the reads of packages/db/repositories/queue_repo.py that decide
    whether a poll may claim from a queue. */
module Queues {
  import opened Types
  import opened Retry
  import opened Lifecycle
  import opened Protocol
  import opened Claiming

  datatype Queue = Queue(
    id: QueueId,
    project: nat,
    priority: int,
    concurrencyLimit: nat,
    isPaused: bool,
    retryPolicy: Option<RetryPolicy>)

  type QueueTable = map<QueueId, Queue>

  function RunningIds(jobs: Table, queue: QueueId): set<JobId> {
    set j | j in jobs && jobs[j].queue == queue && jobs[j].status.Running?
  }

  lemma EveryRunningRowCounts(jobs: Table, queue: QueueId)
    ensures RunningIds(jobs, queue) == set j | j in jobs && jobs[j].queue == queue && jobs[j].status == Running
  {
  }

  /** A limit of zero means no limit; only running rows count against it. */
  predicate AtLimit(jobs: Table, q: Queue) {
    q.concurrencyLimit > 0 && |RunningIds(jobs, q.id)| >= q.concurrencyLimit
  }

  predicate Drained(jobs: Table, locked: set<JobId>, queue: QueueId) {
    forall j :: j in jobs ==> !Claimable(jobs, locked, queue, j)
  }

  /** The polls of the project's workers look into this queue. */
  predicate IsPolled(queues: QueueTable, project: nat, id: QueueId) {
    id in queues && queues[id].project == project && !queues[id].isPaused
  }

  /** Exactly the project's queues that are not paused, each once, highest priority first. */
  ghost predicate ActiveInOrder(queues: QueueTable, project: nat, qs: seq<Queue>) {
    && (forall a, b :: 0 <= a < b < |qs| ==> qs[a].priority >= qs[b].priority && qs[a].id != qs[b].id)
    && (forall q :: q in qs <==> IsPolled(queues, project, q.id) && queues[q.id] == q)
  }

  ghost predicate Keyed(queues: QueueTable) {
    forall id :: id in queues ==> queues[id].id == id
  }

  // ---- pausing

  function WithPause(queues: QueueTable, queue: QueueId, paused: bool): QueueTable {
    if queue in queues then queues[queue := queues[queue].(isPaused := paused)] else queues
  }

  ghost function IdsOf(qs: seq<Queue>): set<QueueId> {
    set q | q in qs :: q.id
  }

  /** Pausing takes exactly that queue out of the polls of its project, resuming puts
      exactly that queue back in, and neither concerns any other project. */
  lemma PauseDecidesPolling(queues: QueueTable, queue: QueueId, paused: bool, project: nat,
                            before: seq<Queue>, after: seq<Queue>)
    requires Keyed(queues) && ActiveInOrder(queues, project, before)
    requires ActiveInOrder(WithPause(queues, queue, paused), project, after)
    ensures IdsOf(after) ==
              if paused then IdsOf(before) - {queue}
              else if queue in queues && queues[queue].project == project then IdsOf(before) + {queue}
              else IdsOf(before)
    ensures forall q :: q in before && q.id != queue ==> q in after
    ensures forall q :: q in after && q.id != queue ==> q in before
  {
    var queues' := WithPause(queues, queue, paused);
    forall id ensures id in IdsOf(before) <==> IsPolled(queues, project, id) {
      ListedIffPolled(queues, project, before, id);
    }
    forall id ensures id in IdsOf(after) <==> IsPolled(queues', project, id) {
      ListedIffPolled(queues', project, after, id);
    }
  }

  lemma ListedIffPolled(queues: QueueTable, project: nat, qs: seq<Queue>, id: QueueId)
    requires Keyed(queues) && ActiveInOrder(queues, project, qs)
    ensures id in IdsOf(qs) <==> IsPolled(queues, project, id)
  {
    if IsPolled(queues, project, id) {
      assert queues[id] in qs;
    }
  }

  // ---- retry policies

  /** Every job carries the retry policy of its queue. */
  ghost predicate PoliciesAgree(s: State, queues: QueueTable) {
    forall j :: j in s.jobs ==> PolicyAgrees(s.jobs[j], queues)
  }

  predicate PolicyAgrees(c: Cell, queues: QueueTable) {
    c.row.queue in queues && c.policy == queues[c.row.queue].retryPolicy
  }

  /** A job enters with the policy of a queue that exists. */
  predicate CreatesWithPolicy(step: Step, queues: QueueTable) {
    step.Create? ==> step.queue in queues && step.policy == queues[step.queue].retryPolicy
  }

  lemma StepKeepsPolicies(s: State, step: Step, queues: QueueTable)
    requires PoliciesAgree(s, queues) && CreatesWithPolicy(step, queues)
    ensures PoliciesAgree(Apply(s, step), queues)
  {
    var s' := Apply(s, step);
    forall j | j in s'.jobs ensures PolicyAgrees(s'.jobs[j], queues) {
      if j in s.jobs && EventAt(step, j).Some? {
        EventKeepsIdentity(s.jobs[j], s.now, EventAt(step, j).value);
      }
    }
  }

  /** In every run whose jobs are created with the policy of their queue, each job still
      has it whenever a worker looks. */
  lemma {:induction false} RunKeepsPolicies(s: State, steps: seq<Step>, queues: QueueTable)
    requires PoliciesAgree(s, queues)
    requires forall k :: 0 <= k < |steps| ==> CreatesWithPolicy(steps[k], queues)
    ensures PoliciesAgree(After(s, steps), queues)
    decreases |steps|
  {
    if steps != [] {
      StepKeepsPolicies(s, steps[0], queues);
      RunKeepsPolicies(Apply(s, steps[0]), steps[1..], queues);
    }
  }

  // ---- the table

  class QueueRepository {
    var queues: QueueTable

    ghost predicate Valid()
      reads this
    {
      Keyed(queues)
    }

    constructor ()
      ensures Valid() && queues == map[]
    {
      queues := map[];
    }

    method GetActiveQueues(project: nat) returns (qs: seq<Queue>)
      requires Valid()
      ensures ActiveInOrder(queues, project, qs)
      ensures forall q :: q in qs <==> q.id in queues && queues[q.id] == q && q.project == project && !q.isPaused
      ensures forall a, b :: 0 <= a < b < |qs| ==> qs[a].priority >= qs[b].priority && qs[a].id != qs[b].id
    {
      qs := [];
      var pool := set id | id in queues && IsPolled(queues, project, id);
      while pool != {}
        invariant forall a, b :: 0 <= a < b < |qs| ==> qs[a].priority >= qs[b].priority && qs[a].id != qs[b].id
        invariant forall id :: id in pool ==> IsPolled(queues, project, id)
        invariant forall a, id :: 0 <= a < |qs| && id in pool ==>
                    qs[a].priority >= queues[id].priority && qs[a].id != id
        invariant forall q :: q in qs ==> IsPolled(queues, project, q.id) && queues[q.id] == q
        invariant forall id :: IsPolled(queues, project, id) ==> id in pool || queues[id] in qs
        decreases |pool|
      {
        var best := FindHighest(pool);
        qs := qs + [queues[best]];
        pool := pool - {best};
      }
    }

    method FindHighest(pool: set<QueueId>) returns (best: QueueId)
      requires pool != {} && pool <= queues.Keys
      ensures best in pool && forall id :: id in pool ==> queues[best].priority >= queues[id].priority
    {
      best :| best in pool;
      var rest := pool - {best};
      while rest != {}
        invariant rest <= pool && best in pool
        invariant forall id :: id in pool - rest ==> queues[best].priority >= queues[id].priority
        decreases |rest|
      {
        var id :| id in rest;
        if queues[id].priority > queues[best].priority {
          best := id;
        }
        rest := rest - {id};
      }
    }

    /** Pauses or resumes the queue; the route reports not-found otherwise. */
    method UpdatePauseState(queue: QueueId, paused: bool) returns (found: bool)
      requires Valid()
      modifies this
      ensures Valid()
      ensures found <==> queue in old(queues)
      ensures queues == WithPause(old(queues), queue, paused)
      ensures queues == if found then old(queues)[queue := old(queues)[queue].(isPaused := paused)] else old(queues)
      ensures forall project, id :: IsPolled(queues, project, id) <==>
                if found && id == queue then !paused && old(queues)[id].project == project
                else IsPolled(old(queues), project, id)
      ensures forall s :: PoliciesAgree(s, old(queues)) ==> PoliciesAgree(s, queues)
    {
      found := queue in queues;
      if found {
        queues := queues[queue := queues[queue].(isPaused := paused)];
      }
      forall s | PoliciesAgree(s, old(queues)) ensures PoliciesAgree(s, queues) {
        PausingKeepsPolicies(s, old(queues), queue, paused);
      }
    }

    static lemma PausingKeepsPolicies(s: State, queues: QueueTable, queue: QueueId, paused: bool)
      requires PoliciesAgree(s, queues)
      ensures PoliciesAgree(s, WithPause(queues, queue, paused))
    {
      forall j | j in s.jobs ensures PolicyAgrees(s.jobs[j], WithPause(queues, queue, paused)) {
      }
    }
  }
}
