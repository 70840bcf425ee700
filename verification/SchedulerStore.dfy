/** The scheduler's pass of apps/scheduler/tick.py over the table of recurring jobs, and what
    a sequence of passes adds to the jobs table. */
module SchedulerStore {
  import opened Types
  import opened Retry
  import opened Lifecycle
  import opened Protocol
  import opened Claiming
  import opened Queues
  import opened JobStore
  import opened Cron

  type Schedules = map<nat, ScheduledJob>

  type Croniter = (string, Time) -> Time

  function DueSchedules(schedules: Schedules, now: Time): set<nat> {
    set k | k in schedules && Due(schedules[k], now)
  }

  /** The schedules after a tick. */
  function AllTicked(schedules: Schedules, now: Time, croniter: Croniter): Schedules {
    map k | k in schedules :: Tick(schedules[k], now, t => croniter(schedules[k].cron, t))
  }

  function JobFor(s: ScheduledJob, now: Time): Job {
    EnqueuedRow(s.name + " (scheduled)", s.queue, s.payload, 0, 3, now)
  }

  /** A queued job for the schedule, with default priority and attempt limit. */
  predicate IsJobOf(r: Job, s: ScheduledJob, now: Time) {
    && r.name == s.name + " (scheduled)" && r.queue == s.queue && r.payload == s.payload
    && r.priority == 0 && r.maxAttempts == 3 && r.createdAt == now && r.status.Queued? && r.attempts == 0
  }

  // ---- one pass

  /** One pass of the scheduler: when it came, the schedules it found due in the order it
      found them, and new job ids for them. */
  datatype Pass = Pass(at: Time, due: seq<nat>, ids: seq<JobId>)

  predicate PassFits(schedules: Schedules, p: Pass) {
    && Distinct(p.due) && IdSet(p.due) == DueSchedules(schedules, p.at)
    && (forall k :: 0 <= k < |p.due| ==> p.due[k] in schedules)
    && |p.due| <= |p.ids| && Distinct(p.ids)
  }

  /** A row that a pass adds to the jobs table, and the schedule it is for. */
  datatype Addition = Addition(schedule: nat, job: JobId, row: Job)

  function PassAdditions(schedules: Schedules, p: Pass): seq<Addition>
    requires PassFits(schedules, p)
  {
    seq(|p.due|, k requires 0 <= k < |p.due| => Addition(p.due[k], p.ids[k], JobFor(schedules[p.due[k]], p.at)))
  }

  /** The table with the rows added, in order. */
  function Inserted(jobs: Table, added: seq<Addition>): Table {
    if added == [] then jobs else
    var n := |added| - 1;
    Inserted(jobs, added[..n])[added[n].job := added[n].row]
  }

  function PolicyOf(queues: QueueTable, queue: QueueId): Option<RetryPolicy> {
    if queue in queues then queues[queue].retryPolicy else None
  }

  /** The protocol's step for an added row. */
  function CreationOf(a: Addition, queues: QueueTable): Step {
    Create(a.job, a.row.name, a.row.queue, a.row.payload, a.row.priority, a.row.maxAttempts,
           PolicyOf(queues, a.row.queue))
  }

  /** The protocol state after those steps, all at the same time. */
  function Created(s: State, added: seq<Addition>, now: Time, queues: QueueTable): State {
    if added == [] then s else
    var n := |added| - 1;
    At(Created(s, added[..n], now, queues), now, CreationOf(added[n], queues))
  }

  /** So every theorem about open runs holds after a pass if it held before. */
  lemma {:induction false} PassKeepsReachable(s: State, added: seq<Addition>, now: Time, queues: QueueTable)
    requires Reachable(s)
    ensures Reachable(Created(s, added, now, queues))
    decreases |added|
  {
    if added != [] {
      var n := |added| - 1;
      PassKeepsReachable(s, added[..n], now, queues);
      AtKeepsReachable(Created(s, added[..n], now, queues), now, CreationOf(added[n], queues));
    }
  }

  /** A pass leaves every job it finds alone: row, executions, policy and history. */
  lemma {:induction false} PassKeepsJobs(s: State, added: seq<Addition>, now: Time, queues: QueueTable, job: JobId)
    requires job in s.jobs
    ensures var s' := Created(s, added, now, queues); job in s'.jobs && s'.jobs[job] == s.jobs[job]
    decreases |added|
  {
    if added != [] {
      PassKeepsJobs(s, added[..|added| - 1], now, queues, job);
    }
  }

  /** The jobs it adds carry the retry policy of their queue. */
  lemma {:induction false} PassKeepsPolicies(s: State, added: seq<Addition>, now: Time, queues: QueueTable)
    requires PoliciesAgree(s, queues) && forall k :: 0 <= k < |added| ==> added[k].row.queue in queues
    ensures PoliciesAgree(Created(s, added, now, queues), queues)
    decreases |added|
  {
    if added != [] {
      var n := |added| - 1;
      PassKeepsPolicies(s, added[..n], now, queues);
      var s1 := Created(s, added[..n], now, queues);
      StepKeepsPolicies(s1, SetClock(now), queues);
      StepKeepsPolicies(Apply(s1, SetClock(now)), CreationOf(added[n], queues), queues);
    }
  }

  function NewIds(added: seq<Addition>): set<JobId> {
    set a | a in added :: a.job
  }

  lemma {:induction false} InsertedKeys(jobs: Table, added: seq<Addition>)
    ensures Inserted(jobs, added).Keys == jobs.Keys + NewIds(added)
    decreases |added|
  {
    if added != [] {
      var n := |added| - 1;
      InsertedKeys(jobs, added[..n]);
      assert added == added[..n] + [added[n]];
      assert NewIds(added) == NewIds(added[..n]) + {added[n].job};
    }
  }

  /** The additions have ids of their own, new to the table. */
  predicate AreNew(jobs: Table, added: seq<Addition>) {
    && (forall a, b :: 0 <= a < b < |added| ==> added[a].job != added[b].job)
    && (forall k :: 0 <= k < |added| ==> added[k].job !in jobs)
  }

  lemma {:induction false} InsertedKeeps(jobs: Table, added: seq<Addition>, job: JobId)
    requires forall k :: 0 <= k < |added| ==> added[k].job != job
    ensures job in Inserted(jobs, added) <==> job in jobs
    ensures job in jobs ==> Inserted(jobs, added)[job] == jobs[job]
    decreases |added|
  {
    if added != [] {
      InsertedKeeps(jobs, added[..|added| - 1], job);
    }
  }

  lemma {:induction false} InsertedRow(jobs: Table, added: seq<Addition>, k: nat)
    requires AreNew(jobs, added) && k < |added|
    ensures added[k].job in Inserted(jobs, added) && Inserted(jobs, added)[added[k].job] == added[k].row
    decreases |added|
  {
    var n := |added| - 1;
    if k < n {
      InsertedRow(jobs, added[..n], k);
    }
  }

  lemma {:induction false} InsertedSize(jobs: Table, added: seq<Addition>)
    requires AreNew(jobs, added)
    ensures |Inserted(jobs, added)| == |jobs| + |added|
    decreases |added|
  {
    if added != [] {
      var n := |added| - 1;
      InsertedSize(jobs, added[..n]);
      InsertedKeeps(jobs, added[..n], added[n].job);
    }
  }

  /** Each addition is in the table under its own id, and no other row is added or changed. */
  lemma InsertedAt(jobs: Table, added: seq<Addition>)
    requires AreNew(jobs, added)
    ensures var after := Inserted(jobs, added);
            && after.Keys == jobs.Keys + NewIds(added) && |after| == |jobs| + |added|
            && (forall j :: j in jobs ==> after[j] == jobs[j])
            && (forall k :: 0 <= k < |added| ==> after[added[k].job] == added[k].row)
  {
    InsertedKeys(jobs, added);
    InsertedSize(jobs, added);
    forall j | j in jobs ensures Inserted(jobs, added)[j] == jobs[j] {
      InsertedKeeps(jobs, added, j);
    }
    forall k | 0 <= k < |added| ensures Inserted(jobs, added)[added[k].job] == added[k].row {
      InsertedRow(jobs, added, k);
    }
  }

  /** The schedules after the listed ones have moved on. */
  function MovedOn(schedules: Schedules, due: seq<nat>, now: Time, croniter: Croniter): Schedules
    requires forall k :: 0 <= k < |due| ==> due[k] in schedules
  {
    if due == [] then schedules else
    var n := |due| - 1;
    var s := schedules[due[n]];
    MovedOn(schedules, due[..n], now, croniter)[due[n] := Fired(s, now, croniter(s.cron, now))]
  }

  lemma {:induction false} MovedOnAt(schedules: Schedules, due: seq<nat>, now: Time, croniter: Croniter)
    requires Distinct(due) && forall k :: 0 <= k < |due| ==> due[k] in schedules
    ensures MovedOn(schedules, due, now, croniter).Keys == schedules.Keys
    ensures forall k :: k in schedules ==>
              MovedOn(schedules, due, now, croniter)[k] ==
                if k in due then Fired(schedules[k], now, croniter(schedules[k].cron, now)) else schedules[k]
    decreases |due|
  {
    if due != [] {
      var n := |due| - 1;
      MovedOnAt(schedules, due[..n], now, croniter);
      assert due == due[..n] + [due[n]];
    }
  }

  /** After the pass every due schedule has moved to its next occurrence and no other
      schedule has changed. */
  lemma MovedOnIsATick(schedules: Schedules, due: seq<nat>, now: Time, croniter: Croniter)
    requires Distinct(due) && IdSet(due) == DueSchedules(schedules, now)
    requires forall k :: 0 <= k < |due| ==> due[k] in schedules
    ensures MovedOn(schedules, due, now, croniter) == AllTicked(schedules, now, croniter)
  {
    MovedOnAt(schedules, due, now, croniter);
    forall k | k in schedules ensures k in due <==> Due(schedules[k], now) {
      assert k in IdSet(due) <==> k in DueSchedules(schedules, now);
    }
  }

  lemma OneMoreMoved(schedules: Schedules, due: seq<nat>, k: nat, now: Time, croniter: Croniter)
    requires k < |due| && Distinct(due) && forall i :: 0 <= i < |due| ==> due[i] in schedules
    ensures var before, s := MovedOn(schedules, due[..k], now, croniter), schedules[due[k]];
            && due[k] in before && before[due[k]] == s
            && MovedOn(schedules, due[..k + 1], now, croniter) == before[due[k] := Fired(s, now, croniter(s.cron, now))]
  {
    assert due[..k + 1][..k] == due[..k];
    MovedOnAt(schedules, due[..k], now, croniter);
  }

  lemma OneMoreAdded(jobs: Table, s: State, schedules: Schedules, p: Pass, k: nat, queues: QueueTable)
    requires PassFits(schedules, p) && k < |p.due| && forall i :: 0 <= i < |p.ids| ==> p.ids[i] !in jobs
    ensures var added := PassAdditions(schedules, p);
            && added[k].job !in Inserted(jobs, added[..k])
            && Inserted(jobs, added[..k + 1]) == Inserted(jobs, added[..k])[p.ids[k] := added[k].row]
            && Created(s, added[..k + 1], p.at, queues) ==
                 At(Created(s, added[..k], p.at, queues), p.at, CreationOf(added[k], queues))
  {
    var added := PassAdditions(schedules, p);
    assert added[..k + 1][..k] == added[..k];
    InsertedKeeps(jobs, added[..k], added[k].job);
  }

  // ---- a sequence of passes

  function SchedulesAfter(schedules: Schedules, passes: seq<Pass>, croniter: Croniter): Schedules {
    if passes == [] then schedules else
    var n := |passes| - 1;
    AllTicked(SchedulesAfter(schedules, passes[..n], croniter), passes[n].at, croniter)
  }

  predicate AllFit(schedules: Schedules, passes: seq<Pass>, croniter: Croniter) {
    passes != [] ==>
      && AllFit(schedules, passes[..|passes| - 1], croniter)
      && PassFits(SchedulesAfter(schedules, passes[..|passes| - 1], croniter), passes[|passes| - 1])
  }

  /** Everything the passes add, whatever else happens to the jobs table in between. */
  function Additions(schedules: Schedules, passes: seq<Pass>, croniter: Croniter): seq<Addition>
    requires AllFit(schedules, passes, croniter)
  {
    if passes == [] then [] else
    var n := |passes| - 1;
    Additions(schedules, passes[..n], croniter) +
      PassAdditions(SchedulesAfter(schedules, passes[..n], croniter), passes[n])
  }

  /** Those for one schedule. */
  function AdditionsFor(added: seq<Addition>, k: nat): seq<Addition> {
    if added == [] then [] else
    var n := |added| - 1;
    AdditionsFor(added[..n], k) + (if added[n].schedule == k then [added[n]] else [])
  }

  function Times(passes: seq<Pass>): seq<Time> {
    seq(|passes|, i requires 0 <= i < |passes| => passes[i].at)
  }

  function NextOf(s: ScheduledJob, croniter: Croniter): Next {
    t => croniter(s.cron, t)
  }

  lemma {:induction false} AdditionsConcat(a: seq<Addition>, b: seq<Addition>, k: nat)
    ensures AdditionsFor(a + b, k) == AdditionsFor(a, k) + AdditionsFor(b, k)
    decreases |b|
  {
    if b == [] {
      assert a + b == a;
    } else {
      assert (a + b)[..|a + b| - 1] == a + b[..|b| - 1];
      AdditionsConcat(a, b[..|b| - 1], k);
    }
  }

  lemma {:induction false} NoneFor(added: seq<Addition>, k: nat)
    requires forall i :: 0 <= i < |added| ==> added[i].schedule != k
    ensures AdditionsFor(added, k) == []
    decreases |added|
  {
    if added != [] {
      NoneFor(added[..|added| - 1], k);
    }
  }

  lemma {:induction false} OneFor(added: seq<Addition>, i: nat)
    requires i < |added| && forall a, b :: 0 <= a < b < |added| ==> added[a].schedule != added[b].schedule
    ensures AdditionsFor(added, added[i].schedule) == [added[i]]
    decreases |added|
  {
    var n := |added| - 1;
    if i < n {
      OneFor(added[..n], i);
    } else {
      NoneFor(added[..n], added[n].schedule);
    }
  }

  /** A pass adds one job for a schedule that is due, none for any other. */
  lemma PassAddsOneIfDue(schedules: Schedules, p: Pass, k: nat)
    requires PassFits(schedules, p) && k in schedules
    ensures var mine := AdditionsFor(PassAdditions(schedules, p), k);
            if Due(schedules[k], p.at)
            then |mine| == 1 && mine[0].row == JobFor(schedules[k], p.at)
            else mine == []
  {
    var added := PassAdditions(schedules, p);
    assert k in IdSet(p.due) <==> Due(schedules[k], p.at);
    if i :| 0 <= i < |p.due| && p.due[i] == k {
      OneFor(added, i);
    } else {
      NoneFor(added, k);
    }
  }

  lemma {:induction false} TickedIn(schedules: Schedules, passes: seq<Pass>, croniter: Croniter, k: nat)
    requires k in schedules
    ensures var after := SchedulesAfter(schedules, passes, croniter);
            && k in after
            && after[k] == Ticked(schedules[k], Times(passes), NextOf(schedules[k], croniter))
            && after[k].(lastRunAt := None, nextRunAt := None) == schedules[k].(lastRunAt := None, nextRunAt := None)
    decreases |passes|
  {
    if passes != [] {
      var n := |passes| - 1;
      TickedIn(schedules, passes[..n], croniter, k);
      assert Times(passes)[..n] == Times(passes[..n]);
    }
  }

  /** Row i of the additions is the job of firing i. */
  predicate AreJobsOf(added: seq<Addition>, firings: seq<Firing>, s: ScheduledJob) {
    |added| == |firings| && forall i :: 0 <= i < |added| ==> IsJobOf(added[i].row, s, firings[i].at)
  }

  lemma JobsOfExtend(added: seq<Addition>, more: seq<Addition>, firings: seq<Firing>, s: ScheduledJob, at: Time,
                     due: Time)
    requires AreJobsOf(added, firings, s)
    requires more == [] || (|more| == 1 && IsJobOf(more[0].row, s, at))
    ensures AreJobsOf(added + more, if more == [] then firings else firings + [Firing(due, at)], s)
  {
  }

  lemma JobForIsJobOf(s: ScheduledJob, t: ScheduledJob, now: Time)
    requires t.name == s.name && t.queue == s.queue && t.payload == s.payload
    ensures IsJobOf(JobFor(t, now), s, now)
  {
  }

  /** Over any sequence of passes, the rows added for a schedule are exactly the jobs of its
      firings, one each, in order. So whatever is proved of firings - that they are distinct
      and cover every occurrence - holds of the rows in the jobs table. */
  lemma {:induction false} AddedRowsAreFirings(schedules: Schedules, passes: seq<Pass>, croniter: Croniter, k: nat)
    requires AllFit(schedules, passes, croniter) && k in schedules
    ensures AreJobsOf(AdditionsFor(Additions(schedules, passes, croniter), k),
                      Firings(schedules[k], Times(passes), NextOf(schedules[k], croniter)), schedules[k])
    decreases |passes|
  {
    if passes != [] {
      var n := |passes| - 1;
      var s, next := schedules[k], NextOf(schedules[k], croniter);
      AddedRowsAreFirings(schedules, passes[..n], croniter, k);
      TickedIn(schedules, passes[..n], croniter, k);
      assert Times(passes)[..n] == Times(passes[..n]);
      var before := SchedulesAfter(schedules, passes[..n], croniter);
      PassAddsOneIfDue(before, passes[n], k);
      AdditionsConcat(Additions(schedules, passes[..n], croniter), PassAdditions(before, passes[n]), k);
      OneMoreFiring(s, Times(passes), next);
      JobForIsJobOf(s, before[k], passes[n].at);
      JobsOfExtend(AdditionsFor(Additions(schedules, passes[..n], croniter), k),
                   AdditionsFor(PassAdditions(before, passes[n]), k),
                   Firings(s, Times(passes[..n]), next), s, passes[n].at,
                   if before[k].nextRunAt.Some? then before[k].nextRunAt.value else 0.0);
    }
  }

  /** A schedule created at one time and passed over at others gets one row for each
      occurrence in between if and only if a pass separates every two neighbouring
      occurrences; otherwise it gets fewer. */
  lemma OneRowPerOccurrenceIffSeparated(schedules: Schedules, passes: seq<Pass>, croniter: Croniter, k: nat,
                                        created: Time, occ: nat -> Time)
    requires AllFit(schedules, passes, croniter) && k in schedules
    requires IsCron(NextOf(schedules[k], croniter), occ)
    requires CreatedAt(schedules[k], created, NextOf(schedules[k], croniter)) && InOrderFrom(created, Times(passes))
    ensures var next := NextOf(schedules[k], croniter);
            var rows := |AdditionsFor(Additions(schedules, passes, croniter), k)|;
            var passed := IndexAfter(next, occ, LastOf(created, Times(passes))) - IndexAfter(next, occ, created);
            && rows <= passed
            && (rows == passed <==> Separated(created, Times(passes), occ))
  {
    AddedRowsAreFirings(schedules, passes, croniter, k);
    OneJobPerOccurrenceIffSeparated(schedules[k], created, Times(passes), NextOf(schedules[k], croniter), occ);
  }

  lemma OneMoreFiring(s: ScheduledJob, ticks: seq<Time>, next: Next)
    requires ticks != []
    ensures var n := |ticks| - 1; var before := Ticked(s, ticks[..n], next);
            if Due(before, ticks[n])
            then Firings(s, ticks, next) == Firings(s, ticks[..n], next) + [Firing(before.nextRunAt.value, ticks[n])]
            else Firings(s, ticks, next) == Firings(s, ticks[..n], next)
  {
  }

  /** And nothing else is added. */
  lemma {:induction false} NothingElseIsAdded(schedules: Schedules, passes: seq<Pass>, croniter: Croniter, i: nat)
    requires AllFit(schedules, passes, croniter) && i < |Additions(schedules, passes, croniter)|
    ensures Additions(schedules, passes, croniter)[i].schedule in schedules
    decreases |passes|
  {
    var n := |passes| - 1;
    var earlier := Additions(schedules, passes[..n], croniter);
    if i < |earlier| {
      NothingElseIsAdded(schedules, passes[..n], croniter, i);
    } else {
      SameSchedules(schedules, passes[..n], croniter);
      assert Additions(schedules, passes, croniter)[i].schedule == passes[n].due[i - |earlier|];
    }
  }

  lemma {:induction false} SameSchedules(schedules: Schedules, passes: seq<Pass>, croniter: Croniter)
    ensures SchedulesAfter(schedules, passes, croniter).Keys == schedules.Keys
    decreases |passes|
  {
    if passes != [] {
      SameSchedules(schedules, passes[..|passes| - 1], croniter);
    }
  }

  class Scheduler {
    var schedules: Schedules

    constructor ()
      ensures schedules == map[]
    {
      schedules := map[];
    }

    /** POST /scheduled-jobs, once the expression is known to be valid. */
    method CreateSchedule(id: nat, name: string, cron: string, queue: QueueId, payload: string, now: Time,
                          croniter: Croniter)
      requires id !in schedules
      modifies this
      ensures id in schedules && schedules == old(schedules)[id := schedules[id]]
      ensures CreatedAt(schedules[id], now, t => croniter(cron, t)) && schedules[id].lastRunAt == None
      ensures var s := schedules[id]; s.name == name && s.cron == cron && s.queue == queue && s.payload == payload
    {
      schedules := schedules[id := ScheduledJob(name, cron, queue, payload, true, None, Some(croniter(cron, now)))];
    }

    method ListDue(now: Time) returns (due: seq<nat>)
      ensures Distinct(due) && IdSet(due) == DueSchedules(schedules, now) && |due| == |DueSchedules(schedules, now)|
      ensures forall k :: 0 <= k < |due| ==> due[k] in schedules
    {
      due := [];
      var todo := DueSchedules(schedules, now);
      while todo != {}
        invariant todo <= DueSchedules(schedules, now)
        invariant Distinct(due) && IdSet(due) == DueSchedules(schedules, now) - todo
        invariant |due| + |todo| == |DueSchedules(schedules, now)|
        invariant forall k :: 0 <= k < |due| ==> due[k] in schedules
        decreases |todo|
      {
        var k :| k in todo;
        assert IdSet(due + [k]) == IdSet(due) + {k};
        due := due + [k];
        todo := todo - {k};
      }
    }

    /** One due schedule: a job is added under the new id, the schedule moves on. */
    method Fire(store: JobRepository, k: nat, job: JobId, now: Time, croniter: Croniter, ghost queues: QueueTable)
      requires store.Valid() && k in schedules && job !in store.jobs
      modifies this, store`jobs, store`model
      ensures store.Valid()
      ensures schedules == old(schedules)[k := Fired(old(schedules)[k], now, croniter(old(schedules)[k].cron, now))]
      ensures var s := old(schedules)[k];
              schedules == old(schedules)[k := s.(lastRunAt := Some(now), nextRunAt := Some(croniter(s.cron, now)))]
      ensures store.jobs == old(store.jobs)[job := JobFor(old(schedules)[k], now)]
      ensures var s := old(schedules)[k];
              store.jobs[job] == Job(s.name + " (scheduled)", s.queue, s.payload, 0, Queued, None, 0, 3,
                                     None, None, None, None, None, 1, now)
      ensures store.model ==
                At(old(store.model), now, CreationOf(Addition(k, job, JobFor(old(schedules)[k], now)), queues))
    {
      var s := schedules[k];
      store.Create(job, s.name + " (scheduled)", s.queue, s.payload, 0, 3, now, PolicyOf(queues, s.queue));
      schedules := schedules[k := Fired(s, now, croniter(s.cron, now))];
    }

    /** Enqueues one job, under the next new id, for every due schedule, and moves each of
        those schedules on. */
    method EnqueueScheduledJobs(store: JobRepository, now: Time, croniter: Croniter, ids: seq<JobId>,
                                ghost queues: QueueTable)
      returns (due: seq<nat>)
      requires store.Valid()
      requires Distinct(ids) && |ids| >= |schedules| && forall k :: 0 <= k < |ids| ==> ids[k] !in store.jobs
      modifies this, store`jobs, store`model
      ensures store.Valid()
      ensures schedules == AllTicked(old(schedules), now, croniter)
      ensures schedules.Keys == old(schedules).Keys
      ensures forall k :: k in schedules ==>
                && var was := old(schedules)[k];
                schedules[k] == if was.isActive && was.nextRunAt.Some? && was.nextRunAt.value <= now
                                then was.(lastRunAt := Some(now), nextRunAt := Some(croniter(was.cron, now)))
                                else was
      ensures forall k :: k in due <==>
                && k in old(schedules) && old(schedules)[k].isActive
                && old(schedules)[k].nextRunAt.Some? && old(schedules)[k].nextRunAt.value <= now
      ensures PassFits(old(schedules), Pass(now, due, ids))
      ensures store.jobs == Inserted(old(store.jobs), PassAdditions(old(schedules), Pass(now, due, ids)))
      ensures store.model ==
                Created(old(store.model), PassAdditions(old(schedules), Pass(now, due, ids)), now, queues)
    {
      due := ListDue(now);
      SubsetSize(DueSchedules(schedules, now), schedules.Keys);
      ghost var pass := Pass(now, due, ids);
      ghost var added := PassAdditions(schedules, pass);
      for k := 0 to |due|
        invariant store.Valid()
        invariant schedules == MovedOn(old(schedules), due[..k], now, croniter)
        invariant store.jobs == Inserted(old(store.jobs), added[..k])
        invariant store.model == Created(old(store.model), added[..k], now, queues)
      {
        OneMoreMoved(old(schedules), due, k, now, croniter);
        OneMoreAdded(old(store.jobs), old(store.model), old(schedules), pass, k, queues);
        Fire(store, due[k], ids[k], now, croniter, queues);
      }
      assert due[..|due|] == due && added[..|due|] == added;
      MovedOnIsATick(old(schedules), due, now, croniter);
      forall k ensures k in due <==> k in DueSchedules(old(schedules), now) {
        assert k in due <==> k in IdSet(due);
      }
    }
  }
}
