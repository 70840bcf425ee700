/** Recurring jobs of apps/scheduler/tick.py. A cron expression is an endless increasing
    sequence of occurrences; croniter gives the first one after a time. */
module Cron {
  import opened Types

  datatype ScheduledJob = ScheduledJob(
    name: string,
    cron: string,
    queue: QueueId,
    payload: string,
    isActive: bool,
    lastRunAt: Option<Time>,
    nextRunAt: Option<Time>)

  type Next = Time -> Time

  predicate Due(s: ScheduledJob, now: Time) {
    s.isActive && s.nextRunAt.Some? && s.nextRunAt.value <= now
  }

  function Fired(s: ScheduledJob, now: Time, next: Time): ScheduledJob {
    s.(lastRunAt := Some(now), nextRunAt := Some(next))
  }

  /** The schedule after a tick of the scheduler. */
  function Tick(s: ScheduledJob, now: Time, next: Next): ScheduledJob {
    if Due(s, now) then Fired(s, now, next(now)) else s
  }

  // ---- occurrences

  ghost predicate Increasing(occ: nat -> Time) {
    forall m: nat, n: nat :: m < n ==> occ(m) < occ(n)
  }

  /** Occurrence n is the first one after t. */
  ghost predicate FirstAfter(occ: nat -> Time, t: Time, n: nat) {
    occ(n) > t && (n > 0 ==> occ(n - 1) <= t)
  }

  ghost predicate GivesNext(next: Next, occ: nat -> Time, t: Time) {
    exists n: nat :: FirstAfter(occ, t, n) && next(t) == occ(n)
  }

  /** What is assumed of croniter. */
  ghost predicate IsCron(next: Next, occ: nat -> Time) {
    Increasing(occ) && forall t :: GivesNext(next, occ, t)
  }

  /** The index of the first occurrence after t: how many occurrences there are up to t. */
  ghost function IndexAfter(next: Next, occ: nat -> Time, t: Time): (n: nat)
    requires IsCron(next, occ)
    ensures FirstAfter(occ, t, n) && next(t) == occ(n)
  {
    assert GivesNext(next, occ, t);
    var n: nat :| FirstAfter(occ, t, n) && next(t) == occ(n);
    n
  }

  lemma BelowIndex(next: Next, occ: nat -> Time, t: Time, n: nat)
    requires IsCron(next, occ)
    ensures occ(n) <= t <==> n < IndexAfter(next, occ, t)
  {
    var m := IndexAfter(next, occ, t);
    assert m > 0 ==> occ(m - 1) <= t;
    assert n > m ==> occ(m) < occ(n);
    assert m > 0 && n < m - 1 ==> occ(n) < occ(m - 1);
  }

  lemma IndexGrows(next: Next, occ: nat -> Time, t: Time, u: Time)
    requires IsCron(next, occ) && t <= u
    ensures IndexAfter(next, occ, t) <= IndexAfter(next, occ, u)
  {
    BelowIndex(next, occ, t, IndexAfter(next, occ, u));
  }

  // ---- a schedule under a sequence of ticks

  /** One firing: the occurrence that was due, and the tick that enqueued the job. */
  datatype Firing = Firing(due: Time, at: Time)

  function Ticked(s: ScheduledJob, ticks: seq<Time>, next: Next): ScheduledJob {
    if ticks == [] then s else
    var n := |ticks| - 1;
    Tick(Ticked(s, ticks[..n], next), ticks[n], next)
  }

  function Firings(s: ScheduledJob, ticks: seq<Time>, next: Next): seq<Firing> {
    if ticks == [] then [] else
    var n := |ticks| - 1;
    var before := Ticked(s, ticks[..n], next);
    Firings(s, ticks[..n], next) + (if Due(before, ticks[n]) then [Firing(before.nextRunAt.value, ticks[n])] else [])
  }

  /** Ticks of one scheduler, from the creation of the schedule on. */
  predicate InOrderFrom(created: Time, ticks: seq<Time>) {
    && (forall k :: 0 <= k < |ticks| ==> created <= ticks[k])
    && (forall k, l :: 0 <= k < l < |ticks| ==> ticks[k] <= ticks[l])
  }

  function LastOf(created: Time, ticks: seq<Time>): Time {
    if ticks == [] then created else ticks[|ticks| - 1]
  }

  predicate CreatedAt(s: ScheduledJob, created: Time, next: Next) {
    s.isActive && s.nextRunAt == Some(next(created))
  }

  /** Whatever was missed, after a tick the schedule waits for the first occurrence still
      to come. */
  lemma {:induction false} WaitsForTheNext(s: ScheduledJob, created: Time, ticks: seq<Time>, next: Next,
                                           occ: nat -> Time)
    requires IsCron(next, occ) && CreatedAt(s, created, next) && InOrderFrom(created, ticks)
    ensures var s' := Ticked(s, ticks, next);
            s'.isActive && s'.nextRunAt == Some(occ(IndexAfter(next, occ, LastOf(created, ticks))))
    ensures |ticks| > 0 ==> LastOf(created, ticks[..|ticks| - 1]) <= ticks[|ticks| - 1]
    decreases |ticks|
  {
    if ticks != [] {
      var n := |ticks| - 1;
      var t, u := LastOf(created, ticks[..n]), ticks[n];
      assert InOrderFrom(created, ticks[..n]);
      WaitsForTheNext(s, created, ticks[..n], next, occ);
      var m, m' := IndexAfter(next, occ, t), IndexAfter(next, occ, u);
      IndexGrows(next, occ, t, u);
      BelowIndex(next, occ, u, m);
    }
  }

  /** One tick: it fires exactly when an occurrence has passed since the tick before. */
  lemma OneTick(s: ScheduledJob, created: Time, ticks: seq<Time>, next: Next, occ: nat -> Time)
    requires IsCron(next, occ) && CreatedAt(s, created, next) && InOrderFrom(created, ticks) && ticks != []
    ensures var n := |ticks| - 1; var t := LastOf(created, ticks[..n]);
            var m, m' := IndexAfter(next, occ, t), IndexAfter(next, occ, ticks[n]);
            && InOrderFrom(created, ticks[..n]) && t <= ticks[n] && m <= m'
            && Firings(s, ticks, next) ==
                 Firings(s, ticks[..n], next) + (if m < m' then [Firing(occ(m), ticks[n])] else [])
  {
    var n := |ticks| - 1;
    var t := LastOf(created, ticks[..n]);
    assert InOrderFrom(created, ticks[..n]);
    WaitsForTheNext(s, created, ticks, next, occ);
    WaitsForTheNext(s, created, ticks[..n], next, occ);
    IndexGrows(next, occ, t, ticks[n]);
    BelowIndex(next, occ, ticks[n], IndexAfter(next, occ, t));
  }

  // ---- what the scheduler promises

  /** No duplicates: every firing consumes an occurrence of its own, one that came after
      the schedule's creation and after the firing before, and not after the tick. */
  lemma {:induction false} FiringsAreDistinct(s: ScheduledJob, created: Time, ticks: seq<Time>, next: Next,
                                              occ: nat -> Time)
    requires IsCron(next, occ) && CreatedAt(s, created, next) && InOrderFrom(created, ticks)
    ensures var f := Firings(s, ticks, next);
            && (forall k :: 0 <= k < |f| ==> created < f[k].due <= f[k].at <= LastOf(created, ticks))
            && (forall k :: 0 <= k < |f| ==> exists n: nat :: f[k].due == occ(n))
            && (forall k, l :: 0 <= k < l < |f| ==> f[k].at < f[l].due)
    decreases |ticks|
  {
    if ticks != [] {
      var n := |ticks| - 1;
      OneTick(s, created, ticks, next, occ);
      FiringsAreDistinct(s, created, ticks[..n], next, occ);
      var t := LastOf(created, ticks[..n]);
      BelowIndex(next, occ, ticks[n], IndexAfter(next, occ, t));
    }
  }

  /** No forgetting: every occurrence since the creation, up to the latest tick, is covered
      by a firing - the one that was due at or before it and came at or after it; all that
      were missed between two ticks share one. */
  lemma {:induction false} OccurrencesAreCovered(s: ScheduledJob, created: Time, ticks: seq<Time>, next: Next,
                                                 occ: nat -> Time, i: nat)
    requires IsCron(next, occ) && CreatedAt(s, created, next) && InOrderFrom(created, ticks)
    requires created < occ(i) <= LastOf(created, ticks)
    ensures exists k :: 0 <= k < |Firings(s, ticks, next)| &&
              Firings(s, ticks, next)[k].due <= occ(i) <= Firings(s, ticks, next)[k].at
    decreases |ticks|
  {
    var n := |ticks| - 1;
    var t := LastOf(created, ticks[..n]);
    OneTick(s, created, ticks, next, occ);
    var before, after := Firings(s, ticks[..n], next), Firings(s, ticks, next);
    if occ(i) <= t {
      OccurrencesAreCovered(s, created, ticks[..n], next, occ, i);
      var k :| 0 <= k < |before| && before[k].due <= occ(i) <= before[k].at;
      assert after[k] == before[k];
    } else {
      var m := IndexAfter(next, occ, t);
      BelowIndex(next, occ, t, i);
      BelowIndex(next, occ, ticks[n], i);
      assert m < i ==> occ(m) < occ(i);
      assert after[|before|] == Firing(occ(m), ticks[n]);
    }
  }

  /** The time of the latest firing is what the schedule shows as its last run. */
  lemma {:induction false} LastRunIsTheLatestFiring(s: ScheduledJob, ticks: seq<Time>, next: Next)
    ensures var f := Firings(s, ticks, next);
            Ticked(s, ticks, next).lastRunAt == if f == [] then s.lastRunAt else Some(f[|f| - 1].at)
    decreases |ticks|
  {
    if ticks != [] {
      LastRunIsTheLatestFiring(s, ticks[..|ticks| - 1], next);
    }
  }

  /** Ticking again at the same time fires nothing. */
  lemma SecondTickIsIdle(s: ScheduledJob, now: Time, next: Next, occ: nat -> Time)
    requires IsCron(next, occ)
    ensures !Due(Tick(s, now, next), now)
  {
    var _ := IndexAfter(next, occ, now);
  }

  /** A tick falls between every two neighbouring occurrences. */
  ghost predicate Separated(created: Time, ticks: seq<Time>, occ: nat -> Time) {
    forall n: nat :: SeparatedAt(created, ticks, occ, n)
  }

  ghost predicate SeparatedAt(created: Time, ticks: seq<Time>, occ: nat -> Time, n: nat) {
    created < occ(n) && occ(n + 1) <= LastOf(created, ticks) ==>
      exists k :: 0 <= k < |ticks| && occ(n) <= ticks[k] < occ(n + 1)
  }

  /** Exactly one job per occurrence: the number of firings is the number of occurrences
      between creation and the latest tick if and only if a tick separates every two
      neighbouring occurrences; otherwise it is smaller. */
  lemma {:induction false} OneJobPerOccurrenceIffSeparated(s: ScheduledJob, created: Time, ticks: seq<Time>, next: Next,
                                                           occ: nat -> Time)
    requires IsCron(next, occ) && CreatedAt(s, created, next) && InOrderFrom(created, ticks)
    ensures var passed := IndexAfter(next, occ, LastOf(created, ticks)) - IndexAfter(next, occ, created);
            && |Firings(s, ticks, next)| <= passed
            && (|Firings(s, ticks, next)| == passed <==> Separated(created, ticks, occ))
    decreases |ticks|
  {
    if ticks == [] {
      NothingToSeparate(created, next, occ);
    } else {
      var n := |ticks| - 1;
      OneTick(s, created, ticks, next, occ);
      OneJobPerOccurrenceIffSeparated(s, created, ticks[..n], next, occ);
      SeparationStep(created, ticks, next, occ);
    }
  }

  lemma NothingToSeparate(created: Time, next: Next, occ: nat -> Time)
    requires IsCron(next, occ)
    ensures Separated(created, [], occ)
  {
    forall n: nat ensures SeparatedAt(created, [], occ, n) {
      assert occ(n) < occ(n + 1);
    }
  }

  /** The latest tick keeps the ticks separating exactly if it passes at most one
      occurrence. */
  lemma SeparationStep(created: Time, ticks: seq<Time>, next: Next, occ: nat -> Time)
    requires IsCron(next, occ) && ticks != [] && InOrderFrom(created, ticks)
    requires LastOf(created, ticks[..|ticks| - 1]) <= ticks[|ticks| - 1]
    ensures var n := |ticks| - 1;
            Separated(created, ticks, occ) <==>
              && Separated(created, ticks[..n], occ)
              && IndexAfter(next, occ, ticks[n]) <= IndexAfter(next, occ, LastOf(created, ticks[..n])) + 1
  {
    var n := |ticks| - 1;
    var t := LastOf(created, ticks[..n]);
    if Separated(created, ticks, occ) {
      forall i: nat ensures SeparatedAt(created, ticks[..n], occ, i) {
        SeparatedBefore(created, ticks, occ, i);
      }
      AtMostOnePassed(created, ticks, next, occ);
    }
    if Separated(created, ticks[..n], occ) && IndexAfter(next, occ, ticks[n]) <= IndexAfter(next, occ, t) + 1 {
      forall i: nat ensures SeparatedAt(created, ticks, occ, i) {
        StillSeparated(created, ticks, next, occ, i);
      }
    }
  }

  lemma SeparatedBefore(created: Time, ticks: seq<Time>, occ: nat -> Time, i: nat)
    requires ticks != [] && InOrderFrom(created, ticks) && Separated(created, ticks, occ)
    requires LastOf(created, ticks[..|ticks| - 1]) <= ticks[|ticks| - 1]
    ensures SeparatedAt(created, ticks[..|ticks| - 1], occ, i)
  {
    var n := |ticks| - 1;
    assert SeparatedAt(created, ticks, occ, i);
    if created < occ(i) && occ(i + 1) <= LastOf(created, ticks[..n]) {
      var k :| 0 <= k < |ticks| && occ(i) <= ticks[k] < occ(i + 1);
      assert ticks[..n][k] == ticks[k];
    }
  }

  lemma AtMostOnePassed(created: Time, ticks: seq<Time>, next: Next, occ: nat -> Time)
    requires IsCron(next, occ) && ticks != [] && InOrderFrom(created, ticks) && Separated(created, ticks, occ)
    ensures var n := |ticks| - 1;
            IndexAfter(next, occ, ticks[n]) <= IndexAfter(next, occ, LastOf(created, ticks[..n])) + 1
  {
    var n := |ticks| - 1;
    var t := LastOf(created, ticks[..n]);
    var m := IndexAfter(next, occ, t);
    assert forall k :: 0 <= k < n ==> ticks[k] <= t;
    BelowIndex(next, occ, ticks[n], m + 1);
    assert SeparatedAt(created, ticks, occ, m);
  }

  lemma StillSeparated(created: Time, ticks: seq<Time>, next: Next, occ: nat -> Time, i: nat)
    requires IsCron(next, occ) && ticks != [] && InOrderFrom(created, ticks)
    requires Separated(created, ticks[..|ticks| - 1], occ)
    requires IndexAfter(next, occ, ticks[|ticks| - 1]) <=
               IndexAfter(next, occ, LastOf(created, ticks[..|ticks| - 1])) + 1
    ensures SeparatedAt(created, ticks, occ, i)
  {
    var n := |ticks| - 1;
    var t := LastOf(created, ticks[..n]);
    BelowIndex(next, occ, t, i);
    BelowIndex(next, occ, t, i + 1);
    BelowIndex(next, occ, ticks[n], i + 1);
    assert SeparatedAt(created, ticks[..n], occ, i);
    if created < occ(i) && occ(i + 1) <= ticks[n] {
      if occ(i + 1) <= t {
        var k :| 0 <= k < n && occ(i) <= ticks[..n][k] < occ(i + 1);
        assert occ(i) <= ticks[k] < occ(i + 1);
      } else {
        assert occ(i) <= t < occ(i + 1);
        assert t == ticks[n - 1];
      }
    }
  }
}
