# Cronwave job lifecycle: a verified model

Cronwave keeps jobs in one Postgres table that many workers, one scheduler and human
operators rewrite at the same time. Workers claim batches of queued rows with
`FOR UPDATE SKIP LOCKED`, run each job in a task of its own, and write its outcome back
later, whatever the row has become in the meantime. A timeout decides which claims are
abandoned; failures are retried after a back-off or end in the dead-letter queue; operators
cancel, retry and replay. This project models that protocol, proves which guarantees hold
in every interleaving and which need a stated discipline, and shows where the line runs.

## How the model is built

Time is a real number of seconds, because both the timeouts and Python's
`base * 2 ** (attempt - 1)` may be fractional.

- `Types`, `Retry` - rows, statuses, and the delay arithmetic of `packages/shared/retry.py`.
- `Lifecycle` - one job: its row, the execution tasks that can still write to it, its
  dead-letter copies, and what each committed statement does to them. An event whose
  WHERE clause or task does not match changes nothing.
- `Protocol` - the whole system: any number of jobs, one step per committed transaction,
  and the runs that the theorems speak of.
- `OpenRuns`, `Timeline`, `Attempts`, `DisciplinedRuns`, `Overlap`, `Progress`, `Boundary` -
  the theorems about runs.
- `Claiming`, `PhasedClaims`, `PriorityOrder` - the claim query; claiming split into lock,
  private update, commit and rollback; and what rollbacks do to priority order.
- `Queues`, `JobStore`, `Worker`, `SchedulerStore`, `WorkerStore` - the mutable tables and the
  processes, imperative as in the source. Every method that writes the jobs table is proved
  equal to protocol steps through a ghost field, so the theorems about runs apply to it;
  likewise the workers table and `Liveness`.
- `Cron` - the occurrences of one schedule and the firings that ticks make of them.
- `Fleet` - the claim budget of many workers whose polls and executions interleave.
- `Liveness` - worker status, its event log and overlapping detections.

Each theorem names the runs it is about:

- *Open runs*: every step is possible at any time and clocks may jump.
- *Forward runs*: open, but clocks do not go backwards.
- *Disciplined runs*: forward; operators retry and replay only dead jobs, as the routes'
  docstrings say; and when recovery runs, no live execution was claimed longer ago than
  the timeout. Workers may still crash, and tasks vanish, anywhere.

A job is *undisturbed* while no recovery, manual retry or replay has re-queued it. An
execution is *live* from the moment a claim spawns it until it reports, is cancelled, or
dies with its worker.

## What the proofs found

- Without the discipline a job can run twice at once, but never for free: each overlap is
  matched by a forced re-queue (`OverlapIsAlwaysPaidFor`). Recovery makes it possible
  exactly when it meets a live execution older than its timeout
  (`RecoveryDuplicatesExactlyWhenEarly`), and it looks at the age of the claim only, not at the
  worker's heartbeat: a worker that is online and beating loses a job that
  outlasts the timeout as soon as another worker starts.
- A terminal row is settled exactly when no execution of its job is live
  (`SettledExactlyWhenIdle`). After an early recovery a job whose cancellation was confirmed
  can still complete (`CancelledJobCompletes`).
- Recovery clears `claimed_at`; if the old task then starts late and its worker dies, the
  row is running with no claim time, and no recovery ever sees it again
  (`LateStartWedges`). The row counts against its queue's concurrency limit for ever, so it
  can starve jobs that nothing ever disturbed (`WedgedRowStarvesItsQueue`). A job cannot
  finish without an operator exactly if it has no live execution and is wedged, or needs a
  claim from a queue that is paused or filled to its limit by wedged rows
  (`FinishesExactlyUnlessStuck`).
- One rollback can hand out a worse job while a better one stays queued
  (`RollbackInvertsPriority`). Skipping locked rows keeps priority order exactly when no
  lock passes over a better row held by a transaction that then rolls back
  (`PhasedClaimsTakeTheBestIffUnspoilt`).
- Two workers that start together can both report a third one lost, or mark as lost one
  that has just shut down: statuses only advance exactly when each detection still finds
  its workers online (`OrderlyExactlyWhenFresh`).

Where the code and its documentation disagree, the model follows the code:

- The README says `version` lets a writer detect a conflict; the code only increments it.
  What it is good for is proved instead (`VersionIsExact`, `VersionCountsRewrites`).
- ADR-003 says every scheduler tick detects lost workers and recovers claims; only worker
  start does.
- The routes' docstrings restrict manual retry to failed or dead jobs and replay to dead
  ones; neither checks the status.
- The worker's docstring says running jobs finish at shutdown; the process ends and
  cancels them, so they count as abandoned.
- `DEAD` is documented as retries exhausted; without a retry policy on the queue the first
  failure is final.
- `FAILED` and `SCHEDULED` are never set; `RetryPolicy.max_attempts` and `queue_filter` are
  never read; a failed execution is always recorded as attempt 1.

## Model

| member | source | states |
|---|---|---|
| Retry.DelayMonotoneAndBounded | packages/shared/retry.py:15-41 | From attempt 1 on, delays never shrink and stay between base and cap, for every policy the table's constraints admit |
| Retry.StrategiesAreOrdered | packages/shared/retry.py:22-28 | At every attempt, for any base and cap: fixed <= linear <= exponential |
| Retry.CapIsPermanent | packages/shared/retry.py:28 | Once the cap is reached every later delay is the cap, and the total grows by exactly the cap per attempt |
| Retry.DelayIsTheCappedFormula | packages/shared/retry.py:15-41 | For every strategy, base, cap and attempt from 1 on: the delay is base, base*attempt or base*2^(attempt-1), or the cap if that is less |
| Retry.BackoffClosedForm | packages/shared/retry.py:31-41 | Below the cap the delays of the first n attempts add up to base*n, base*n(n+1)/2 or base*(2^n - 1) |
| Protocol.IdentityIsKept | packages/db/repositories/job_repo.py:98-269 | No run changes what a job is: name, queue, payload, priority, attempt limit, creation time |
| OpenRuns.OverlapIsAlwaysPaidFor | packages/db/repositories/job_repo.py:58-269 | Open runs: live executions plus a waiting row never exceed one plus the recoveries, retries and replays; an undisturbed job has at most one live execution, and the row names it |
| OpenRuns.AttemptsAreBounded | packages/db/repositories/job_repo.py:121-194 | Open runs: attempts plus unstarted executions plus a waiting row stay within max(1, max_attempts) plus the forced re-queues |
| OpenRuns.RowsStayConsistent | packages/db/repositories/job_repo.py:98-248 | Open runs: holder, claim time, retry time, start time and completion time are recorded where the status says so; a dead job's newest dead-letter entry carries its name, queue, payload, last error and attempts; FAILED and SCHEDULED never occur |
| OpenRuns.VersionCountsRewrites | packages/db/models/job.py:71-72 | Open runs: the version grows by exactly the number of steps that rewrite the row |
| OpenRuns.VersionIsExact | packages/db/repositories/job_repo.py:98-215 | Open runs, undisturbed job: status and attempts determine the version, at most 4*max(1, max_attempts); no field is left over from an earlier attempt |
| OpenRuns.WorkIsFinite | packages/db/repositories/job_repo.py:98-215 | Open runs: without forced re-queues, any set of jobs is rewritten at most the sum of 4*max(1, max_attempts) - 1 times, in however long a run and however executions end |
| OpenRuns.ForcedRequeuesAreCounted | packages/db/repositories/job_repo.py:221-248 | Open runs: what the theorems call forced re-queues are exactly the recoveries, retries and replays of the job that took effect |
| OpenRuns.WritesOfEvent | packages/db/repositories/job_repo.py:98-269 | For every nullable column of a job and for the version: which events write it and what, and that no other event does |
| OpenRuns.ErrorOutlastsTheRest | packages/db/repositories/job_repo.py:164-191 | Open runs: only a failure replaces a recorded error and only an operator's retry or replay erases it |
| Timeline.StartsRespectBackoff | packages/db/repositories/job_repo.py:164-215 | Forward runs, undisturbed job: start n is no earlier than creation plus the first n delays, keeps its full delay from the start before, and starts are as many as attempts |
| Timeline.UncappedStarts | packages/shared/retry.py:31-41 | The same as a closed form per strategy, as long as the cap is not reached |
| Timeline.CompletionFollowsStart | packages/db/repositories/job_repo.py:121-146 | Forward runs, undisturbed job: created <= latest start <= completed <= now, as the row records them |
| Attempts.DeadAfterExactlyTheTriesLeft | apps/worker/process.py:170-183 | A queued job whose executions all fail is dead after exactly max(1, max_attempts - attempts) of them with a retry policy, after exactly one without |
| Attempts.RetryAddsOneTryReplayAddsAll | apps/api/routes/dlq.py:70-76 | For a job that exhausted its attempts, a manual retry allows one more execution, a replay max(1, max_attempts) |
| Attempts.AttemptsCountStarts | packages/db/repositories/job_repo.py:121-132 | Open runs: between replays the attempt count rises by exactly the executions started, through every recovery, re-queue and retry |
| DisciplinedRuns.MutualExclusion | packages/db/repositories/job_repo.py:221-248 | Disciplined runs: at most one live execution per job; CLAIMED while it waits, RUNNING once started; worker and claim time are the row's |
| Overlap.ExclusiveExactlyWhenForcesFindIdle | packages/db/repositories/job_repo.py:221-248 | Any run from a state with one execution per job keeps it so throughout if and only if every recovery, retry and replay that takes effect finds its job without a live execution |
| Overlap.RecoveryDuplicatesExactlyWhenEarly | packages/db/repositories/job_repo.py:229-243 | After a recovery pass some run without further recovery or operator has two workers executing one job, if and only if the pass met a live execution claimed longer ago than the timeout |
| Overlap.OperatorDuplicatesExactlyWhenBusy | apps/api/routes/jobs.py:147-158 | After a manual retry, or a replay, some such run has two workers executing the job if and only if it had a live execution |
| DisciplinedRuns.ForcedRequeuesAreHarmless | packages/db/repositories/job_repo.py:230-243 | Disciplined runs: recovery, retry and replay only ever free jobs whose execution is gone, and leave them queued without a holder |
| DisciplinedRuns.OnlyIntendedEdges | packages/shared/types.py:4-17 | Disciplined runs: a row is rewritten only along the edge its event is meant for; COMPLETED and CANCELLED have none out, DEAD only the operators' |
| DisciplinedRuns.FinishedStaysFinished | packages/shared/types.py:15-17 | Disciplined runs: a completed or cancelled job keeps its row forever and never runs again |
| DisciplinedRuns.CancelIsFinal | packages/db/repositories/job_repo.py:254-269 | Disciplined runs: after a cancel that took effect nothing of the job is live or ever starts |
| DisciplinedRuns.SettledExactlyWhenIdle | packages/db/repositories/job_repo.py:121-146 | Open runs: no run without an operator rewrites a terminal row if and only if no execution of the job is live |
| DisciplinedRuns.DeadLettersAreCounted | packages/db/repositories/job_repo.py:179-191 | Disciplined runs: dead-letter entries of a job = operator re-queues + 1 while dead |
| Progress.AllButStuckJobsFinish | apps/worker/process.py:107-133 | Open runs: one finite schedule of worker, scheduler and recovery steps - each claim the best rows of an unpaused queue below its limit, with no queue before it left to serve - ends every job that is not stuck; it is disciplined if the start is |
| Progress.FinishesExactlyUnlessStuck | apps/worker/process.py:113-117 | Open runs: a job can finish without an operator if and only if it is terminal, or has a live execution, or is not wedged and its queue is neither paused nor filled to its limit by wedged rows |
| Progress.WedgedStaysWedged | packages/db/repositories/job_repo.py:230-243 | Open runs: no step but an operator's ever changes a wedged job's row |
| Progress.EveryJobCanFinish | packages/db/repositories/queue_repo.py:32-49 | Disciplined runs, no queue with jobs paused: from every reachable state a finite disciplined schedule without operators, in polling order, brings all jobs to a terminal status |
| Progress.AbandonedJobsComeBackOnTime | packages/db/repositories/job_repo.py:221-243 | Disciplined runs: a held job without live execution has a claim time, and recovery queues it if and only if it is older than the timeout |
| Boundary.EarlyRecoveryDuplicates | packages/db/repositories/job_repo.py:229-243 | A reachable state in which two workers execute one job, after a recovery that came too soon |
| Boundary.CancelledJobCompletes | packages/db/repositories/job_repo.py:135-146 | A reachable state from which a confirmed cancellation is followed by completion |
| Boundary.LateStartWedges | packages/db/repositories/job_repo.py:121-132 | A wedged job is reachable: recovered, started late, its worker dead |
| Boundary.WedgedRowStarvesItsQueue | apps/worker/process.py:113-117 | With a concurrency limit of 1, one wedged row keeps an undisturbed new job of its queue from ever finishing without an operator |
| Boundary.RollbackInvertsPriority | packages/db/repositories/job_repo.py:78-110 | With a rollback, a committed claim can take a worse row than one that was queued all along |
| Claiming.SelectClaimable | packages/db/repositories/job_repo.py:79-92 | The scan returns distinct unlocked QUEUED rows of the queue, at most the limit, by falling priority and then rising creation time; a row of that kind left behind means the limit was reached by rows of higher priority, or of equal priority and no later creation |
| Claiming.TopKIsUniqueUpToTies | packages/db/repositories/job_repo.py:87-88 | Two answers to the same query have the same length and agree on priority and age position by position |
| PhasedClaims.LocksAreExclusive | packages/db/repositories/job_repo.py:78-110 | Any number of overlapping claims: lock sets are disjoint, each locked row stays queued in its queue until its transaction ends, and is still the row its new version was written from |
| PhasedClaims.PhasedRunIsAtomicRun | packages/db/repositories/job_repo.py:97-112 | Row versions written privately, without a second look at the status, and published later over whatever is there, equal one atomic claim per commit: every phased run, rollbacks included, ends where its atomic run ends |
| PhasedClaims.CommitClaimsItsRows | packages/db/repositories/job_repo.py:97-112 | A commit claims exactly its own still-queued rows for its own worker and rewrites no other |
| PhasedClaims.RegimesCarryOver | packages/db/repositories/job_repo.py:78-112 | If the steps around the claims are forward or disciplined, so is the atomic run |
| PhasedClaims.PhasedMutualExclusion | packages/db/repositories/job_repo.py:64-75 | Disciplined runs with overlapping claim transactions: at most one live execution per job, the one its row names |
| PriorityOrder.LockTakesTheBestIffUnspoilt | packages/db/repositories/job_repo.py:87-89 | A lock takes the best queued rows of its queue, none skipped but those already taken, if and only if transactions that will roll back hide no row of it that was due before one taken, and none at all when fewer than the limit were found |
| PriorityOrder.PhasedClaimsTakeTheBestIffUnspoilt | packages/db/repositories/job_repo.py:64-92 | Every phased run equals its committed claims made atomically at their lock times, and each of those is a top-k of the whole queue if and only if no lock is spoilt in that way |
| PriorityOrder.PhasedClaimsAreAtomicTopK | packages/db/repositories/job_repo.py:64-92 | In particular, without rollbacks skipping locked rows never costs priority order |
| JobStore.JobRepository.Create | apps/api/routes/jobs.py:69-77 | A new queued row with version 1 and no other change; equal to the protocol's create step |
| JobStore.JobRepository.ClaimNextJobs | packages/db/repositories/job_repo.py:58-119 | The same selection, in the columns themselves; each selected row changes status, holder, claim time and version and nothing else, no other row changes; equal to the protocol's claim |
| JobStore.JobRepository.UpdateEach | packages/db/repositories/job_repo.py:202-216 | A bulk update rewrites each matching row once, no other, and returns their number |
| JobStore.JobRepository.MarkRunning | packages/db/repositories/job_repo.py:121-133 | RUNNING with start time and one more attempt, whatever the status was; equal to the start event |
| JobStore.JobRepository.MarkCompleted | packages/db/repositories/job_repo.py:135-147 | COMPLETED with completion time and no holder, whatever the status was; equal to the success event |
| JobStore.JobRepository.RetryOrBury | packages/db/repositories/job_repo.py:158-191 | For any delay given or none: retry later if attempts remain, due exactly that delay later, else DEAD and one unresolved dead-letter entry with name, queue, payload, error and attempts; nothing for a missing row |
| JobStore.JobRepository.MarkFailed | packages/db/repositories/job_repo.py:149-194 | The same with the delay the worker computes, and then equal to the failure event |
| JobStore.JobRepository.RequeueRetryableJobs | packages/db/repositories/job_repo.py:196-219 | Exactly the RETRY_SCHEDULED rows whose time has come change status, retry time and version and keep everything else, no other row changes, their number is returned and none is left; equal to the protocol's re-queue pass |
| JobStore.JobRepository.RecoverStaleClaims | packages/db/repositories/job_repo.py:221-248 | Exactly the CLAIMED and RUNNING rows claimed before the cutoff change status, holder, claim time and version and keep everything else, attempts included, no other row changes, their number is returned and none is left; equal to the protocol's recovery |
| JobStore.JobRepository.Cancel | packages/db/repositories/job_repo.py:254-269 | True exactly for a cancellable row, which becomes CANCELLED; otherwise nothing changes |
| JobStore.JobRepository.RetryJob | apps/api/routes/jobs.py:132-162 | Any existing job goes back to QUEUED with claim, error and retry time cleared, attempts kept |
| JobStore.JobRepository.ReplayEntry | apps/api/routes/dlq.py:59-82 | The entry's job goes back to QUEUED with attempts 0; the entry is resolved and keeps its copy |
| JobStore.JobRepository.ResolveEntry | apps/api/routes/dlq.py:85-99 | Resolves the entry, leaves every dead-letter copy and every job alone |
| JobStore.FailureMirrors | packages/db/repositories/job_repo.py:158-194 | The failure decision on the tables, dead-letter entry included, is the protocol's failure event |
| Queues.QueueRepository.GetActiveQueues | packages/db/repositories/queue_repo.py:32-39 | Exactly the project's queues that are not paused, each once, by falling priority |
| Queues.PauseDecidesPolling | packages/db/repositories/queue_repo.py:51-55 | Pausing takes exactly that queue out of its project's polls, resuming puts exactly that queue back, and no other project notices |
| Queues.RunKeepsPolicies | packages/db/models/queue.py:73-78 | In every run that creates jobs with their queue's retry policy, each job still has it at every later state |
| Worker.WorkerProcess.PollOnce | apps/worker/process.py:101-133 | A worker told to shut down claims nothing. Otherwise a poll is a sequence of protocol claims in queue order, each a top-k bounded by the budget the previous left; it never claims beyond the batch size and stops early only on an empty budget |
| Worker.WorkerProcess.VisitQueue | apps/worker/process.py:113-131 | With a limit and at least that many RUNNING rows of the queue nothing is claimed; with fewer, or no limit, the best rows are claimed up to batch size - active and counted |
| Worker.HigherQueuesAreServedFirst | apps/worker/process.py:107-133 | When a poll claims from a queue, every active queue of higher priority was at its limit at entry or ends with no claimable row |
| Worker.LimitsReadAsAtEntry | packages/db/repositories/queue_repo.py:41-49 | Claiming changes no running count, so every limit check of a poll reads as it did at entry |
| Worker.ClaimsCarryTheirPolicy | apps/worker/process.py:130-133 | Whatever a poll claims carries the retry policy of the queue row the poll hands to its execution |
| Worker.WorkerProcess.ExecuteJob | apps/worker/process.py:135-199 | One execution is the start event followed by success or failure, one execution record, and one active job less; the failure uses the back-off of the queue's policy |
| Fleet.CounterIsExact | apps/worker/process.py:119-133 | However polls, finishes, failures and crashes interleave, the active counter is the number of the worker's live executions, and with the batch being requested stays within the batch size |
| Fleet.FleetNeverOverdraws | apps/worker/process.py:119-126 | Live executions of all workers together never exceed the sum of the live workers' batch sizes |
| SchedulerStore.Scheduler.CreateSchedule | apps/api/routes/scheduled.py:43-54 | A new active schedule waits for the first occurrence after its creation |
| SchedulerStore.Scheduler.EnqueueScheduledJobs | apps/scheduler/tick.py:64-99 | One new job per due schedule and none else; exactly the due schedules move to their next occurrence; equal to the protocol's create steps |
| SchedulerStore.PassKeepsJobs | apps/scheduler/tick.py:79-86 | A pass changes nothing of the jobs it finds: row, executions, policy, history |
| SchedulerStore.PassKeepsReachable | apps/scheduler/tick.py:64-99 | A pass leads from reachable states to reachable states, so the theorems about open runs hold after it |
| SchedulerStore.InsertedAt | apps/scheduler/tick.py:79-86 | Each added row is in the table under its own new id; no other row is added or changed |
| SchedulerStore.MovedOnIsATick | apps/scheduler/tick.py:88-91 | After the pass each due schedule has ticked and no other has changed |
| Cron.WaitsForTheNext | apps/scheduler/tick.py:88-91 | Whatever ticks came or were missed, a schedule waits for the first occurrence after its latest tick |
| Cron.FiringsAreDistinct | apps/scheduler/tick.py:70-86 | Each firing uses up an occurrence of its own, after creation and after the firing before, not later than its tick |
| Cron.OccurrencesAreCovered | apps/scheduler/tick.py:70-91 | Each occurrence up to the latest tick is covered by a firing that was due no later and came no earlier |
| Cron.OneJobPerOccurrenceIffSeparated | apps/scheduler/tick.py:88-91 | There are as many firings as occurrences if and only if a tick separates every two neighbouring occurrences, else fewer |
| Cron.SecondTickIsIdle | apps/scheduler/tick.py:70-77 | Ticking again at the same time fires nothing |
| Cron.LastRunIsTheLatestFiring | apps/scheduler/tick.py:90 | After any ticks the schedule shows the time of its latest firing as its last run |
| SchedulerStore.AddedRowsAreFirings | apps/scheduler/tick.py:64-99 | Over any sequence of passes the rows added for a schedule are exactly the jobs of its firings, one each, in order |
| SchedulerStore.OneRowPerOccurrenceIffSeparated | apps/scheduler/tick.py:64-99 | So a schedule gets one row per occurrence if and only if a pass separates every two neighbouring occurrences |
| WorkerStore.WorkerRepository.Register | packages/db/repositories/worker_repo.py:19-30 | A new online row and its started event; equal to the liveness step |
| WorkerStore.WorkerRepository.Heartbeat | packages/db/repositories/worker_repo.py:32-44 | Only the heartbeat time changes: a lost worker stays lost |
| WorkerStore.WorkerRepository.MarkStopped | packages/db/repositories/worker_repo.py:46-60 | OFFLINE with stop time and one stopped event |
| WorkerStore.WorkerRepository.DetectLostWorkers | packages/db/repositories/worker_repo.py:62-97 | Exactly the ONLINE workers with a recorded heartbeat older than the timeout are set to LOST and reported, each once, no other row changes and none of them is left |
| Liveness.StatusIsLatestEvent | packages/db/repositories/worker_repo.py:19-97 | In every run, overlapping detections included, a worker's status is the meaning of its latest event |
| Liveness.OrderlyExactlyWhenFresh | packages/db/repositories/worker_repo.py:69-92 | Statuses only advance (online, lost, offline) and nobody is reported lost twice, if and only if each detection still finds the workers it read online |
| Liveness.UndividedDetectionIsOrderly | packages/db/repositories/worker_repo.py:62-97 | With detection in one piece that always holds |
| Liveness.OverlappingDetectionsReportTwice | packages/db/repositories/worker_repo.py:69-92 | Two overlapping detections can report one worker lost twice |
| Liveness.ReportedExactlyWhenOverdue | packages/db/repositories/worker_repo.py:68-77 | A worker is reported, or about to be, if and only if some detection read it online and overdue |
| Liveness.DetectionFindsExactlyTheSilent | packages/db/repositories/worker_repo.py:62-97 | In every run, a detection in one piece turns exactly the online workers silent for longer than the timeout into lost ones, with one more report each, and changes nothing of any other |
| Liveness.PunctualWorkersAreNeverLost | packages/db/repositories/worker_repo.py:68-77 | A worker whose latest heartbeat is never older than the timeout is never reported lost |

## Left out

- SQLAlchemy sessions, flush order and Postgres internals: each committed transaction is one step, except claiming and lost-worker detection, which are split. A finished execution - status, dead-letter entry, execution row - is one step, and a database error inside an execution counts as an abandoned task.
- Worker.WorkerProcess.PollOnce: describes a poll during which nobody else writes and no execution of the worker ends; interleaving is covered by Fleet (budget) and Protocol (rows).
- JobStore.JobRepository.MarkFailed: takes only the delay that its one caller computes, because the failure event fixes it; RetryOrBury states what any other delay does to the tables.
- Worker.WorkerProcess.ExecuteJob: start and outcome without other writers in between; Protocol interleaves them freely.
- Fleet.FleetNeverOverdraws: takes any claim of queued rows within the requested batch, not only the top-k that the query returns.
- Pausing, queue priority and concurrency limits do not restrict the claim steps of Protocol, whose theorems hold without them; Worker and Progress do model them. A limit check and the claim after it are one step there. The limit is no hard cap in the source either: only RUNNING rows are counted and a batch may overshoot it.
- Which project a worker polls for: Progress lets every queue have some worker that polls it.
- Row deletion, cascades and foreign keys set to NULL: no route or process deletes jobs or workers.
- The retry policy of a queue is fixed at its creation, as no route changes it; it is recorded with the job.
- Cron parsing: an occurrence is given by an endless increasing sequence, and croniter by the first occurrence after a time.
- Schedules that are inactive or have no next run: they never fire, and the theorems are about active ones.
- Uniqueness of `idempotency_key`, which the database enforces.
- What a job does: success, failure and duration are arbitrary.
- The texts of worker and lifecycle events, log lines, metric snapshots, the dashboard, authentication, the response envelope, settings and migrations.
- The poll, heartbeat and tick loops around the modelled passes, and signal handling; shutdown appears as a flag that a poll reads.
- WorkerStatus DRAINING, which nothing sets.
- Widths of the integer columns and the resolution of timestamps.
- Pagination and listing routes.
