/** Shared vocabulary: identifiers, time, the status alphabet and the job row.
    Times and delays are exact real numbers of seconds. */
module Types {

  datatype Option<+T> = None | Some(value: T)

  type JobId = nat
  type WorkerId = nat
  type QueueId = nat
  type Time = real

  datatype JobStatus =
    | Queued
    | Scheduled
    | Claimed
    | Running
    | Completed
    | Failed
    | RetryScheduled
    | Cancelled
    | Dead
  {
    predicate IsTerminal() {
      Completed? || Cancelled? || Dead?
    }

    /** Waiting in the table for a worker, now or after a delay. */
    predicate IsWaiting() {
      Queued? || RetryScheduled?
    }

    /** Held by a worker, as far as the table knows. */
    predicate IsHeld() {
      Claimed? || Running?
    }
  }

  /** Exactly these three; a failed job is not finished. */
  lemma TerminalStatuses(s: JobStatus)
    ensures s.IsTerminal() <==> s in {Completed, Cancelled, Dead}
  {
  }

  /** One row of the jobs table. */
  datatype Job = Job(
    name: string,
    queue: QueueId,
    payload: string,
    priority: int,
    status: JobStatus,
    claimedBy: Option<WorkerId>,
    attempts: nat,
    maxAttempts: int,
    claimedAt: Option<Time>,
    startedAt: Option<Time>,
    completedAt: Option<Time>,
    nextRetryAt: Option<Time>,
    lastError: Option<string>,
    version: nat,
    createdAt: Time)

  function Max(a: int, b: int): int {
    if a < b then b else a
  }

  function MaxTime(a: Time, b: Time): Time {
    if a < b then b else a
  }
}
