/** The records every backend stores and the order in which jobs are claimed. */
module Jobs {

  datatype Option<T> = None | Some(value: T)

  type JobId = string

  /** Nanoseconds since the Unix epoch, unbounded. */
  type Time = int

  /** Go's zero `time.Time`: midnight on 1 January of year 1. */
  const ZERO_TIME: Time := -62135596800_000_000_000

  /** A `uint8`; the scheduler names 0 (low) to 3 (critical). */
  type Priority = p: int | 0 <= p < 256

  datatype State = Pending | Claimed | Succeeded | Failed | Cancelled

  datatype Job = Job(
    id: JobId,
    queue: string,
    name: string,
    payload: string,
    codecName: string,
    priority: Priority,
    runAt: Time,
    attempt: int,
    maxAttempts: int,
    state: State,
    timeout: int,
    lockedBy: string,
    lockedUntil: Time,
    lastError: string,
    recurringId: JobId,
    createdAt: Time,
    updatedAt: Time)

  /** Claim order: higher priority first, ties broken by the earlier run time. */
  predicate Before(a: Job, b: Job) {
    if a.priority != b.priority then a.priority > b.priority else a.runAt < b.runAt
  }

  /** Neither job is claimed strictly before the other. */
  predicate Tied(a: Job, b: Job) {
    a.priority == b.priority && a.runAt == b.runAt
  }
}
