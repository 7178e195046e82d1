/** Records of `internal/domain`: jobs, executions, workers, results and queue messages.

    Identifiers (job, execution, worker and idempotency keys) are only ever compared for
    equality and for being empty, so they are numbers, with NO_ID for the empty string.
    Times and durations are integers (nanoseconds). */
module Domain {

  type Id = nat
  const NO_ID: Id := 0

  type Time = int
  const SECOND: Time := 1_000_000_000

  datatype Option<+T> = None | Some(value: T)

  datatype JobState =
    | Created | Scheduled | Queued | Assigned | Running
    | Completed | Failed | TimedOut
    | Retrying | CancelRequested | Cancelled | Expired

  datatype ExecState =
    | ExecPending | ExecRunning | ExecCompleted | ExecFailed | ExecTimeout | ExecCancelled

  datatype Reason =
    | ReasonNone | ReasonSuccess | ReasonFailed | ReasonTimeout | ReasonCancelled
    | ReasonOther(code: nat)

  datatype RetryPolicy = RetryPolicy(
    exponential: bool,
    initialDelay: Time,
    maxDelay: Time,
    multiplier: real,
    jitter: bool)

  datatype Job = Job(
    state: JobState,
    attempt: int,
    maxAttempts: int,
    workerId: Id,
    execId: Id,
    idemKey: Id,
    recurring: bool,
    timeout: Time,
    retry: RetryPolicy,
    scheduledAt: Option<Time>,
    queuedAt: Option<Time>,
    startedAt: Option<Time>,
    completedAt: Option<Time>,
    nextRetryAt: Option<Time>)

  datatype Execution = Execution(job: Id, worker: Id, attempt: int, state: ExecState)

  /** What a worker reports back; `Output`, `Error` text and durations carry no control flow. */
  datatype Result = Result(success: bool, retryable: bool, reason: Reason)

  datatype Report = Report(job: Id, exec: Id, worker: Id, attempt: int, result: Result)

  /** The part of a queued job that the scheduler acts on. */
  datatype Msg = Msg(job: Id, attempt: int)

  /** A row of the outbox table. Event types are the strings the topic routing looks at. */
  datatype OutboxRow = OutboxRow(id: Id, eventType: string, aggregate: Id)

  datatype WorkerStatus = Healthy | Suspected | Unavailable | Draining

  datatype Worker = Worker(status: WorkerStatus, capacity: int, active: int, lastHeartbeat: Time)

  function AvailableSlots(w: Worker): (slots: nat)
    ensures slots > 0 <==> w.active < w.capacity
  {
    if w.capacity - w.active < 0 then 0 else w.capacity - w.active
  }

  predicate Assignable(w: Worker) {
    w.status.Healthy? && AvailableSlots(w) > 0
  }

  /** The states from which `HandleResult` refuses to move a job. */
  predicate Terminal(st: JobState) {
    st.Completed? || st.Failed? || st.Cancelled? || st.TimedOut? || st.Expired?
  }

  /** The states in which a job is out on a worker. */
  predicate Active(st: JobState) {
    st.Assigned? || st.Running? || st.CancelRequested?
  }

  /** The states from which a queue delivery may assign a job. */
  predicate Waiting(st: JobState) {
    st.Queued? || st.Scheduled? || st.Retrying?
  }

  /** `ListDueScheduled`: the job is ready to move to the queue. */
  predicate Due(j: Job, now: Time) {
    || (j.state.Scheduled? && j.scheduledAt.Some? && j.scheduledAt.value <= now)
    || (j.state.Retrying? && j.nextRetryAt.Some? && j.nextRetryAt.value <= now)
  }

  /** `ListTimedOutRunning`: the job outlived its timeout (thirty seconds when none is set). */
  predicate Overdue(j: Job, now: Time) {
    && (j.state.Running? || j.state.Assigned?)
    && j.startedAt.Some?
    && j.startedAt.value + (if j.timeout <= 0 then 30 * SECOND else j.timeout) < now
  }

  /** How many executions a job is entitled to: the first one always happens. */
  function Budget(j: Job): (b: nat)
    ensures b >= 1 && b >= j.maxAttempts
  {
    if j.maxAttempts < 1 then 1 else j.maxAttempts
  }
}
