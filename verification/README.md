# Chronos: a verified model of the job lifecycle, the work queue and the event pipeline

This project models the core of the Chronos distributed job scheduler in Dafny and proves what its
design relies on. `dafny verify dfyconfig.toml` checks all of it.

## What is modelled

**The job lifecycle.** `Lifecycle` is a state machine over jobs, executions, queue messages, the
scheduler's worker map, pending cancellations, and work handed out to workers. Its steps are: create (with the queue
up or down), create again with a known idempotency key, cancel, promote (whole, or split into its enqueue and its
guarded update), deliver a message (assign, push, mark running), report, watchdog timeout, cancel push, worker-loss
recovery, register, heartbeat, deregister, duplicate a message, let time pass, and write a job from an earlier read of
it. Runs come in four regimes:

- *Racy*: as wild, and recovery, cancel, cancel push, result handling and delivery may be overtaken between reading a
  job and writing it (`Lifecycle.Written`; with a read that is still current these are the atomic steps,
  `Lifecycle.FreshWrites`).
- *Wild*: operations are atomic; reports carry anything and arrive any number of times, messages are duplicated, pushes
  fail, a promotion stops between its halves, and any job with a key is created again at any time.
- *Guarded*: as wild, but a report comes from a worker that was handed the work, and is `Harmless`: the execution it
  names is still open, or its job is neither ASSIGNED nor RUNNING, or its reason is a cancellation. Creating again is
  `Resubmittable`: the job's time has not come, or no execution of it is open and attempts are left.
- *Strict*: as guarded, with atomic create and promote, accepted pushes, no duplicated messages, reports for
  open executions only, and no job created again once its time has come.

The guards are on the environment. `HandleResult` itself compares nothing, as in the code, and
`OneExecution.HarmlessIsExact` and `OneExecution.ResubmitIsExact` prove that the guards are the weakest ones that work.

What single steps do is also tied to what a reader of the stored data sees: `LastWrites` proves that a record tells which
step wrote it, why and when; `Lineage` that every job goes back to an API request and has its terms; `PendingCancels`
and `Loads` that the scheduler's own maps are exact.

**The classes.** `MemoryStore`, `Scheduler`, `ApiServer`, `MemoryQueue`, `WorkerNode`, `AnalyticsConsumer` and
`OutboxPublisher` are imperative: fields, loops and updates in place as in the Go code. Each method is proved to do to
the state exactly what the pure layer says (`View() == F(old(View()), ...)`), so the theorems about runs are
theorems about what the methods do. The four polling loops, the health check among them, are proved to be
legal runs of the state machine. `QueueBag` proves that the in-memory queue, with its delayed and in-flight jobs, is
the bag of messages the lifecycle works on.

**The work queue.** The reference is a stable selection sort of the outstanding arrivals. The queue's slice is
proved to be that sort after any sequence of operations, and the in-place release pass to be a partition.

**The event pipeline.** Outbox rows, a publisher whose writes and marks may fail part way, a partitioned log with an
arbitrary hash, consumers whose inserts and commits may fail and which restart at the committed
offset, and a store that keeps one row per event.

**Arithmetic and indexes.** Backoff over exact reals, stale-worker classification, the idempotency index.

The lifecycle runs shown as witnesses are timed: retry delays are those of the backoff, for every policy, and a worker
is given up only after a silence longer than the health check's patience, whatever that is (`PlausibleRuns`).

Identifiers are numbers with 0 for the empty string, since they are only compared; times are integers in
nanoseconds; randomness, clocks, drawn ids, cron answers and outcomes of calls are parameters.

## Where code and expectation differ

The model follows the code. Where an expected property fails, the project proves exactly when it holds:

- A late report for an execution that is no longer the job's open one can give a job two open executions and an attempt
  above its budget (`StaleReports.LateReportBreaks`); `OneExecution.HarmlessIsExact` is the exact condition.
- Creating again with a known key queues the stored job, whatever state it is in, once its scheduled time has come
  (`OneExecution.ResubmitRevives`). So no state is final and a cancellation can be undone. `WildRuns.FinalForever`,
  `WildRuns.FailedUntilCancelled` and `WildRuns.CancelWins` prove that they hold if and only if the run holds no such
  due resubmission of the job and no late write to it, and `FleetRuns.CompletionTimes` says when a job that is not
  terminal keeps a completion time.
- Operations read a job and later write it without looking again. A success or a cancel that lands between the listing
  and the write of a recovery is undone (`StaleWrites.CompletedIsOverwritten`, `StaleWrites.CancelIsOverwritten`); the
  three results above say exactly which late writes do so.
- A completed recurring job that is created again completes again and gets a second successor
  (`Reopened.ReopenedForks`); `Recurrence.OneSuccessorEach` is the exact condition.
  Separately, `OneExecution.ResubmitIsExact` is the exact condition for the one-open-execution and budget invariant.
- A push that the worker does not take leaves the job ASSIGNED; its message is then dropped, and without a start time the
  watchdog never sees it (`LastWrites.RefusedPushWaits` has the exact condition).
- FAILED and TIMEOUT are also left by an API cancel, as `WildRuns.FailedUntilCancelled` says.
- The analytics consumer commits past a skipped record at once. If events are buffered and not stored, a restart
  then loses them (`EventSafety.HastyCommitLoses`); `Ingest.ReceiveKeeps` and `Ingest.RestartKeeps` are the exact conditions.
- MaxDelay is applied before jitter, so it does not bound the delay (`Backoff.CapHoldsExactly`).
- A worker keeps cancel functions by job, so a second execution of one job hides the first from a cancel
  (`WorkerNode.ReachableExactly`, and over whole runs `WorkerNode.ReachableThroughout`).

## Model

| member | source | states |
|---|---|---|
| OneExecution.OneOpenExecution | internal/scheduler/scheduler.go:132-600 | in every guarded run each job has at most one open execution, it is the one the job names, with the job's attempt and worker, and every job out on a worker has one |
| OneExecution.RetryBudget | internal/scheduler/scheduler.go:156-176 | in every guarded run, with duplicated messages and failed pushes, no execution has an attempt above max(1, MaxAttempts), and none belongs to a job whose scheduled time has not come |
| OneExecution.StepKeeps | internal/scheduler/scheduler.go:104-600 | every step of the protocol keeps the joint invariant of jobs, executions, messages and handed-out work |
| OneExecution.HarmlessIsExact | internal/scheduler/scheduler.go:391-398 | a report from a worker that was handed the work keeps the invariant if and only if it is harmless, a test the handler does not make |
| OneExecution.ResubmitIsExact | internal/api/server.go:179-216 | creating again with a known key keeps the one-open-execution and budget invariant if and only if it leaves the job alone, or no execution of it is open and attempts are left |
| OneExecution.ResubmitRevives | internal/api/server.go:190-223 | in every guarded run, creating again with the key of any terminal or active job queues it with a message if and only if its scheduled time has come, and changes nothing otherwise; for all but CANCELLED jobs it has come |
| StaleReports.LateReportBreaks | internal/scheduler/scheduler.go:375-485 | for every retry policy, every random draw and every patience of the health check, a run timed by them in which the worker is given up, its job recovered, and the worker registered again: one late report of work that was handed out leads to two open executions of one job and attempt 3 on a budget of 2 |
| WildRuns.TerminalStep | internal/scheduler/scheduler.go:395-398 | a step leaves a terminal job as it is if and only if it is no API cancel of a FAILED or TIMEOUT job, no due resubmission and no late write of another state or time |
| WildRuns.FinalForever | internal/api/server.go:265-273 | in every racy run a COMPLETED, CANCELLED or EXPIRED record stays as it is throughout if and only if the run holds neither a due resubmission of the job nor a late write of another state or time to it |
| WildRuns.FailedUntilCancelled | internal/api/server.go:265-283 | in every racy run a FAILED or TIMEOUT record stays as it is throughout if and only if the run holds no API cancel, no due resubmission and no late write of another state or time; with only a cancel it ends CANCELLED |
| WildRuns.CancelWins | internal/scheduler/scheduler.go:395-415 | in every racy run, once CANCEL_REQUESTED, a job is CANCEL_REQUESTED or CANCELLED throughout, whatever reports, timeouts, deliveries and losses follow, if and only if the run holds no due resubmission of it and no late write of another state, and then is never assigned again |
| WildRuns.WildIsRacy | internal/scheduler/scheduler.go:104-600 | runs of atomic operations are racy runs without late writes |
| LastWrites.RecordsTellWhatHappened | internal/scheduler/scheduler.go:132-600 | in every wild run each job's record was last written by a step of the kind its state names, for the reason the state gives (a retry after a timeout or a retryable failure with attempts left, or a loss; FAILED, TIMEOUT, COMPLETED and CANCELLED likewise), at the time its queued, completion or retry stamp gives |
| LastWrites.RunningSince | internal/scheduler/scheduler.go:178-190 | in every wild run a RUNNING job was taken by a worker at its start time, with the worker, execution and attempt it names, and is unchanged since |
| LastWrites.StartTimes | internal/scheduler/scheduler.go:178-190 | in every wild run a job's start time is that of the last delivery a worker took; it has none if there was none |
| LastWrites.WatchdogExactly | internal/store/memory/store.go:228-254 | in every wild run the watchdog may report a job if and only if it is RUNNING or ASSIGNED and a worker last took it longer ago than its timeout, or than 30 s if it has none |
| LastWrites.PromotionExactly | internal/store/memory/store.go:187-208 | in every wild run a job may be promoted if and only if it is SCHEDULED and its time has come, or RETRYING and the delay of the step that sent it there has passed |
| LastWrites.RefusedPushWaits | internal/scheduler/scheduler.go:132-190 | a job whose first push is not taken stays ASSIGNED if and only if the run holds no report on it, no loss of its worker, no cancel and no due resubmission |
| LastWrites.ReportOutcome | internal/scheduler/scheduler.go:391-485 | when a report makes a live job CANCELLED, COMPLETED, RETRYING, TIMEOUT or FAILED, each if and only if, by the report's fields and the attempts left |
| LastWrites.ReportCloses | internal/scheduler/scheduler.go:401-456 | the execution a report names is closed as cancelled, completed, timed out or failed, and no other is touched |
| LastWrites.TimeoutOutcome | internal/scheduler/scheduler.go:335-373 | the watchdog's report retries while attempts are left, else ends in TIMEOUT; execution closed as timed out, slot freed |
| LastWrites.DeliveryOutcome | internal/scheduler/scheduler.go:132-197 | what a delivery makes of job, executions and queue, by state, pick and outcome of the push |
| LastWrites.LeastLoaded | internal/scheduler/scheduler.go:199-212 | the worker that gets a job is free and no more loaded than any other free one; there is none only if none is free |
| Lineage.EveryJobFromARequest | internal/api/server.go:159-216 | in every wild run each job descends through successors from one that an API request created, and has that request's attempts, timeout, retry policy and recurrence; only the first has its key and time |
| Lineage.EverySuccessorIsBorn | internal/scheduler/scheduler.go:487-521 | in every wild run a successor was born of a success report on its parent with the parent's terms, attempt 0 and no key, and is scheduled for the time the cron library gave |
| Lineage.DescendantsInherit | internal/scheduler/scheduler.go:487-521 | in every wild run all descendants of a job have its attempts, timeout, retry policy and recurrence |
| Lineage.TermsStay | internal/scheduler/scheduler.go:104-600 | no step, overtaken or not, changes a job's terms, key or scheduled time |
| PendingCancels.PendingExactly | internal/scheduler/scheduler.go:295-333 | in every wild run a job is pending for a worker if and only if its cancellation was pushed while the worker had it and neither a report of the worker on it, nor its timeout there, nor the loss of the worker came since; no empty list is kept |
| Loads.LoadIsExact | internal/scheduler/scheduler.go:192-260 | in every strict run with honest workers a worker's ActiveJobs is exactly the number of jobs out on it |
| Loads.HonestyIsExact | internal/scheduler/scheduler.go:192-260 | a strict step keeps the loads true and every open execution out on a named worker if and only if it is honest |
| Loads.AsLastHeard | internal/scheduler/scheduler.go:214-272 | in every wild run a known worker is healthy, with capacity and heartbeat time of its last registration or heartbeat, and has not been removed since |
| Lifecycle.FreshWrites | internal/scheduler/scheduler.go:540-600 | recovery, cancel and cancel push that write from a current read are the atomic steps |
| Lifecycle.FreshResult | internal/scheduler/scheduler.go:391-485 | handling a result from a current read is the atomic step |
| Lifecycle.FreshAssign | internal/scheduler/scheduler.go:132-197 | a delivery that writes from a current read is the atomic step |
| StaleWrites.CompletedIsOverwritten | internal/scheduler/scheduler.go:541-583 | for every retry policy and patience, a timed run in which a job that completes between a recovery's listing and its write becomes RETRYING |
| StaleWrites.CancelIsOverwritten | internal/scheduler/scheduler.go:541-583 | for every retry policy and patience, a timed run in which a cancel requested between a recovery's listing and its write is lost |
| FleetRuns.CancelPushWaits | internal/scheduler/scheduler.go:306-333 | in every wild run with named workers the cancel push never confirms a cancellation on the spot: its no-worker branch is unreachable |
| FleetRuns.CompletionTimes | internal/api/server.go:200-223 | in every wild run a job has a completion time if and only if it is terminal or was created again, due, when terminal |
| FleetRuns.SlotAccounting | internal/scheduler/scheduler.go:192-260 | in every wild run with truthful heartbeats each worker keeps 0 <= ActiveJobs <= Capacity |
| StrictRuns.QueueAgrees | internal/scheduler/scheduler.go:104-154 | in every strict run a QUEUED job has exactly one message, carrying its attempt; a cancelled one at most its old message; every other job none |
| StrictRuns.NothingEarly | internal/store/memory/store.go:187-208 | in every strict run no job is handed out before its scheduled time or its retry time |
| StrictRuns.NoneStranded | internal/scheduler/scheduler.go:132-197 | in every strict run a QUEUED job can be delivered, and with an assignable worker the delivery starts it, with the time of the delivery as its start |
| StrictRuns.AttemptsAreExact | internal/scheduler/scheduler.go:156-176 | in every strict run a job's executions carry exactly the attempts 1 to job.Attempt, each once |
| StrictRuns.StepKeeps | internal/scheduler/scheduler.go:104-600 | every strict step keeps agreement of queue, job states, attempts and executions |
| Termination.StepDescends | internal/scheduler/scheduler.go:104-600 | every strict step leaves a job's record alone or strictly lowers a potential over attempts left and state |
| Termination.BoundedLife | internal/scheduler/scheduler.go:375-485 | from any point of a strict run on, a job's record changes at most 3 * max(1, MaxAttempts) + 1 times |
| Termination.BoundIsReached | internal/scheduler/scheduler.go:523-600 | for every number of attempts and every patience of the health check some timed strict run, in which the worker is given up and registers again each time, makes exactly that many changes |
| RetryDelays.BoundedDelays | internal/scheduler/scheduler.go:437-468 | the delays scheduled for one job in a strict run sum to at most 1.5 * MaxDelay * (max(1, MaxAttempts) - 1) when MaxDelay is set |
| Recurrence.SuccessorsAccounted | internal/scheduler/scheduler.go:487-521 | in every wild run, under duplicate success reports too, the jobs that reports on a job brought into being number its due resubmissions while COMPLETED, plus one if it is recurring and COMPLETED; no job has two parents |
| Recurrence.OneSuccessorEach | internal/scheduler/scheduler.go:395-426 | in every wild run a job has exactly one successor if it is recurring and COMPLETED, and none otherwise, if and only if it was never created again, due, when it was so |
| Recurrence.HeirsStep | internal/scheduler/scheduler.go:487-521 | a step brings a job into being through a result exactly when a report completes a recurring job, and then one |
| Reopened.ReopenedForks | internal/api/server.go:159-216 | for every retry policy a timed guarded run in which a recurring job is created for later, promoted and completed, created again, completes again and has two successors |
| Recurrence.ChainsMoveForward | internal/domain/schedule.go:26-43 | in every guarded run scheduled times strictly increase along a chain of successors; each job before the last is COMPLETED and has no other successor unless it was reopened |
| Recurrence.ChainsAgree | internal/scheduler/scheduler.go:487-521 | in every wild run without reopenings two chains from one job agree as far as both go |
| Recurrence.OneLiveEnd | internal/scheduler/scheduler.go:487-521 | in every wild run without reopenings at most one descendant of a job is not terminal |
| Sweeps.SweepRuns | internal/scheduler/scheduler.go:104-130 | working through a listing one job after the other is a legal strict run: what was listed is still true when its turn comes |
| Sweeps.RecoveryComplete | internal/scheduler/scheduler.go:540-600 | after recovery no job is out on the lost worker; each that was is CANCELLED, RETRYING or FAILED exactly by cancel request and attempts left; its execution is closed; all other jobs are unchanged |
| Sweeps.RecoveryCloses | internal/scheduler/scheduler.go:556-564 | recovery turns FAILED exactly the executions that recovered jobs name and touches no other |
| Sweeps.RecoveryIdempotent | internal/scheduler/scheduler.go:540-600 | a second recovery of the same worker changes nothing |
| Sweeps.RecoverySettles | internal/scheduler/scheduler.go:540-600 | a recovery cut short by the listing limit still changes only jobs out on that worker, and takes them out of the active states |
| Scheduler.Service.PickWorker | internal/scheduler/scheduler.go:199-212 | a least-loaded assignable worker in any map order, none exactly when no worker is assignable |
| Scheduler.Service.RegisterWorker | internal/scheduler/scheduler.go:214-250 | the store has the worker healthy and idle in any case, the scheduler's map only if the dial back succeeds |
| Scheduler.Service.Heartbeat | internal/scheduler/scheduler.go:252-272 | takes over the reported load of a known worker and answers with its pending cancellations |
| Scheduler.Service.Deregister | internal/scheduler/scheduler.go:362-373 | refines the lifecycle step |
| Scheduler.Service.HandleQueuedJob | internal/scheduler/scheduler.go:132-197 | assigns a waiting job to a least-loaded worker with the next attempt, starts it now if the worker takes it, keeps it ASSIGNED on a failed push, skips other states, and errs exactly when the message must come back |
| Scheduler.Service.ConsumeOne | internal/queue/memory/memory.go:133-141 | a message is gone or back in the queue, as the delivery step says |
| Scheduler.Service.ClearPendingCancel | internal/scheduler/scheduler.go:295-304 | the job leaves the worker's pending set, and an empty set leaves the map |
| Scheduler.Service.HandleResult | internal/scheduler/scheduler.go:375-485 | the whole effect of a report on slots, pending cancellations, execution, job and successor, for every state, reason and attempt, with the delay of the backoff; which of the five states a live job gets, if and only if, by the report's fields |
| Scheduler.Service.MaybeRescheduleRecurring | internal/scheduler/scheduler.go:487-521 | a fresh SCHEDULED occurrence is added exactly for a recurring job with a next time: the parent's attempts, timeout and retry policy, that time, attempt 0, no key |
| Scheduler.Service.PromoteDueJobs | internal/scheduler/scheduler.go:104-130 | the loop is a legal run of promotions; jobs whose message the queue refuses are skipped, and all other due jobs are promoted when fewer are due than the limit |
| Scheduler.Service.PushPendingCancels | internal/scheduler/scheduler.go:306-333 | the loop is a legal run of cancel pushes; when the limit holds all CANCEL_REQUESTED jobs each is pushed, and afterwards is pending for its worker or, without one, CANCELLED |
| Scheduler.Service.WatchdogTimeouts | internal/scheduler/scheduler.go:335-360 | the loop is a legal run of timeout reports; when the limit holds all overdue jobs each gets one, and no job is overdue afterwards |
| Scheduler.Service.RecoverWorkerJobs | internal/scheduler/scheduler.go:540-600 | the loop recovers only jobs out on the worker, all of them when no listed state holds more than 1000 jobs, and drops the worker's pending cancellations |
| Scheduler.Service.CheckWorkers | internal/scheduler/scheduler.go:523-538 | a legal run of losses: exactly the workers found unavailable are forgotten; only jobs out on them change; with at most 1000 jobs in each listed state none stays out on any of them |
| ApiServer.Server.CreateJob | internal/api/server.go:84-198 | a new key or no key creates the job as the lifecycle step does; a known key resubmits the job that has it; with the queue down a due job stays as stored and the request fails |
| ApiServer.Server.EnqueueJob | internal/api/server.go:200-224 | message first, then QUEUED unconditionally; nothing changes if the queue refuses |
| ApiServer.Server.CancelJob | internal/api/server.go:254-284 | refines the cancel step, with the reply saying which branch was taken |
| MemoryStore.Store.CreateJob | internal/store/memory/store.go:73-91 | creates, or returns the job with the key, and keeps the index exact |
| MemoryStore.Store.GetJobByIdempotencyKey | internal/store/memory/store.go:103-111 | finds what a scan of all jobs for the key finds, and nothing exactly when the scan does |
| MemoryStore.Store.UpdateJobStateIf | internal/store/memory/store.go:117-166 | writes state and given fields if the job exists and its state is allowed, else changes nothing |
| MemoryStore.Store.Collect | internal/store/memory/store.go:168-185 | selected jobs only, none twice, at most the limit, and all of them when there are no more than the limit |
| MemoryStore.Store.ListTimedOutRunning | internal/store/memory/store.go:228-254 | the overdue jobs, all of them when within the limit |
| MemoryStore.Store.ListDueScheduled | internal/store/memory/store.go:187-208 | due jobs, all of them when the result is shorter than the limit |
| MemoryStore.Store.FinishExecution | internal/store/memory/store.go:268-283 | closes the named execution, or reports that there is none |
| MemoryStore.Store.MarkStaleWorkers | internal/store/memory/store.go:317-333 | one pass in any map order gives the statuses and reported ids of the two sequential SQL updates, each id once |
| MemoryStore.Store.MarkOutboxPublished | internal/store/memory/store.go:358-373 | the outbox keeps exactly the unmarked rows, in order |
| MemoryStore.Compact | internal/store/memory/store.go:365-371 | the compaction of a slice over its own backing array, with reads and writes sharing it, leaves the unmarked rows in order |
| MemoryStore.LongListing | internal/store/memory/store.go:171-183 | a listing as long as the number of selected jobs holds every one of them |
| StaleWorkers.OneLossPerUpsert | internal/store/postgres/store.go:385-427 | over every run a worker is reported unavailable at most once per upsert |
| StaleWorkers.StatusOnlyWorsens | internal/store/postgres/store.go:385-427 | without an upsert a worker's status never moves back |
| StaleWorkers.StatusIsSilence | internal/store/postgres/store.go:385-427 | until its next upsert a healthy worker is UNAVAILABLE if and only if some check found its heartbeat missing for longer than timeout plus grace, and is reported once; else SUSPECTED if and only if one found it missing for longer than the timeout |
| Idempotency.LookupIsScan | internal/store/memory/store.go:103-111 | under the index invariant, lookup and scan agree, both ways |
| Idempotency.CreatedKeeps | internal/store/memory/store.go:73-91 | a create keeps the index exact and leaves the returned job indexed under its key |
| Idempotency.OneIdPerKey | internal/store/memory/store.go:82-88 | two creates with one key return one id whatever happens between them, and it is the only job with the key |
| Backoff.ExponentialDelay | internal/scheduler/scheduler.go:602-620 | attempt k+1 of an exponential policy is delayed by the truncated term k of the geometric sequence from the initial delay (1 s by default) with the multiplier (2 if below one), then capped, then jittered |
| Backoff.DelayBelowOne | internal/scheduler/scheduler.go:602-620 | for attempt numbers below one the sequence goes on downwards |
| Backoff.ConstantDelay | internal/scheduler/scheduler.go:602-620 | any other policy delays every attempt by the initial delay, capped and jittered |
| Backoff.DelayGrows | internal/scheduler/scheduler.go:602-622 | without jitter the delay begins with the smaller of the initial delay and a set MaxDelay, never shrinks with the attempt and never exceeds a set MaxDelay |
| Backoff.DelaySaturates | internal/scheduler/scheduler.go:607-616 | with a multiplier above one and MaxDelay set there is an attempt from which every delay without jitter is exactly MaxDelay |
| Backoff.JitterRange | internal/scheduler/scheduler.go:617-620 | with jitter the delay lies between the truncated half and 1.5 times the capped value |
| Backoff.DelayBound | internal/scheduler/scheduler.go:614-620 | with MaxDelay set no delay exceeds 1.5 * MaxDelay |
| Backoff.CapHoldsExactly | internal/scheduler/scheduler.go:614-620 | every jittered delay stays within MaxDelay if and only if 3 * capped <= 2 * (MaxDelay + 1) |
| QueueOrder.InsertIsSort | internal/queue/memory/memory.go:63-78 | inserting the newest arrival into a sorted queue is the stable sort of all arrivals |
| QueueOrder.InsertKeepsOrder | internal/queue/memory/memory.go:63-78 | an insertion into a queue ordered by priority (highest first) and enqueue time (earliest first) keeps it so, behind exactly the jobs that are no later |
| QueueOrder.SortIsSort | internal/queue/memory/memory.go:64-71 | the reference sort holds exactly the arrivals, by highest priority, then earliest stamp, then arrival |
| QueueRuns.QueueRefinesSort | internal/queue/memory/memory.go:34-143 | after any sequence of operations the ready queue is the stable sort of its outstanding arrivals, and no job (id, attempt, priority) is lost, invented or altered across ready, delayed, in flight, acknowledged and dropped; none is dropped while the queue is open |
| QueueRuns.PopIsBest | internal/queue/memory/memory.go:133-134 | the next job popped has the highest priority outstanding, the earliest stamp of those, and arrived first of those |
| QueueRuns.OrderOfService | internal/queue/memory/memory.go:63-78 | in every run the ready queue is ordered by highest priority, then earliest enqueue time, then arrival |
| QueueRuns.PopServes | internal/queue/memory/memory.go:112-135 | a pop of an open queue hands out its first job, which none exceeds in priority and none of its priority precedes in time |
| QueueRuns.Admission | internal/queue/memory/memory.go:34-61 | a job that comes in is stamped with the time if it has no stamp; a delayed one is not, and is held for its delay |
| QueueRuns.StampsAreKept | internal/queue/memory/memory.go:34-143 | in every run each ready, delayed or in-flight job is one that came in, and a stamp it came with is never changed |
| QueueRuns.HeldUntilDue | internal/queue/memory/memory.go:48-102 | in every run what is still held back was delayed to a time that no release pass of the open queue has reached since |
| QueueRuns.EarlierStampFirst | internal/queue/memory/memory.go:137-141 | whatever failed and was requeued, jobs of higher priority come first, and of one priority those with earlier stamps |
| QueueRuns.ReleaseConserves | internal/queue/memory/memory.go:80-102 | a release pass conserves the multiset of jobs, stamps included, over ready and delayed |
| QueueRuns.KeptIsPartition | internal/queue/memory/memory.go:89-99 | exactly the items not yet due stay delayed, with their multiplicities |
| MemoryQueue.Queue.InsertLocked | internal/queue/memory/memory.go:63-78 | the loop and shift are the sorted insertion |
| MemoryQueue.Queue.Enqueue | internal/queue/memory/memory.go:34-46 | a closed queue refuses; an unstamped job is stamped and inserted |
| MemoryQueue.Queue.EnqueueDelay | internal/queue/memory/memory.go:48-61 | a job without delay is inserted as it is, one with a delay is appended with its release time |
| MemoryQueue.Queue.ReleaseDelayed | internal/queue/memory/memory.go:80-102 | the compaction within one backing array releases what is due and keeps the rest in order although reads and writes share the array |
| MemoryQueue.Queue.Pop | internal/queue/memory/memory.go:112-135 | the first job of an open non-empty queue |
| MemoryQueue.ConsumeOne | internal/queue/memory/memory.go:133-142 | a failed handler's job goes back to its sorted place |
| QueueBag.DeliveryIsTurn | internal/queue/memory/memory.go:104-143 | in any reachable open queue a turn of the consumer loop changes the bag of ready, delayed and in-flight messages exactly as the lifecycle's delivery changes its queue |
| QueueBag.QueueingIsEnqueue | internal/queue/memory/memory.go:34-46 | an enqueue changes the bag as promotion and the API's enqueue do |
| QueueBag.TakesInDelayed | internal/queue/memory/memory.go:48-61 | a delayed job is in the bag at once |
| QueueBag.Releases | internal/queue/memory/memory.go:80-102 | a release pass leaves the bag as it is |
| QueueBag.Fails | internal/queue/memory/memory.go:137-141 | a failed handler leaves the bag as it is, unless the queue has closed |
| WorkerNode.NeverOverCapacity | internal/worker/worker.go:177-247 | over every run the counter is the number of executions in progress, never above capacity, and every accepted execution is in progress, reported once, or ended with its one report lost |
| WorkerNode.ReportedExactly | internal/worker/worker.go:208-247 | an execution is reported if and only if it finished with a report that got through |
| WorkerNode.ReachableExactly | internal/worker/worker.go:163-206 | taking on an execution keeps every execution reachable by cancel if and only if it is refused or no other one of its job is in progress |
| WorkerNode.ReachableThroughout | internal/worker/worker.go:163-255 | over every run every execution in progress stays within reach of a cancel if and only if none is accepted while another of its job is in progress |
| WorkerNode.FinishKeepsReachable | internal/worker/worker.go:163-206 | finishing one keeps the others reachable |
| WorkerNode.Worker.ExecuteJob | internal/worker/worker.go:177-206 | accepts exactly below capacity, with counter and cancel function set up |
| WorkerNode.Worker.FinishJob | internal/worker/worker.go:208-247 | one report, which may fail, then counter and cancel function undone |
| WorkerNode.Worker.CancelJob | internal/worker/worker.go:249-255 | ends an execution in progress of the job, and finds one whenever there is one and all are reachable |
| EventOrder.RouteOrder | internal/outbox/publisher.go:53-81 | in every run, per route, the log with later duplicates dropped is a prefix of insertion order and holds every marked row; the outbox is the unmarked rest |
| EventOrder.JobOrder | internal/outbox/publisher.go:61-80 | the same for the rows of each non-empty aggregate id on each topic |
| EventPipeline.PubStepKeeps | internal/outbox/publisher.go:53-81 | every step, with writes that fail part way and marks that stop part way, keeps order along each route and genuineness of the log |
| EventSafety.NothingLostBeforeLog | internal/outbox/publisher.go:53-81 | in every run an emitted event is in the outbox or in the log of its partition |
| EventSafety.NoPhantoms | internal/analytics/consumer.go:66-128 | in every run the store holds emitted events only, and a log only emitted events of its partition |
| EventSafety.CommittedStored | internal/analytics/consumer.go:68-82 | in every run without a hasty commit every committed event is stored, over insert failures, commit failures and restarts |
| EventSafety.CleanIsUnhurried | internal/analytics/consumer.go:110-119 | a run in which every record is a valid event has no hasty commit |
| EventSafety.CommittedStoredOrBuffered | internal/analytics/consumer.go:66-128 | with skipped records every committed event is stored or buffered as long as restarts find their readers safe |
| EventSafety.DrainedIsComplete | internal/analytics/schema.go:41-43 | once nothing is unpublished or uncommitted, a run without hasty commits has stored exactly the emitted events |
| EventSafety.HastyCommitLoses | internal/analytics/consumer.go:110-119 | for every event and every skipped record some legal run ends drained with the event not stored |
| Ingest.FlushKeeps | internal/analytics/consumer.go:68-82 | a flush keeps fetched events stored or buffered however it ends, and a successful one makes all committed events stored |
| Ingest.ReceiveKeeps | internal/analytics/consumer.go:101-121 | committing past a skipped record leaves all committed events stored if and only if the buffered ones are stored already |
| Ingest.RestartKeeps | internal/analytics/consumer.go:54-62 | a restart keeps every fetched event accounted for if and only if every committed event is stored |
| AnalyticsConsumer.TurnKeeps | internal/analytics/consumer.go:87-128 | an iteration of the loop loses nothing it fetched, keeps committed events stored unless hasty, and holds back fewer than 100 events while full buffers flush |
| AnalyticsConsumer.Consumer.FlushBuffer | internal/analytics/consumer.go:68-82 | insert, then commit, then empty the buffers; on an error they stay |
| AnalyticsConsumer.Consumer.Take | internal/analytics/consumer.go:101-121 | an event is buffered with its message, anything else is skipped and committed |
| AnalyticsConsumer.Consumer.Iterate | internal/analytics/consumer.go:87-128 | one iteration is the composition of the reader's steps |
| OutboxPublisher.Publisher.Flush | internal/outbox/publisher.go:53-81 | one message per row of the oldest batch on the row's route, in order; the batch leaves the outbox exactly if the write succeeds |
| OutboxPublisher.MarkEach | internal/store/postgres/store.go:466-477 | marking id by id up to an error leaves what one pass over the marked prefix leaves |
| OutboxPublisher.WholeDeliveryDelivers | internal/outbox/publisher.go:63-77 | writing each message of any batch to its partition in batch order is a successful write |
| Outbox.MarkingAPrefix | internal/store/memory/store.go:358-373 | marking the first rows leaves the outbox the rest |
| Outbox.Routing | internal/outbox/publisher.go:55-95 | exactly the events with prefix WORKER_ and SCHEDULER_ go to their topics, all others to the job topic, keyed by the aggregate, or by the row id if there is none |
| Outbox.Rewrite | internal/outbox/publisher.go:77-80 | writing a stretch again that begins within what is written repeats rows but adds only the missing ones, in order |
| Replay.Run | cmd/event-replay/main.go:60-103 | succeeds exactly if the failing insert is never reached; then stores exactly the decodable records up to the limit, in order; else exactly the full batches before the failure |
| Replay.WantedRecords | cmd/event-replay/main.go:60-103 | in log order each record that decodes as often as it is there, no garbage, and the first max of them if a limit is set |
| Replay.ReplayRestores | cmd/event-replay/main.go:60-103 | a full replay of a partition makes any reader of it safe and a second one adds no event |

## Left out

- The Kafka queue backend: its redelivery depends on offset and rebalance behaviour outside this code.
- SQL text, row scanning, connections and transactions of the Postgres store; only `MarkStaleWorkers` and `MarkOutboxPublished` appear, as updates of a map and of a sequence.
- ClickHouse queries, materialized views and retention; the event store is a set of rows, one per event.
- Cron parsing and time zones: the next time is a parameter; recurring jobs are created for a later time, and a successor's time is later than now where a property needs it.
- `RequestCancel` of the scheduler (internal/scheduler/scheduler.go:275-293), which nothing calls.
- HTTP, JSON, authentication, configuration, request validation, gRPC and logging.
- The builtin and webhook executors: a result is any combination of success, retryable and reason.
- Sleeps, tickers, locks and wake-ups: steps interleave, and except in racy runs each is atomic. Create with enqueue, delivery with its assign, push and mark, a whole `HandleResult`, and each single recovery are one step; promote is also split in two. What is proved of racy runs is when final states and cancellations last; the results on executions, budgets, messages, slots and successors are for atomic operations.
- Fields without control flow: names, payloads, metadata, output, error texts, created, updated and finished times.
- int64 overflow and float64 rounding in the backoff; powers and products are exact.
- Events are not tied to the lifecycle steps that emit them: guarantees start at the outbox row.
- Errors of the store itself, and a queue that refuses to take a message back after a failed handler (`QueueRuns` has the latter for a closed queue).
- Several publishers at once, reordering by equal `created_at`, and duplicates within one write: the publisher is single, reads in insertion order, and a failed write delivers a prefix along each key.
- The in-memory store drops event payloads; outbox rows here are those whose payload decodes to the row's event.
- Event ids that are no UUID, for which the event store draws a new id at each insert, are not emitted.
- One reader per partition: a topic reader that buffers several partitions is a sequence of these readers' steps, inserts before commits.
- Replay.Run: records that decode without an id are stored under new ids each time; they count towards the limit, and `ReplayRestores` speaks of events with ids only.
- WorkerNode.NeverOverCapacity: pushes to one worker arrive one at a time, and executions handed to it are distinct.
- Loads.LoadIsExact: assumes that workers register without work, report true loads, are removed before their jobs are recovered, and that no job is cancelled twice while out; `Loads.HonestyIsExact` proves that this is exact.
- FleetRuns.SlotAccounting: assumes heartbeats with 0 <= active <= capacity and registrations with a non-negative capacity.
- Listings for display (ListJobs without a state, ListWorkers, ListHealthyWorkers), getters and health endpoints: no other operation depends on them.
