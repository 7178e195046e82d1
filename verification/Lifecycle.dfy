/** The job lifecycle as a state machine.

    `Core` is what the scheduler, the store and the work queue hold. Each function below is one
    atomic operation of the source on that data; Scheduler.dfy and ApiServer.dfy prove that the
    imperative code computes exactly these. `World` adds the clock and what is in flight outside
    the control plane, and `Step` enumerates everything that can happen next. */
module Lifecycle {
  import opened Domain

  datatype Core = Core(
    jobs: map<Id, Job>,
    execs: map<Id, Execution>,
    queue: multiset<Msg>,
    workers: map<Id, Worker>,
    cancels: map<Id, set<Id>>)

  /** What `HandleResult` takes from outside: the backoff delay, a new id and the cron library's answer. */
  datatype Draw = Draw(delay: Time, childId: Id, next: Option<Time>)

  datatype PushOutcome =
    | Accepted   // the worker took the job and the scheduler knows
    | Refused    // the worker did not take it
    | Unheard    // the worker took it but the call returned an error

  /** The fields an API client chooses for a new job. */
  datatype NewJob = NewJob(
    maxAttempts: int, idemKey: Id, recurring: bool, timeout: Time, retry: RetryPolicy, scheduledAt: Time)

  // ----- store primitives

  predicate Open(c: Core, e: Id) {
    e in c.execs && (c.execs[e].state.ExecPending? || c.execs[e].state.ExecRunning?)
  }

  function Finish(c: Core, e: Id, st: ExecState): Core {
    if e != NO_ID && e in c.execs then c.(execs := c.execs[e := c.execs[e].(state := st)]) else c
  }

  // ----- API steps

  function FreshJob(n: NewJob): Job {
    Job(Scheduled, 0, n.maxAttempts, NO_ID, NO_ID, n.idemKey, n.recurring, n.timeout, n.retry,
        Some(n.scheduledAt), None, None, None, None)
  }

  /** `enqueueJob`: send a message with the job's attempt, then write QUEUED unconditionally. */
  function ApiEnqueue(c: Core, now: Time, id: Id): Core {
    if id !in c.jobs then c else
    var j := c.jobs[id];
    c.(queue := c.queue + multiset{Msg(id, j.attempt)},
       jobs := c.jobs[id := j.(state := Queued, queuedAt := Some(now))])
  }

  /** A job that is due is queued at once, if the queue is up; otherwise it is left to promotion. */
  function Create(c: Core, now: Time, id: Id, n: NewJob, up: bool): Core {
    var c1 := c.(jobs := c.jobs[id := FreshJob(n)]);
    if n.scheduledAt <= now && up then ApiEnqueue(c1, now, id) else c1
  }

  /** Creating again with the key of an existing job returns that job, and enqueues it when its
      time has come, whatever state it is in by now. */
  function Resubmit(c: Core, now: Time, id: Id): Core {
    if id in c.jobs && DueAgain(c.jobs[id], now) then ApiEnqueue(c, now, id) else c
  }

  function Cancel(c: Core, now: Time, id: Id): Core {
    if id !in c.jobs then c else
    var j := c.jobs[id];
    if j.state.Completed? || j.state.Cancelled? || j.state.Expired? then c
    else if j.state.Running? || j.state.Assigned? then
      c.(jobs := c.jobs[id := j.(state := CancelRequested)])
    else
      c.(jobs := c.jobs[id := j.(state := Cancelled, completedAt := Some(now))])
  }

  // ----- promotion

  /** First half of promotion: the message, with the attempt of the listed job. */
  function PromoteSend(c: Core, id: Id): Core {
    if id !in c.jobs then c else
    c.(queue := c.queue + multiset{Msg(id, c.jobs[id].attempt)})
  }

  /** Second half: QUEUED, but only from SCHEDULED or RETRYING. */
  function PromoteMark(c: Core, now: Time, id: Id): Core {
    if id !in c.jobs || !(c.jobs[id].state.Scheduled? || c.jobs[id].state.Retrying?) then c else
    c.(jobs := c.jobs[id := c.jobs[id].(state := Queued, queuedAt := Some(now))])
  }

  function Promote(c: Core, now: Time, id: Id): Core {
    PromoteMark(PromoteSend(c, id), now, id)
  }

  // ----- assignment

  /** The specification of `pickWorker`: a least loaded assignable worker, or none if there is none. */
  ghost predicate IsPick(workers: map<Id, Worker>, pick: Option<Id>) {
    match pick
    case None => forall w :: w in workers ==> !Assignable(workers[w])
    case Some(w) =>
      && w in workers && Assignable(workers[w])
      && forall v :: v in workers && Assignable(workers[v]) ==> workers[w].active <= workers[v].active
  }

  /** Record a new execution for the message's job and point the job at it. */
  function Assign(c: Core, m: Msg, w: Id, e: Id): Core
    requires m.job in c.jobs
  {
    c.(execs := c.execs[e := Execution(m.job, w, m.attempt + 1, ExecPending)],
       jobs := c.jobs[m.job := c.jobs[m.job].(state := Assigned, workerId := w, execId := e, attempt := m.attempt + 1)])
  }

  function MarkRunning(c: Core, now: Time, id: Id): Core
    requires id in c.jobs
  {
    c.(jobs := c.jobs[id := c.jobs[id].(state := Running, startedAt := Some(now))])
  }

  function SlotTaken(workers: map<Id, Worker>, w: Id): map<Id, Worker> {
    if w !in workers then workers else workers[w := workers[w].(active := workers[w].active + 1)]
  }

  function TakeSlot(c: Core, w: Id): Core {
    c.(workers := SlotTaken(c.workers, w))
  }

  function Ack(c: Core, m: Msg): Core {
    c.(queue := c.queue - multiset{m})
  }

  /** What the queue handler does with a message, and whether it returns an error. */
  function Handle(c: Core, now: Time, m: Msg, pick: Option<Id>, e: Id, push: PushOutcome): (Core, bool) {
    if m.job !in c.jobs then (c, true)
    else if !Waiting(c.jobs[m.job].state) then (c, false)
    else if pick.None? then (c, true)
    else
      var c1 := Assign(c, m, pick.value, e);
      if push.Accepted? then (TakeSlot(MarkRunning(c1, now, m.job), pick.value), false) else (c1, true)
  }

  /** One queue delivery, from the pop to the acknowledgement or, on a handler error, the requeue. */
  function Deliver(c: Core, now: Time, m: Msg, pick: Option<Id>, e: Id, push: PushOutcome): Core {
    var (c1, err) := Handle(c, now, m, pick, e, push);
    if err then c1 else Ack(c1, m)
  }

  // ----- results

  function SlotReleased(workers: map<Id, Worker>, w: Id): map<Id, Worker> {
    if w in workers && workers[w].active > 0
    then workers[w := workers[w].(active := workers[w].active - 1)] else workers
  }

  function ReleaseSlot(c: Core, w: Id): Core {
    c.(workers := SlotReleased(c.workers, w))
  }

  function ClearPending(c: Core, w: Id, id: Id): Core {
    if w !in c.cancels then c
    else if c.cancels[w] - {id} == {} then c.(cancels := c.cancels - {w})
    else c.(cancels := c.cancels[w := c.cancels[w] - {id}])
  }

  /** What a report makes of a non-terminal job and of the execution it names. */
  function Verdict(j: Job, r: Report): (JobState, ExecState) {
    if r.result.reason.ReasonCancelled? || j.state.CancelRequested? then (Cancelled, ExecCancelled)
    else if r.result.success then (Completed, ExecCompleted)
    else if r.result.reason.ReasonTimeout? then
      (if r.attempt < j.maxAttempts then Retrying else TimedOut, ExecTimeout)
    else
      (if r.result.retryable && r.attempt < j.maxAttempts then Retrying else Failed, ExecFailed)
  }

  /** The job once the verdict `st` is written. */
  function Settled(j: Job, now: Time, st: JobState, delay: Time): Job {
    if st.Retrying? then
      j.(state := Retrying, nextRetryAt := Some(now + delay), workerId := NO_ID, execId := NO_ID)
    else
      j.(state := st, completedAt := Some(now))
  }

  /** The next occurrence of a recurring job. */
  function Occurrence(j: Job, next: Time): Job {
    Job(Scheduled, 0, j.maxAttempts, NO_ID, NO_ID, NO_ID, j.recurring, j.timeout, j.retry,
        Some(next), None, None, None, None)
  }

  predicate Spawns(c: Core, r: Report, d: Draw) {
    && r.job in c.jobs && !Terminal(c.jobs[r.job].state)
    && Verdict(c.jobs[r.job], r).0.Completed?
    && c.jobs[r.job].recurring && d.next.Some?
  }

  /** The job table once a report on a live job is written, with the next occurrence if one is spawned. */
  function SettledJobs(c: Core, now: Time, r: Report, d: Draw): map<Id, Job>
    requires r.job in c.jobs
  {
    var jobs := c.jobs[r.job := Settled(c.jobs[r.job], now, Verdict(c.jobs[r.job], r).0, d.delay)];
    if Spawns(c, r, d) then jobs[d.childId := Occurrence(c.jobs[r.job], d.next.value)] else jobs
  }

  function HandleResult(c: Core, now: Time, r: Report, d: Draw): Core {
    var c1 := ClearPending(ReleaseSlot(c, r.worker), r.worker, r.job);
    if r.job !in c.jobs || Terminal(c.jobs[r.job].state) then c1
    else
      Finish(c1, r.exec, Verdict(c.jobs[r.job], r).1).(jobs := SettledJobs(c, now, r, d))
  }

  /** The report the watchdog files on behalf of a silent worker. */
  function TimeoutReport(id: Id, j: Job): Report {
    Report(id, j.execId, j.workerId, j.attempt, Result(false, true, ReasonTimeout))
  }

  function Watchdog(c: Core, now: Time, id: Id, d: Draw): Core {
    if id !in c.jobs then c else HandleResult(c, now, TimeoutReport(id, c.jobs[id]), d)
  }

  // ----- cancel push and worker loss

  function AddPending(c: Core, w: Id, id: Id): Core {
    c.(cancels := c.cancels[w := (if w in c.cancels then c.cancels[w] else {}) + {id}])
  }

  function PushCancel(c: Core, now: Time, id: Id): Core {
    if id !in c.jobs then c
    else if c.jobs[id].workerId == NO_ID then
      c.(jobs := c.jobs[id := c.jobs[id].(state := Cancelled, completedAt := Some(now))])
    else AddPending(c, c.jobs[id].workerId, id)
  }

  /** What worker loss makes of a job that was out on the worker. */
  function Recovered(j: Job, now: Time): Job {
    if j.state.CancelRequested? then j.(state := Cancelled, completedAt := Some(now))
    else if j.attempt < j.maxAttempts then
      j.(state := Retrying, nextRetryAt := Some(now), workerId := NO_ID, execId := NO_ID)
    else j.(state := Failed, completedAt := Some(now))
  }

  function Recover(c: Core, now: Time, id: Id): Core {
    if id !in c.jobs then c else
    var c1 := Finish(c, c.jobs[id].execId, ExecFailed);
    c1.(jobs := c1.jobs[id := Recovered(c.jobs[id], now)])
  }

  // ----- worker fleet

  function Register(c: Core, now: Time, w: Id, capacity: int): Core {
    c.(workers := c.workers[w := Worker(Healthy, capacity, 0, now)])
  }

  function Heartbeat(c: Core, now: Time, w: Id, active: int, capacity: int): Core {
    if w !in c.workers then c else c.(workers := c.workers[w := Worker(Healthy, capacity, active, now)])
  }

  function Deregister(c: Core, w: Id): Core {
    c.(workers := c.workers - {w})
  }

  function DropPending(c: Core, w: Id): Core {
    c.(cancels := c.cancels - {w})
  }

  // ----- writes from an earlier read

  /** A write of an operation that read the job's record before and does not look again: `read` is the
      record it saw. A delivery saw a waiting job. */
  datatype Write =
    | RecoveryWrite(id: Id, read: Job)
    | CancelWrite(id: Id, read: Job)
    | PushWrite(id: Id, read: Job)
    | ResultWrite(report: Report, draw: Draw, read: Job)
    | AssignWrite(msg: Msg, worker: Id, exec: Id, push: PushOutcome)

  function Target(x: Write): Id {
    match x
    case ResultWrite(r, _, _) => r.job
    case AssignWrite(m, _, _, _) => m.job
    case _ => x.id
  }

  /** The record that was read leads the operation to its write. */
  predicate ReadAllows(x: Write) {
    match x
    case RecoveryWrite(_, j) => Active(j.state)
    case CancelWrite(_, j) => !(j.state.Completed? || j.state.Cancelled? || j.state.Expired?)
    case PushWrite(_, j) => j.state.CancelRequested?
    case ResultWrite(_, _, j) => !Terminal(j.state)
    case AssignWrite(_, _, _, _) => true
  }

  /** The state that is written, if the job is written at all. */
  function WrittenState(x: Write): Option<JobState> {
    match x
    case RecoveryWrite(_, j) =>
      Some(if j.state.CancelRequested? then Cancelled else if j.attempt < j.maxAttempts then Retrying else Failed)
    case CancelWrite(_, j) => Some(if j.state.Running? || j.state.Assigned? then CancelRequested else Cancelled)
    case PushWrite(_, j) => if j.workerId == NO_ID then Some(Cancelled) else None
    case ResultWrite(r, _, j) => Some(Verdict(j, r).0)
    case AssignWrite(_, _, _, push) => Some(if push.Accepted? then Running else Assigned)
  }

  /** The record once the write is made, whatever it is by then. */
  function WrittenJob(j: Job, now: Time, x: Write): Job {
    var st := WrittenState(x);
    if st.None? then j else
    match x
    case AssignWrite(m, v, e, push) =>
      j.(state := st.value, workerId := v, execId := e, attempt := m.attempt + 1,
         startedAt := if push.Accepted? then Some(now) else j.startedAt)
    case ResultWrite(_, d, _) => Settled(j, now, st.value, d.delay)
    case RecoveryWrite(_, _) => Settled(j, now, st.value, 0)
    case _ => if st.value.CancelRequested? then j.(state := CancelRequested) else Settled(j, now, st.value, 0)
  }

  /** The rest of the operation, on executions, workers, pending cancellations and the queue. */
  function AroundWrite(c: Core, x: Write): Core {
    match x
    case RecoveryWrite(_, j) => Finish(c, j.execId, ExecFailed)
    case CancelWrite(_, _) => c
    case PushWrite(id, j) => if j.workerId == NO_ID then c else AddPending(c, j.workerId, id)
    case ResultWrite(r, _, j) =>
      Finish(ClearPending(ReleaseSlot(c, r.worker), r.worker, r.job), r.exec, Verdict(j, r).1)
    case AssignWrite(m, v, e, push) =>
      var c1 := c.(execs := c.execs[e := Execution(m.job, v, m.attempt + 1, ExecPending)]);
      if push.Accepted? then Ack(TakeSlot(c1, v), m) else c1
  }

  function Written(c: Core, now: Time, x: Write): Core {
    if Target(x) !in c.jobs then c else
    var jobs := c.jobs[Target(x) := WrittenJob(c.jobs[Target(x)], now, x)];
    AroundWrite(c, x).(jobs :=
      if x.ResultWrite? && WrittenState(x) == Some(Completed) && x.read.recurring && x.draw.next.Some?
      then jobs[x.draw.childId := Occurrence(x.read, x.draw.next.value)] else jobs)
  }

  /** With a record that is still current, the writes are the atomic operations. */
  lemma FreshWrites(c: Core, now: Time, id: Id)
    requires id in c.jobs
    ensures Active(c.jobs[id].state) ==> Written(c, now, RecoveryWrite(id, c.jobs[id])) == Recover(c, now, id)
    ensures ReadAllows(CancelWrite(id, c.jobs[id])) ==>
      Written(c, now, CancelWrite(id, c.jobs[id])) == Cancel(c, now, id)
    ensures Written(c, now, PushWrite(id, c.jobs[id])) == PushCancel(c, now, id)
  {
    assert c.jobs[id := c.jobs[id]] == c.jobs;
  }

  lemma FreshResult(c: Core, now: Time, r: Report, d: Draw)
    requires r.job in c.jobs && !Terminal(c.jobs[r.job].state)
    ensures Written(c, now, ResultWrite(r, d, c.jobs[r.job])) == HandleResult(c, now, r, d)
  {
  }

  lemma FreshAssign(c: Core, now: Time, m: Msg, v: Id, e: Id, push: PushOutcome)
    requires m.job in c.jobs && Waiting(c.jobs[m.job].state)
    ensures Written(c, now, AssignWrite(m, v, e, push)) == Deliver(c, now, m, Some(v), e, push)
  {
    var j, a := c.jobs[m.job], Assign(c, m, v, e);
    if push.Accepted? {
      var done := TakeSlot(MarkRunning(a, now, m.job), v);
      assert done.jobs == c.jobs[m.job := WrittenJob(j, now, AssignWrite(m, v, e, push))];
      assert Handle(c, now, m, Some(v), e, push) == (done, false);
    } else {
      assert a.jobs == c.jobs[m.job := WrittenJob(j, now, AssignWrite(m, v, e, push))];
      assert Handle(c, now, m, Some(v), e, push) == (a, true);
    }
  }

  // ----- the world around the control plane

  /** Work handed to a worker: the identity under which it will report. */
  datatype Push = Push(job: Id, exec: Id, worker: Id, attempt: int)

  /** A report on the job `parent` brought the job `child` into being. */
  datatype Spawn = Spawn(parent: Id, child: Id)

  /** `sent` is every message ever queued, `pushes` all work ever handed to a worker, `heirs` every job
      that a result brought into being. These are history: no operation reads them. */
  datatype World = World(core: Core, now: Time, sent: set<Msg>, pushes: set<Push>, heirs: set<Spawn>)

  const START := World(Core(map[], map[], multiset{}, map[], map[]), 0, {}, {}, {})

  datatype Step =
    | DoCreate(id: Id, n: NewJob, up: bool)
    | DoResubmit(id: Id)
    | DoCancel(id: Id)
    | DoPromote(id: Id)
    | DoPromoteSend(id: Id)
    | DoPromoteMark(id: Id)
    | DoDeliver(msg: Msg, pick: Option<Id>, exec: Id, push: PushOutcome)
    | DoRedeliver(msg: Msg)
    | DoReport(report: Report, draw: Draw)
    | DoWatchdog(id: Id, draw: Draw)
    | DoPushCancel(id: Id)
    | DoRecover(id: Id)
    | DoRegister(worker: Id, capacity: int)
    | DoHeartbeat(worker: Id, active: int, capacity: int)
    | DoDeregister(worker: Id)
    | DoDropPending(worker: Id)
    | DoTick(d: Time)
    | DoWrite(write: Write)

  /** How much the environment is trusted.
      Racy: as Wild, and operations that read a job and then write it may be overtaken in between.
      Wild: reports may carry anything, messages may be duplicated, promotion may be interrupted
      between its halves, pushes may fail, and any job with a key may be created again.
      Guarded: as Wild, but a report comes from work that was handed out and passes `Harmless`, and
      creating again passes `Resubmittable`.
      Strict: reports are for executions still open, every push is accepted, promotion is atomic,
      the queue does not duplicate, and no job is created again once its time has come. */
  datatype Regime = Racy | Wild | Guarded | Strict

  /** A report that cannot detach a job from the execution it is on: the execution it names is open,
      or the job is not out on a worker, or the job ends up cancelled. */
  predicate Harmless(c: Core, r: Report) {
    || Open(c, r.exec)
    || r.job !in c.jobs
    || !(c.jobs[r.job].state.Assigned? || c.jobs[r.job].state.Running?)
    || r.result.reason.ReasonCancelled?
  }

  predicate ReportAllowed(reg: Regime, w: World, r: Report) {
    match reg
    case Racy => true
    case Wild => true
    case Guarded => Push(r.job, r.exec, r.worker, r.attempt) in w.pushes && Harmless(w.core, r)
    case Strict => Push(r.job, r.exec, r.worker, r.attempt) in w.pushes && Open(w.core, r.exec)
  }

  /** The guard of the branch that queues an existing job again. */
  predicate DueAgain(j: Job, now: Time) {
    j.scheduledAt.Some? && j.scheduledAt.value <= now
  }

  /** Creating again leaves the job alone, or finds it off the workers and with attempts left. */
  ghost predicate Resubmittable(w: World, id: Id) {
    id in w.core.jobs && DueAgain(w.core.jobs[id], w.now) ==>
      w.core.jobs[id].attempt < Budget(w.core.jobs[id]) && OffWorkers(w.core, id)
  }

  /** No execution of the job is open. */
  ghost predicate OffWorkers(c: Core, id: Id) {
    forall e {:trigger Open(c, e)} :: Open(c, e) ==> c.execs[e].job != id
  }

  ghost predicate ResubmitAllowed(reg: Regime, w: World, id: Id) {
    match reg
    case Racy => true
    case Wild => true
    case Guarded => Resubmittable(w, id)
    case Strict => id in w.core.jobs ==> !DueAgain(w.core.jobs[id], w.now)
  }

  predicate FreshDraw(w: World, d: Draw) {
    && d.childId != NO_ID && d.childId !in w.core.jobs
    && (d.next.Some? ==> d.next.value > w.now)   // the cron library answers with a later time
  }

  /** The first half of a promotion of this job, or its creation, has put a message out. */
  ghost predicate Promoted(w: World, id: Id) {
    exists m :: m in w.sent && m.job == id
  }

  ghost predicate Enabled(reg: Regime, w: World, s: Step) {
    match s
    case DoCreate(id, n, up) =>
      id != NO_ID && id !in w.core.jobs && (n.recurring ==> n.scheduledAt > w.now)
    case DoResubmit(id) =>
      id in w.core.jobs && w.core.jobs[id].idemKey != NO_ID && ResubmitAllowed(reg, w, id)
    case DoCancel(id) => true
    case DoPromote(id) => id in w.core.jobs && Due(w.core.jobs[id], w.now)
    case DoPromoteSend(id) => !reg.Strict? && id in w.core.jobs && Due(w.core.jobs[id], w.now)
    case DoPromoteMark(id) => !reg.Strict? && Promoted(w, id)
    case DoDeliver(m, pick, e, push) =>
      && m in w.core.queue && IsPick(w.core.workers, pick)
      && e != NO_ID && e !in w.core.execs
      && (reg.Strict? ==> push.Accepted?)
    case DoRedeliver(m) => !reg.Strict? && m in w.sent
    case DoReport(r, d) => ReportAllowed(reg, w, r) && FreshDraw(w, d)
    case DoWatchdog(id, d) => id in w.core.jobs && Overdue(w.core.jobs[id], w.now) && FreshDraw(w, d)
    case DoPushCancel(id) => id in w.core.jobs && w.core.jobs[id].state.CancelRequested?
    case DoRecover(id) => id in w.core.jobs && Active(w.core.jobs[id].state)
    case DoRegister(v, capacity) => true
    case DoHeartbeat(v, active, capacity) => true
    case DoDeregister(v) => true
    case DoDropPending(v) => true
    case DoTick(d) => d >= 0
    case DoWrite(x) =>
      && reg.Racy? && Target(x) in w.core.jobs && ReadAllows(x)
      && (x.ResultWrite? ==> FreshDraw(w, x.draw))
      && (x.AssignWrite? ==> x.exec != NO_ID && x.exec !in w.core.execs)
  }

  function HandedOut(w: World, m: Msg, pick: Option<Id>, e: Id, push: PushOutcome): set<Push> {
    if m.job in w.core.jobs && Waiting(w.core.jobs[m.job].state) && pick.Some? && !push.Refused?
    then {Push(m.job, e, pick.value, m.attempt + 1)} else {}
  }

  function Sent(w: World, id: Id): set<Msg> {
    if id in w.core.jobs then {Msg(id, w.core.jobs[id].attempt)} else {}
  }

  /** The jobs that are there now and were not before. */
  function Born(c: Core, c': Core, parent: Id): set<Spawn> {
    set k | k in c'.jobs && k !in c.jobs :: Spawn(parent, k)
  }

  function WritePushes(x: Write): set<Push> {
    if x.AssignWrite? && !x.push.Refused? then {Push(x.msg.job, x.exec, x.worker, x.msg.attempt + 1)} else {}
  }

  function Apply(w: World, s: Step): World {
    match s
    case DoResubmit(id) =>
      w.(core := Resubmit(w.core, w.now, id),
         sent := w.sent + if id in w.core.jobs && DueAgain(w.core.jobs[id], w.now) then Sent(w, id) else {})
    case DoCreate(id, n, up) =>
      w.(core := Create(w.core, w.now, id, n, up),
         sent := w.sent + if n.scheduledAt <= w.now && up then {Msg(id, 0)} else {})
    case DoCancel(id) => w.(core := Cancel(w.core, w.now, id))
    case DoPromote(id) => w.(core := Promote(w.core, w.now, id), sent := w.sent + Sent(w, id))
    case DoPromoteSend(id) => w.(core := PromoteSend(w.core, id), sent := w.sent + Sent(w, id))
    case DoPromoteMark(id) => w.(core := PromoteMark(w.core, w.now, id))
    case DoDeliver(m, pick, e, push) =>
      w.(core := Deliver(w.core, w.now, m, pick, e, push), pushes := w.pushes + HandedOut(w, m, pick, e, push))
    case DoRedeliver(m) => w.(core := w.core.(queue := w.core.queue + multiset{m}))
    case DoReport(r, d) =>
      w.(core := HandleResult(w.core, w.now, r, d),
         heirs := w.heirs + Born(w.core, HandleResult(w.core, w.now, r, d), r.job))
    case DoWatchdog(id, d) =>
      w.(core := Watchdog(w.core, w.now, id, d),
         heirs := w.heirs + Born(w.core, Watchdog(w.core, w.now, id, d), id))
    case DoPushCancel(id) => w.(core := PushCancel(w.core, w.now, id))
    case DoRecover(id) => w.(core := Recover(w.core, w.now, id))
    case DoRegister(v, capacity) => w.(core := Register(w.core, w.now, v, capacity))
    case DoHeartbeat(v, active, capacity) => w.(core := Heartbeat(w.core, w.now, v, active, capacity))
    case DoDeregister(v) => w.(core := Deregister(w.core, v))
    case DoDropPending(v) => w.(core := DropPending(w.core, v))
    case DoTick(d) => w.(now := w.now + d)
    case DoWrite(x) =>
      w.(core := Written(w.core, w.now, x),
         pushes := w.pushes + WritePushes(x),
         heirs := w.heirs + Born(w.core, Written(w.core, w.now, x), Target(x)))
  }

  function Run(w: World, steps: seq<Step>): World
    decreases steps
  {
    if steps == [] then w else Run(Apply(w, steps[0]), steps[1..])
  }

  ghost predicate Legal(reg: Regime, w: World, steps: seq<Step>)
    decreases steps
  {
    steps != [] ==> Enabled(reg, w, steps[0]) && Legal(reg, Apply(w, steps[0]), steps[1..])
  }

  /** A run may be extended by any step enabled where it ends. */
  lemma {:induction false} Extend(reg: Regime, w: World, steps: seq<Step>, s: Step)
    requires Legal(reg, w, steps) && Enabled(reg, Run(w, steps), s)
    ensures Legal(reg, w, steps + [s]) && Run(w, steps + [s]) == Apply(Run(w, steps), s)
    decreases steps
  {
    if steps == [] {
      assert steps + [s] == [s] && [s][1..] == [];
    } else {
      assert (steps + [s])[1..] == steps[1..] + [s];
      Extend(reg, Apply(w, steps[0]), steps[1..], s);
    }
  }

  /** One run after another. */
  lemma {:induction false} Concat(reg: Regime, w: World, a: seq<Step>, b: seq<Step>)
    requires Legal(reg, w, a) && Legal(reg, Run(w, a), b)
    ensures Legal(reg, w, a + b) && Run(w, a + b) == Run(Run(w, a), b)
    decreases a
  {
    if a == [] {
      assert a + b == b;
    } else {
      assert (a + b)[1..] == a[1..] + b;
      Concat(reg, Apply(w, a[0]), a[1..], b);
    }
  }
}
