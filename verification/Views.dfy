/** The lifecycle seen one record at a time: what a step makes of a single job, of a single
    execution, of the queue and of the worker map. */
module Views {
  import opened Domain
  import opened Lifecycle

  function AfterCancel(j: Job, now: Time): Job {
    if j.state.Completed? || j.state.Cancelled? || j.state.Expired? then j
    else if j.state.Running? || j.state.Assigned? then j.(state := CancelRequested)
    else j.(state := Cancelled, completedAt := Some(now))
  }

  function AfterResubmit(j: Job, now: Time): Job {
    if DueAgain(j, now) then j.(state := Queued, queuedAt := Some(now)) else j
  }

  function AfterMark(j: Job, now: Time): Job {
    if j.state.Scheduled? || j.state.Retrying? then j.(state := Queued, queuedAt := Some(now)) else j
  }

  function AfterDeliver(j: Job, now: Time, m: Msg, pick: Option<Id>, e: Id, push: PushOutcome): Job {
    if !Waiting(j.state) || pick.None? then j
    else
      var a := j.(state := Assigned, workerId := pick.value, execId := e, attempt := m.attempt + 1);
      if push.Accepted? then a.(state := Running, startedAt := Some(now)) else a
  }

  function AfterResult(j: Job, now: Time, r: Report, d: Draw): Job {
    if Terminal(j.state) then j else Settled(j, now, Verdict(j, r).0, d.delay)
  }

  function AfterPushCancel(j: Job, now: Time): Job {
    if j.workerId == NO_ID then j.(state := Cancelled, completedAt := Some(now)) else j
  }

  /** The job `id` after the step, from its record before it. */
  function After(w: World, s: Step, id: Id): Job
    requires id in w.core.jobs
  {
    var j := w.core.jobs[id];
    match s
    case DoResubmit(k) => if k == id then AfterResubmit(j, w.now) else j
    case DoCancel(k) => if k == id then AfterCancel(j, w.now) else j
    case DoPromote(k) => if k == id then AfterMark(j, w.now) else j
    case DoPromoteMark(k) => if k == id then AfterMark(j, w.now) else j
    case DoDeliver(m, pick, e, push) => if m.job == id then AfterDeliver(j, w.now, m, pick, e, push) else j
    case DoReport(r, d) => if r.job == id then AfterResult(j, w.now, r, d) else j
    case DoWatchdog(k, d) => if k == id then AfterResult(j, w.now, TimeoutReport(id, j), d) else j
    case DoPushCancel(k) => if k == id then AfterPushCancel(j, w.now) else j
    case DoRecover(k) => if k == id then Recovered(j, w.now) else j
    case DoWrite(x) => if Target(x) == id then WrittenJob(j, w.now, x) else j
    case _ => j
  }

  lemma ResultView(c: Core, now: Time, r: Report, d: Draw, id: Id)
    requires id in c.jobs && d.childId !in c.jobs
    ensures id in HandleResult(c, now, r, d).jobs
    ensures HandleResult(c, now, r, d).jobs[id] ==
      if r.job == id then AfterResult(c.jobs[id], now, r, d) else c.jobs[id]
  {
  }

  lemma DeliverView(c: Core, now: Time, m: Msg, pick: Option<Id>, e: Id, push: PushOutcome, id: Id)
    requires id in c.jobs
    ensures id in Deliver(c, now, m, pick, e, push).jobs
    ensures Deliver(c, now, m, pick, e, push).jobs[id]
         == if m.job == id then AfterDeliver(c.jobs[id], now, m, pick, e, push) else c.jobs[id]
  {
  }

  lemma ApiView(c: Core, now: Time, k: Id, id: Id)
    requires id in c.jobs
    ensures id in Cancel(c, now, k).jobs
    ensures Cancel(c, now, k).jobs[id] == if k == id then AfterCancel(c.jobs[id], now) else c.jobs[id]
    ensures id in Promote(c, now, k).jobs
    ensures Promote(c, now, k).jobs[id] == if k == id then AfterMark(c.jobs[id], now) else c.jobs[id]
  {
  }

  lemma ResubmitView(c: Core, now: Time, k: Id, id: Id)
    requires id in c.jobs
    ensures id in Resubmit(c, now, k).jobs
    ensures Resubmit(c, now, k).jobs[id] == if k == id then AfterResubmit(c.jobs[id], now) else c.jobs[id]
  {
  }

  lemma PushView(c: Core, now: Time, k: Id, id: Id)
    requires id in c.jobs
    ensures id in PushCancel(c, now, k).jobs
    ensures PushCancel(c, now, k).jobs[id] == if k == id then AfterPushCancel(c.jobs[id], now) else c.jobs[id]
  {
  }

  lemma RecoverView(c: Core, now: Time, k: Id, id: Id)
    requires id in c.jobs
    ensures id in Recover(c, now, k).jobs
    ensures Recover(c, now, k).jobs[id] == if k == id then Recovered(c.jobs[id], now) else c.jobs[id]
  {
  }

  /** No step removes a job, and each step treats it exactly as the view says. */
  lemma View(w: World, s: Step, id: Id)
    requires Enabled(Wild, w, s) && id in w.core.jobs
    ensures id in Apply(w, s).core.jobs && Apply(w, s).core.jobs[id] == After(w, s, id)
  {
    match s
    case DoReport(r, d) => ResultView(w.core, w.now, r, d, id);
    case DoWatchdog(k, d) => ResultView(w.core, w.now, TimeoutReport(k, w.core.jobs[k]), d, id);
    case DoDeliver(m, pick, e, push) => DeliverView(w.core, w.now, m, pick, e, push, id);
    case DoCancel(k) => ApiView(w.core, w.now, k, id);
    case DoPromote(k) => ApiView(w.core, w.now, k, id);
    case DoRecover(k) => RecoverView(w.core, w.now, k, id);
    case DoResubmit(k) => ResubmitView(w.core, w.now, k, id);
    case DoPushCancel(k) => PushView(w.core, w.now, k, id);
    case _ =>
  }

  lemma WriteView(c: Core, now: Time, x: Write, id: Id)
    requires id in c.jobs && (x.ResultWrite? ==> x.draw.childId !in c.jobs)
    ensures id in Written(c, now, x).jobs
    ensures Written(c, now, x).jobs[id] == if Target(x) == id then WrittenJob(c.jobs[id], now, x) else c.jobs[id]
  {
  }

  /** The same when operations may be overtaken. */
  lemma RacyView(w: World, s: Step, id: Id)
    requires Enabled(Racy, w, s) && id in w.core.jobs
    ensures id in Apply(w, s).core.jobs && Apply(w, s).core.jobs[id] == After(w, s, id)
  {
    if s.DoWrite? {
      WriteView(w.core, w.now, s.write, id);
    } else {
      assert Enabled(Wild, w, s);
      View(w, s, id);
    }
  }

  lemma ResultNew(c: Core, now: Time, r: Report, d: Draw, id: Id)
    requires id !in c.jobs && id in HandleResult(c, now, r, d).jobs
    ensures Spawns(c, r, d) && id == d.childId
    ensures HandleResult(c, now, r, d).jobs[id] == Occurrence(c.jobs[r.job], d.next.value)
  {
  }

  lemma DeliverNew(c: Core, now: Time, m: Msg, pick: Option<Id>, e: Id, push: PushOutcome)
    ensures Deliver(c, now, m, pick, e, push).jobs.Keys == c.jobs.Keys
  {
  }

  /** A job that appears is either created through the API or the next occurrence of a recurring job. */
  lemma NewView(w: World, s: Step, id: Id)
    requires Enabled(Wild, w, s) && id !in w.core.jobs && id in Apply(w, s).core.jobs
    ensures
      var j' := Apply(w, s).core.jobs[id];
      || (s.DoCreate? && s.id == id &&
          j' == if s.n.scheduledAt <= w.now && s.up
                then FreshJob(s.n).(state := Queued, queuedAt := Some(w.now)) else FreshJob(s.n))
      || (s.DoReport? && Spawns(w.core, s.report, s.draw) && id == s.draw.childId &&
          j' == Occurrence(w.core.jobs[s.report.job], s.draw.next.value))
  {
    match s
    case DoReport(r, d) => ResultNew(w.core, w.now, r, d, id);
    case DoWatchdog(k, d) => ResultNew(w.core, w.now, TimeoutReport(k, w.core.jobs[k]), d, id);
    case DoDeliver(m, pick, e, push) => DeliverNew(w.core, w.now, m, pick, e, push);
    case _ =>
  }

  /** Whether a delivery goes through to a worker. */
  predicate Hands(w: World, s: Step) {
    && s.DoDeliver? && s.msg.job in w.core.jobs
    && Waiting(w.core.jobs[s.msg.job].state) && s.pick.Some?
  }

  /** A delivery adds an execution and takes a slot when it goes through, and acknowledges the
      message unless the handler fails. */
  lemma DeliverParts(w: World, s: Step)
    requires s.DoDeliver?
    ensures var c, c' := w.core, Apply(w, s).core;
      && c'.execs ==
           (if Hands(w, s)
            then c.execs[s.exec := Execution(s.msg.job, s.pick.value, s.msg.attempt + 1, ExecPending)] else c.execs)
      && c'.workers == (if Hands(w, s) && s.push.Accepted? then SlotTaken(c.workers, s.pick.value) else c.workers)
      && c'.queue ==
           if s.msg.job in c.jobs && (!Waiting(c.jobs[s.msg.job].state) || (s.pick.Some? && s.push.Accepted?))
           then c.queue - multiset{s.msg} else c.queue
  {
  }

  /** The scheduler's worker map after the step: only registration, heartbeats, accepted pushes and
      results touch it. */
  function WorkersAfter(w: World, s: Step): map<Id, Worker> {
    var f := w.core.workers;
    match s
    case DoDeliver(m, pick, e, push) =>
      if Hands(w, s) && push.Accepted? then SlotTaken(f, pick.value) else f
    case DoReport(r, d) => SlotReleased(f, r.worker)
    case DoWatchdog(k, d) => if k in w.core.jobs then SlotReleased(f, w.core.jobs[k].workerId) else f
    case DoRegister(v, capacity) => f[v := Worker(Healthy, capacity, 0, w.now)]
    case DoHeartbeat(v, active, capacity) => if v in f then f[v := Worker(Healthy, capacity, active, w.now)] else f
    case DoDeregister(v) => f - {v}
    case DoWrite(x) => Written(w.core, w.now, x).workers
    case _ => f
  }

  lemma ResultWorkers(c: Core, now: Time, r: Report, d: Draw)
    ensures HandleResult(c, now, r, d).workers == SlotReleased(c.workers, r.worker)
  {
  }

  lemma FleetWorkers(w: World, s: Step)
    requires s.DoRegister? || s.DoHeartbeat? || s.DoDeregister?
    ensures Apply(w, s).core.workers == WorkersAfter(w, s)
  {
  }

  lemma ApiWorkers(c: Core, now: Time, id: Id, n: NewJob, up: bool)
    ensures Create(c, now, id, n, up).workers == c.workers
  {
  }

  lemma PromoteWorkers(c: Core, now: Time, id: Id)
    ensures Promote(c, now, id).workers == c.workers
  {
  }

  lemma LossWorkers(c: Core, now: Time, id: Id)
    ensures PushCancel(c, now, id).workers == c.workers && Recover(c, now, id).workers == c.workers
  {
  }

  lemma JobStepWorkers(w: World, s: Step)
    requires s.DoDeliver? || s.DoReport? || s.DoWatchdog?
    ensures Apply(w, s).core.workers == WorkersAfter(w, s)
  {
    match s
    case DoDeliver(m, pick, x, push) => DeliverParts(w, s);
    case DoReport(r, d) => ResultWorkers(w.core, w.now, r, d);
    case DoWatchdog(k, d) =>
      if k in w.core.jobs { ResultWorkers(w.core, w.now, TimeoutReport(k, w.core.jobs[k]), d); }
  }

  /** The steps that do not look at the workers. */
  predicate Quiet(s: Step) {
    || s.DoCreate? || s.DoResubmit? || s.DoCancel? || s.DoPromote? || s.DoPromoteSend? || s.DoPromoteMark?
    || s.DoRedeliver? || s.DoPushCancel? || s.DoRecover? || s.DoDropPending? || s.DoTick?
  }

  lemma QuietWorkers(w: World, s: Step)
    requires Quiet(s)
    ensures Apply(w, s).core.workers == w.core.workers
  {
    match s
    case DoCreate(id, n, up) => ApiWorkers(w.core, w.now, id, n, up);
    case DoPromote(id) => PromoteWorkers(w.core, w.now, id);
    case DoPushCancel(id) => LossWorkers(w.core, w.now, id);
    case DoRecover(id) => LossWorkers(w.core, w.now, id);
    case _ =>
  }

  lemma WorkersView(w: World, s: Step)
    ensures Apply(w, s).core.workers == WorkersAfter(w, s)
  {
    if s.DoWrite? { }
    else if Quiet(s) { QuietWorkers(w, s); }
    else if s.DoDeliver? || s.DoReport? || s.DoWatchdog? { JobStepWorkers(w, s); }
    else { FleetWorkers(w, s); }
  }

  lemma ResultExecs(c: Core, now: Time, r: Report, d: Draw)
    ensures HandleResult(c, now, r, d).execs.Keys == c.execs.Keys
    ensures forall e :: e in c.execs ==> c.execs[e] == HandleResult(c, now, r, d).execs[e].(state := c.execs[e].state)
  {
  }

  /** Executions are never removed, and what they are about never changes. */
  lemma ExecView(w: World, s: Step, e: Id)
    requires Enabled(Wild, w, s) && e in w.core.execs
    ensures e in Apply(w, s).core.execs
    ensures w.core.execs[e] == Apply(w, s).core.execs[e].(state := w.core.execs[e].state)
  {
    match s
    case DoReport(r, d) => ResultExecs(w.core, w.now, r, d);
    case DoWatchdog(k, d) => ResultExecs(w.core, w.now, TimeoutReport(k, w.core.jobs[k]), d);
    case DoDeliver(m, pick, x, push) => DeliverParts(w, s);
    case _ =>
  }

  /** Executions appear only when a delivery hands out work. */
  lemma NewExecView(w: World, s: Step, e: Id)
    requires Enabled(Wild, w, s) && e !in w.core.execs
    ensures e in Apply(w, s).core.execs <==> Hands(w, s) && s.exec == e
    ensures e in Apply(w, s).core.execs ==>
      Apply(w, s).core.execs[e] == Execution(s.msg.job, s.pick.value, s.msg.attempt + 1, ExecPending)
  {
    match s
    case DoReport(r, d) => ResultExecs(w.core, w.now, r, d);
    case DoWatchdog(k, d) => ResultExecs(w.core, w.now, TimeoutReport(k, w.core.jobs[k]), d);
    case DoDeliver(m, pick, x, push) => DeliverParts(w, s);
    case _ =>
  }

  /** The queue after the step. */
  function QueueAfter(w: World, s: Step): multiset<Msg> {
    var q := w.core.queue;
    match s
    case DoCreate(id, n, up) => if n.scheduledAt <= w.now && up then q + multiset{Msg(id, 0)} else q
    case DoResubmit(id) =>
      if id in w.core.jobs && DueAgain(w.core.jobs[id], w.now) then q + multiset{Msg(id, w.core.jobs[id].attempt)}
      else q
    case DoPromote(id) => if id in w.core.jobs then q + multiset{Msg(id, w.core.jobs[id].attempt)} else q
    case DoPromoteSend(id) => if id in w.core.jobs then q + multiset{Msg(id, w.core.jobs[id].attempt)} else q
    case DoDeliver(m, pick, e, push) =>
      if m.job !in w.core.jobs then q
      else if !Waiting(w.core.jobs[m.job].state) || (pick.Some? && push.Accepted?) then q - multiset{m}
      else q
    case DoRedeliver(m) => q + multiset{m}
    case DoWrite(x) => Written(w.core, w.now, x).queue
    case _ => q
  }

  lemma ResultQueue(c: Core, now: Time, r: Report, d: Draw)
    ensures HandleResult(c, now, r, d).queue == c.queue
  {
  }

  lemma SendQueue(c: Core, now: Time, id: Id, n: NewJob, up: bool)
    ensures Promote(c, now, id).queue == PromoteSend(c, id).queue
    ensures Create(c, now, id, n, up).queue ==
      if n.scheduledAt <= now && up then c.queue + multiset{Msg(id, 0)} else c.queue
  {
  }

  lemma QueueView(w: World, s: Step)
    ensures Apply(w, s).core.queue == QueueAfter(w, s)
  {
    if s.DoDeliver? {
      DeliverParts(w, s);
    } else if s.DoReport? {
      ResultQueue(w.core, w.now, s.report, s.draw);
    } else if s.DoWatchdog? {
      if s.id in w.core.jobs { ResultQueue(w.core, w.now, TimeoutReport(s.id, w.core.jobs[s.id]), s.draw); }
    } else if s.DoCreate? {
      SendQueue(w.core, w.now, s.id, s.n, s.up);
    }
  }
}
