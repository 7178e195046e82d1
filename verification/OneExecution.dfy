/** Guarded runs: at most one open execution per job, and the retry budget. */
module OneExecution {
  import opened Domain
  import opened Lifecycle

  /** The execution `e` is open, so its job is still on it: same execution id, attempt and worker.
      A job cancelled twice is CANCELLED while its execution stays open. */
  predicate Attached(c: Core, e: Id) {
    e in c.execs &&
    var x := c.execs[e];
    && x.job in c.jobs
    && c.jobs[x.job].execId == e
    && c.jobs[x.job].attempt == x.attempt
    && c.jobs[x.job].workerId == x.worker
    && (Active(c.jobs[x.job].state) || c.jobs[x.job].state.Cancelled?)
  }

  /** The converse: an active job names an open execution of its own. */
  predicate OutOnWorker(c: Core, id: Id) {
    id in c.jobs && Open(c, c.jobs[id].execId) && c.execs[c.jobs[id].execId].job == id
  }

  predicate JobOk(c: Core, now: Time, id: Id) {
    id in c.jobs &&
    var j := c.jobs[id];
    && id != NO_ID
    && !j.state.Created?
    && 0 <= j.attempt <= Budget(j)
    && (Waiting(j.state) ==> j.attempt < Budget(j))
    && (Active(j.state) ==> OutOnWorker(c, id))
    && j.scheduledAt.Some?
    && (!j.state.Scheduled? && !j.state.Cancelled? ==> j.scheduledAt.value <= now)
  }

  predicate ExecOk(c: Core, now: Time, e: Id) {
    e in c.execs &&
    var x := c.execs[e];
    && e != NO_ID
    && x.job in c.jobs
    && 1 <= x.attempt <= Budget(c.jobs[x.job])
    && c.jobs[x.job].scheduledAt.Some? && c.jobs[x.job].scheduledAt.value <= now
    && (Open(c, e) ==> Attached(c, e))
  }

  predicate MsgOk(c: Core, now: Time, m: Msg) {
    && m.job in c.jobs
    && 0 <= m.attempt < Budget(c.jobs[m.job])
    && c.jobs[m.job].scheduledAt.Some? && c.jobs[m.job].scheduledAt.value <= now
  }

  predicate PushOk(c: Core, p: Push) {
    && p.exec in c.execs
    && c.execs[p.exec].job == p.job
    && c.execs[p.exec].attempt == p.attempt
    && c.execs[p.exec].worker == p.worker
  }

  ghost predicate JobsOk(c: Core, now: Time) {
    forall id {:trigger JobOk(c, now, id)} :: id in c.jobs ==> JobOk(c, now, id)
  }

  ghost predicate ExecsOk(c: Core, now: Time) {
    forall e {:trigger ExecOk(c, now, e)} :: e in c.execs ==> ExecOk(c, now, e)
  }

  ghost predicate MsgsOk(w: World) {
    && (forall m {:trigger MsgOk(w.core, w.now, m)} :: m in w.sent ==> MsgOk(w.core, w.now, m))
    && (forall m {:trigger m in w.sent} :: m in w.core.queue ==> m in w.sent)
  }

  ghost predicate PushesOk(w: World) {
    forall p {:trigger PushOk(w.core, p)} :: p in w.pushes ==> PushOk(w.core, p)
  }

  ghost predicate Inv(w: World) {
    JobsOk(w.core, w.now) && ExecsOk(w.core, w.now) && MsgsOk(w) && PushesOk(w)
  }

  /** What no step changes about a job. */
  predicate SameTerms(j: Job, j': Job) {
    j'.maxAttempts == j.maxAttempts && j'.scheduledAt == j.scheduledAt
  }

  /** What no step changes about an execution. */
  predicate SameWork(x: Execution, x': Execution) {
    x'.job == x.job && x'.attempt == x.attempt && x'.worker == x.worker
  }

  /** Jobs other than `id` are as they were, or new and in order. */
  ghost predicate JobsFramed(w: World, w': World, id: Id) {
    && w'.now >= w.now
    && (forall k :: k in w.core.jobs ==> k in w'.core.jobs)
    && (forall k :: k in w'.core.jobs && k != id ==>
          if k in w.core.jobs then w'.core.jobs[k] == w.core.jobs[k]
          else JobOk(w'.core, w'.now, k))
    && id in w'.core.jobs && JobOk(w'.core, w'.now, id)
    && (id in w.core.jobs ==> SameTerms(w.core.jobs[id], w'.core.jobs[id]))
  }

  /** Executions other than `e` are as they were, and `e` is in order. */
  ghost predicate ExecsFramed(w: World, w': World, e: Id) {
    && (forall x :: x in w.core.execs ==> x in w'.core.execs)
    && (forall x :: x in w'.core.execs && x != e ==> x in w.core.execs && w'.core.execs[x] == w.core.execs[x])
    && (e in w'.core.execs ==> ExecOk(w'.core, w'.now, e))
    && (e in w.core.execs ==> SameWork(w.core.execs[e], w'.core.execs[e]))
  }

  /** New messages and pushes are in order. */
  ghost predicate TrafficFramed(w: World, w': World) {
    && w.sent <= w'.sent && w.pushes <= w'.pushes
    && (forall m :: m in w'.sent && m !in w.sent ==> MsgOk(w'.core, w'.now, m))
    && (forall m :: m in w'.core.queue ==> m in w'.sent)
    && (forall p :: p in w'.pushes && p !in w.pushes ==> PushOk(w'.core, p))
  }

  /** Everything not named by a step stays in order: the job `id` and the execution `e` change, and
      no other open execution or active job refers to them. */
  lemma Frame(w: World, w': World, id: Id, e: Id)
    requires Inv(w) && JobsFramed(w, w', id) && ExecsFramed(w, w', e) && TrafficFramed(w, w')
    requires forall x :: x in w.core.execs && x != e && Open(w.core, x) ==>
      w.core.execs[x].job != id || Attached(w'.core, x)
    requires forall k :: k in w.core.jobs && k != id && Active(w.core.jobs[k].state) ==> w.core.jobs[k].execId != e
    ensures Inv(w')
  {
    var c, c' := w.core, w'.core;
    forall k | k in c'.jobs ensures JobOk(c', w'.now, k) {
      if k != id && k in c.jobs { assert JobOk(c, w.now, k); }
    }
    forall x | x in c'.execs ensures ExecOk(c', w'.now, x) {
      if x != e { assert ExecOk(c, w.now, x); }
    }
    forall m | m in w'.sent ensures MsgOk(c', w'.now, m) {
      if m in w.sent { assert MsgOk(c, w.now, m); }
    }
    forall p | p in w'.pushes ensures PushOk(c', p) {
      if p in w.pushes { assert PushOk(c, p); }
    }
  }

  lemma AllAttached(w: World)
    requires Inv(w)
    ensures forall x :: x in w.core.execs && Open(w.core, x) ==> Attached(w.core, x)
  {
    forall x | x in w.core.execs && Open(w.core, x) ensures Attached(w.core, x) { assert ExecOk(w.core, w.now, x); }
  }

  /** A job with no open execution: an execution being open would attach the job to it. */
  lemma NothingOpen(w: World, id: Id)
    requires Inv(w) && id in w.core.jobs
    requires !Active(w.core.jobs[id].state) && !w.core.jobs[id].state.Cancelled?
    ensures forall x :: x in w.core.execs && Open(w.core, x) ==> w.core.execs[x].job != id
  {
    forall x | x in w.core.execs && Open(w.core, x) ensures w.core.execs[x].job != id {
      assert ExecOk(w.core, w.now, x);
    }
  }

  /** Only the execution the job names can be open for it. */
  lemma OnlyCurrentOpen(w: World, id: Id)
    requires Inv(w) && id in w.core.jobs
    ensures forall x :: x in w.core.execs && Open(w.core, x) && w.core.execs[x].job == id ==>
      x == w.core.jobs[id].execId
  {
    forall x | x in w.core.execs && Open(w.core, x) && w.core.execs[x].job == id ensures x == w.core.jobs[id].execId {
      assert ExecOk(w.core, w.now, x);
    }
  }

  /** No other active job names an execution that belongs to `id`. */
  lemma NotOnOthers(w: World, id: Id, e: Id)
    requires Inv(w) && (e in w.core.execs ==> w.core.execs[e].job == id)
    ensures forall k :: k in w.core.jobs && k != id && Active(w.core.jobs[k].state) ==> w.core.jobs[k].execId != e
  {
    forall k | k in w.core.jobs && k != id && Active(w.core.jobs[k].state) ensures w.core.jobs[k].execId != e {
      assert JobOk(w.core, w.now, k);
    }
  }

  /** A step that changes no execution. */
  lemma FrameJob(w: World, w': World, id: Id)
    requires Inv(w) && JobsFramed(w, w', id) && TrafficFramed(w, w')
    requires w'.core.execs == w.core.execs
    requires forall x :: x in w.core.execs && Open(w.core, x) ==> w.core.execs[x].job != id || Attached(w'.core, x)
    ensures Inv(w')
  {
    forall e | e in w.core.execs ensures e != NO_ID { assert ExecOk(w.core, w.now, e); }
    NotOnOthers(w, id, NO_ID);
    Frame(w, w', id, NO_ID);
  }

  // ----- every step keeps the invariant

  lemma CreateKeeps(w: World, id: Id, n: NewJob, up: bool)
    requires Inv(w) && Enabled(Guarded, w, DoCreate(id, n, up))
    ensures Inv(Apply(w, DoCreate(id, n, up)))
  {
    forall x | x in w.core.execs ensures w.core.execs[x].job != id { assert ExecOk(w.core, w.now, x); }
    FrameJob(w, Apply(w, DoCreate(id, n, up)), id);
  }

  lemma ResubmitKeeps(w: World, id: Id)
    requires Inv(w) && id in w.core.jobs && Resubmittable(w, id)
    ensures Inv(Apply(w, DoResubmit(id)))
  {
    var w' := Apply(w, DoResubmit(id));
    assert JobOk(w.core, w.now, id);
    if DueAgain(w.core.jobs[id], w.now) {
      FrameJob(w, w', id);
    } else {
      SameCore(w, w');
    }
  }

  lemma CancelActiveKeeps(w: World, id: Id)
    requires Inv(w) && id in w.core.jobs && Active(w.core.jobs[id].state)
    ensures Inv(Apply(w, DoCancel(id)))
  {
    assert JobOk(w.core, w.now, id);
    AllAttached(w);
    FrameJob(w, Apply(w, DoCancel(id)), id);
  }

  lemma CancelIdleKeeps(w: World, id: Id)
    requires Inv(w) && id in w.core.jobs && !Active(w.core.jobs[id].state)
    requires !(w.core.jobs[id].state.Completed? || w.core.jobs[id].state.Cancelled? || w.core.jobs[id].state.Expired?)
    ensures Inv(Apply(w, DoCancel(id)))
  {
    assert JobOk(w.core, w.now, id);
    NothingOpen(w, id);
    FrameJob(w, Apply(w, DoCancel(id)), id);
  }

  lemma CancelKeeps(w: World, id: Id)
    requires Inv(w)
    ensures Inv(Apply(w, DoCancel(id)))
  {
    if id in w.core.jobs && !(w.core.jobs[id].state in {Completed, Cancelled, Expired}) {
      if Active(w.core.jobs[id].state) {
        CancelActiveKeeps(w, id);
      } else {
        CancelIdleKeeps(w, id);
      }
    }
  }

  lemma PromoteSendKeeps(w: World, id: Id)
    requires Inv(w) && Enabled(Wild, w, DoPromoteSend(id))
    ensures Inv(Apply(w, DoPromoteSend(id)))
  {
    assert JobOk(w.core, w.now, id);
    NothingOpen(w, id);
    FrameJob(w, Apply(w, DoPromoteSend(id)), id);
  }

  lemma PromoteMarkKeeps(w: World, id: Id)
    requires Inv(w) && Promoted(w, id)
    ensures Inv(Apply(w, DoPromoteMark(id)))
  {
    if id in w.core.jobs && (w.core.jobs[id].state.Scheduled? || w.core.jobs[id].state.Retrying?) {
      assert JobOk(w.core, w.now, id);
      var m :| m in w.sent && m.job == id;
      assert MsgOk(w.core, w.now, m);
      NothingOpen(w, id);
      FrameJob(w, Apply(w, DoPromoteMark(id)), id);
    }
  }

  lemma PromoteKeeps(w: World, id: Id)
    requires Inv(w) && Enabled(Guarded, w, DoPromote(id))
    ensures Inv(Apply(w, DoPromote(id)))
  {
    PromoteSendKeeps(w, id);
    var w1 := Apply(w, DoPromoteSend(id));
    assert Msg(id, w.core.jobs[id].attempt) in w1.sent;
    PromoteMarkKeeps(w1, id);
    assert Apply(w1, DoPromoteMark(id)) == Apply(w, DoPromote(id));
  }

  lemma DeliverKeeps(w: World, m: Msg, pick: Option<Id>, e: Id, push: PushOutcome)
    requires Inv(w) && Enabled(Guarded, w, DoDeliver(m, pick, e, push))
    ensures Inv(Apply(w, DoDeliver(m, pick, e, push)))
  {
    var w' := Apply(w, DoDeliver(m, pick, e, push));
    assert m in w.sent;
    assert MsgOk(w.core, w.now, m);
    assert JobOk(w.core, w.now, m.job);
    if !Waiting(w.core.jobs[m.job].state) || pick.None? {
      SameCore(w, w');
    } else {
      NothingOpen(w, m.job);
      NotOnOthers(w, m.job, e);
      Frame(w, w', m.job, e);
    }
  }

  /** Dropping or keeping messages, and anything done to workers and pending cancels. */
  lemma SameCore(w: World, w': World)
    requires Inv(w)
    requires w'.core.jobs == w.core.jobs && w'.core.execs == w.core.execs
    requires w'.sent == w.sent && w'.pushes == w.pushes && w'.now >= w.now
    requires forall m :: m in w'.core.queue ==> m in w.sent
    ensures Inv(w')
  {
    forall k | k in w'.core.jobs ensures JobOk(w'.core, w'.now, k) { assert JobOk(w.core, w.now, k); }
    forall x | x in w'.core.execs ensures ExecOk(w'.core, w'.now, x) { assert ExecOk(w.core, w.now, x); }
    forall m | m in w'.sent ensures MsgOk(w'.core, w'.now, m) { assert MsgOk(w.core, w.now, m); }
    forall p | p in w'.pushes ensures PushOk(w'.core, p) { assert PushOk(w.core, p); }
  }

  /** The job `id` takes the value `j'` and its execution `e` is closed with `est`; a new job may appear. */
  ghost predicate Closes(w: World, w': World, id: Id, j': Job, e: Id, est: ExecState) {
    && id in w.core.jobs && e in w.core.execs
    && w'.now == w.now && w'.sent == w.sent && w'.pushes == w.pushes
    && w'.core.queue == w.core.queue
    && w'.core.execs == w.core.execs[e := w.core.execs[e].(state := est)]
    && id in w'.core.jobs && w'.core.jobs[id] == j'
    && (forall k :: k in w.core.jobs ==> k in w'.core.jobs)
    && (forall k :: k in w'.core.jobs && k != id ==>
          if k in w.core.jobs then w'.core.jobs[k] == w.core.jobs[k]
          else JobOk(w'.core, w'.now, k))
  }

  lemma ClosingKeeps(w: World, w': World, id: Id, j': Job, e: Id, est: ExecState)
    requires Inv(w) && Closes(w, w', id, j', e, est)
    requires w.core.execs[e].job == id && !est.ExecPending? && !est.ExecRunning?
    requires SameTerms(w.core.jobs[id], j') && j'.attempt == w.core.jobs[id].attempt
    requires !Active(j'.state) && !j'.state.Scheduled? && !j'.state.Created?
    requires Waiting(j'.state) ==> j'.attempt < Budget(j')
    requires
      || Open(w.core, e)
      || !Active(w.core.jobs[id].state)
      || (j'.state.Cancelled? && j'.execId == w.core.jobs[id].execId && j'.workerId == w.core.jobs[id].workerId)
    requires !w.core.jobs[id].state.Cancelled?
    ensures Inv(w')
  {
    assert ExecOk(w.core, w.now, e);
    assert JobOk(w.core, w.now, id);
    AllAttached(w);
    NotOnOthers(w, id, e);
    Frame(w, w', id, e);
  }

  /** A verdict on a live job, on an execution of that job. */
  lemma VerdictKeeps(w: World, w': World, r: Report, d: Draw)
    requires Inv(w) && FreshDraw(w, d)
    requires r.job in w.core.jobs && !Terminal(w.core.jobs[r.job].state)
    requires r.exec in w.core.execs && w.core.execs[r.exec].job == r.job && w.core.execs[r.exec].attempt == r.attempt
    requires Harmless(w.core, r)
    requires w'.core.jobs == SettledJobs(w.core, w.now, r, d)
    requires w'.core.execs == w.core.execs[r.exec := w.core.execs[r.exec].(state := Verdict(w.core.jobs[r.job], r).1)]
    requires w'.now == w.now && w'.sent == w.sent && w'.pushes == w.pushes && w'.core.queue == w.core.queue
    ensures Inv(w')
  {
    assert ExecOk(w.core, w.now, r.exec);
    assert JobOk(w.core, w.now, r.job);
    var j := w.core.jobs[r.job];
    var (st, est) := Verdict(j, r);
    ClosingKeeps(w, w', r.job, Settled(j, w.now, st, d.delay), r.exec, est);
  }

  /** A result for an execution on record: it is ignored, or the job is waiting, or it closes the one
      open execution of the job, or it cancels the job. */
  lemma ResultKeeps(w: World, w': World, r: Report, d: Draw)
    requires Inv(w) && FreshDraw(w, d)
    requires w'.core == HandleResult(w.core, w.now, r, d)
    requires w'.now == w.now && w'.sent == w.sent && w'.pushes == w.pushes
    requires r.exec in w.core.execs && w.core.execs[r.exec].job == r.job && w.core.execs[r.exec].attempt == r.attempt
    requires Harmless(w.core, r)
    ensures Inv(w')
  {
    assert ExecOk(w.core, w.now, r.exec);
    if Terminal(w.core.jobs[r.job].state) {
      SameCore(w, w');
    } else {
      VerdictKeeps(w, w', r, d);
    }
  }

  lemma ReportKeeps(w: World, r: Report, d: Draw)
    requires Inv(w) && Enabled(Guarded, w, DoReport(r, d))
    ensures Inv(Apply(w, DoReport(r, d)))
  {
    assert PushOk(w.core, Push(r.job, r.exec, r.worker, r.attempt));
    ResultKeeps(w, Apply(w, DoReport(r, d)), r, d);
  }

  lemma WatchdogKeeps(w: World, id: Id, d: Draw)
    requires Inv(w) && Enabled(Guarded, w, DoWatchdog(id, d))
    ensures Inv(Apply(w, DoWatchdog(id, d)))
  {
    assert JobOk(w.core, w.now, id);
    var r := TimeoutReport(id, w.core.jobs[id]);
    assert ExecOk(w.core, w.now, r.exec);
    ResultKeeps(w, Apply(w, DoWatchdog(id, d)), r, d);
  }

  lemma RecoverKeeps(w: World, id: Id)
    requires Inv(w) && Enabled(Guarded, w, DoRecover(id))
    ensures Inv(Apply(w, DoRecover(id)))
  {
    var e := w.core.jobs[id].execId;
    assert JobOk(w.core, w.now, id);
    assert ExecOk(w.core, w.now, e);
    OnlyCurrentOpen(w, id);
    NotOnOthers(w, id, e);
    Frame(w, Apply(w, DoRecover(id)), id, e);
  }

  lemma PushCancelKeeps(w: World, id: Id)
    requires Inv(w) && Enabled(Guarded, w, DoPushCancel(id))
    ensures Inv(Apply(w, DoPushCancel(id)))
  {
    var w' := Apply(w, DoPushCancel(id));
    assert JobOk(w.core, w.now, id);
    if w.core.jobs[id].workerId == NO_ID {
      AllAttached(w);
      FrameJob(w, w', id);
    } else {
      SameCore(w, w');
    }
  }

  lemma StepKeeps(w: World, s: Step)
    requires Inv(w) && Enabled(Guarded, w, s)
    ensures Inv(Apply(w, s))
  {
    match s
    case DoCreate(id, n, up) => CreateKeeps(w, id, n, up);
    case DoResubmit(id) => ResubmitKeeps(w, id);
    case DoCancel(id) => CancelKeeps(w, id);
    case DoPromote(id) => PromoteKeeps(w, id);
    case DoPromoteSend(id) => PromoteSendKeeps(w, id);
    case DoPromoteMark(id) => PromoteMarkKeeps(w, id);
    case DoDeliver(m, pick, e, push) => DeliverKeeps(w, m, pick, e, push);
    case DoReport(r, d) => ReportKeeps(w, r, d);
    case DoWatchdog(id, d) => WatchdogKeeps(w, id, d);
    case DoPushCancel(id) => PushCancelKeeps(w, id);
    case DoRecover(id) => RecoverKeeps(w, id);
    case DoRedeliver(m) => SameCore(w, Apply(w, s));
    case DoRegister(v, capacity) => SameCore(w, Apply(w, s));
    case DoHeartbeat(v, active, capacity) => SameCore(w, Apply(w, s));
    case DoDeregister(v) => SameCore(w, Apply(w, s));
    case DoDropPending(v) => SameCore(w, Apply(w, s));
    case DoTick(d) => SameCore(w, Apply(w, s));
    case DoWrite(x) =>
  }

  lemma {:induction false} RunKeeps(w: World, steps: seq<Step>)
    requires Inv(w) && Legal(Guarded, w, steps)
    ensures Inv(Run(w, steps))
    decreases steps
  {
    if steps != [] {
      StepKeeps(w, steps[0]);
      RunKeeps(Apply(w, steps[0]), steps[1..]);
    }
  }

  // ----- main results

  /** In every guarded run a job has at most one open execution, and it is the one the job names,
      on the job's attempt and worker; and a job out on a worker has one. */
  lemma OneOpenExecution(steps: seq<Step>)
    requires Legal(Guarded, START, steps)
    ensures var c := Run(START, steps).core;
      && (forall e, f :: Open(c, e) && Open(c, f) && c.execs[e].job == c.execs[f].job ==> e == f)
      && (forall e :: Open(c, e) ==> Attached(c, e))
      && (forall id :: id in c.jobs && Active(c.jobs[id].state) ==> OutOnWorker(c, id))
  {
    RunKeeps(START, steps);
    var w := Run(START, steps);
    forall e | Open(w.core, e) ensures Attached(w.core, e) { assert ExecOk(w.core, w.now, e); }
    forall id | id in w.core.jobs && Active(w.core.jobs[id].state) ensures OutOnWorker(w.core, id) {
      assert JobOk(w.core, w.now, id);
    }
  }

  /** In every guarded run no execution carries an attempt above the job's budget, and none starts
      before the job's scheduled time, even with duplicated messages and failed pushes. */
  lemma RetryBudget(steps: seq<Step>)
    requires Legal(Guarded, START, steps)
    ensures var w := Run(START, steps);
      forall e :: e in w.core.execs ==>
        && w.core.execs[e].job in w.core.jobs
        && var j := w.core.jobs[w.core.execs[e].job];
        && 1 <= w.core.execs[e].attempt <= (if j.maxAttempts > 1 then j.maxAttempts else 1)
        && j.scheduledAt.Some? && j.scheduledAt.value <= w.now
  {
    RunKeeps(START, steps);
    var w := Run(START, steps);
    forall e | e in w.core.execs ensures ExecOk(w.core, w.now, e) { }
  }

  // ----- the guards are exact

  /** A report by a worker that was handed the work keeps the invariant exactly when it is harmless:
      `HandleResult` has no such test of its own. */
  lemma HarmlessIsExact(w: World, r: Report, d: Draw)
    requires Inv(w) && FreshDraw(w, d)
    requires Push(r.job, r.exec, r.worker, r.attempt) in w.pushes
    ensures Inv(Apply(w, DoReport(r, d))) <==> Harmless(w.core, r)
  {
    var w' := Apply(w, DoReport(r, d));
    if Harmless(w.core, r) {
      ReportKeeps(w, r, d);
    } else {
      assert PushOk(w.core, Push(r.job, r.exec, r.worker, r.attempt));
      assert JobOk(w.core, w.now, r.job);
      var e := w.core.jobs[r.job].execId;
      assert e in w'.core.execs && Open(w'.core, e);
      assert !ExecOk(w'.core, w'.now, e);
    }
  }

  /** Creating again with an existing key keeps the invariant exactly when it leaves the job alone, or
      finds no execution of it open and attempts left. */
  lemma ResubmitIsExact(w: World, id: Id)
    requires Inv(w) && id in w.core.jobs
    ensures Inv(Apply(w, DoResubmit(id))) <==> Resubmittable(w, id)
  {
    if Resubmittable(w, id) {
      ResubmitKeeps(w, id);
    } else {
      ResubmitBreaks(w, id);
    }
  }

  lemma ResubmitBreaks(w: World, id: Id)
    requires Inv(w) && id in w.core.jobs && !Resubmittable(w, id)
    ensures !Inv(Apply(w, DoResubmit(id)))
  {
    var w' := Apply(w, DoResubmit(id));
    if w.core.jobs[id].attempt >= Budget(w.core.jobs[id]) {
      assert !JobOk(w'.core, w'.now, id);
    } else {
      var e :| Open(w.core, e) && w.core.execs[e].job == id;
      assert e in w'.core.execs && Open(w'.core, e);
      assert !ExecOk(w'.core, w'.now, e);
    }
  }

  /** In a guarded run, creating again with the key of a job that is terminal or out on a worker queues
      it, with a message, if and only if its scheduled time has come; and for all but a CANCELLED one
      it always has. */
  lemma ResubmitRevives(steps: seq<Step>, id: Id)
    requires Legal(Guarded, START, steps) && id in Run(START, steps).core.jobs
    requires var st := Run(START, steps).core.jobs[id].state; Terminal(st) || Active(st)
    ensures var w := Run(START, steps);
      var j, c' := w.core.jobs[id], Resubmit(w.core, w.now, id);
      && (c'.jobs[id].state.Queued? && c'.queue == w.core.queue + multiset{Msg(id, j.attempt)} <==> DueAgain(j, w.now))
      && (c' == w.core <==> !DueAgain(j, w.now))
      && (!j.state.Cancelled? ==> DueAgain(j, w.now))
  {
    RunKeeps(START, steps);
    var w := Run(START, steps);
    assert JobOk(w.core, w.now, id);
    assert Resubmit(w.core, w.now, id).jobs[id].state.Queued? ==> Resubmit(w.core, w.now, id) != w.core;
  }
}
