/** Strict runs: the queue agrees with the job states, attempts are numbered exactly, nothing runs
    early, and every job comes to rest after a bounded number of changes. */
module StrictRuns {
  import opened Domain
  import opened Lifecycle
  import opened Views
  import Guard = OneExecution

  // ----- the regimes are nested

  lemma StricterStep(w: World, s: Step)
    requires Enabled(Strict, w, s)
    ensures Enabled(Guarded, w, s) && Enabled(Wild, w, s)
  {
  }

  // ----- queue and state agree

  /** A queued message is the only copy, and belongs to a QUEUED job with the same attempt, or to a
      job cancelled while it was queued. */
  predicate MsgFits(c: Core, m: Msg) {
    && c.queue[m] == 1
    && m.job in c.jobs && m.attempt == c.jobs[m.job].attempt
    && (c.jobs[m.job].state.Queued? || c.jobs[m.job].state.Cancelled?)
  }

  predicate JobFits(c: Core, now: Time, id: Id) {
    id in c.jobs &&
    var j := c.jobs[id];
    && !j.state.Assigned? && 0 <= j.attempt
    && (j.state.Queued? ==>
          && Msg(id, j.attempt) in c.queue
          && (j.nextRetryAt.Some? ==> j.nextRetryAt.value <= now))
    && (j.state.Scheduled? ==> j.nextRetryAt.None?)
  }

  // ----- attempts are numbered exactly

  predicate IsAttempt(c: Core, e: Id, id: Id, a: int) {
    e in c.execs && c.execs[e].job == id && c.execs[e].attempt == a
  }

  ghost predicate HasAttempt(c: Core, id: Id, a: int) {
    exists e :: IsAttempt(c, e, id, a)
  }

  ghost predicate Numbered(c: Core, id: Id) {
    id in c.jobs && forall a {:trigger HasAttempt(c, id, a)} :: 1 <= a <= c.jobs[id].attempt ==> HasAttempt(c, id, a)
  }

  predicate ExecFits(c: Core, e: Id) {
    && e in c.execs && c.execs[e].job in c.jobs
    && 1 <= c.execs[e].attempt <= c.jobs[c.execs[e].job].attempt
  }

  predicate SameAttempt(x: Execution, y: Execution) {
    x.job == y.job && x.attempt == y.attempt
  }

  ghost predicate NoRepeats(c: Core) {
    forall e, f {:trigger c.execs[e], c.execs[f]} ::
      e in c.execs && f in c.execs && SameAttempt(c.execs[e], c.execs[f]) ==> e == f
  }

  ghost predicate Inv(w: World) {
    && (forall m {:trigger MsgFits(w.core, m)} :: m in w.core.queue ==> MsgFits(w.core, m))
    && (forall id {:trigger JobFits(w.core, w.now, id)} :: id in w.core.jobs ==> JobFits(w.core, w.now, id))
    && (forall id {:trigger Numbered(w.core, id)} :: id in w.core.jobs ==> Numbered(w.core, id))
    && (forall e {:trigger ExecFits(w.core, e)} :: e in w.core.execs ==> ExecFits(w.core, e))
    && NoRepeats(w.core)
  }

  /** In a strict world only a delivery to a QUEUED job hands out work, with the next attempt. */
  lemma HandsNext(w: World, s: Step)
    requires Inv(w) && Enabled(Strict, w, s) && Hands(w, s)
    ensures w.core.jobs[s.msg.job].state.Queued? && s.msg.attempt == w.core.jobs[s.msg.job].attempt
  {
    assert MsgFits(w.core, s.msg);
  }

  /** A waiting job that is not QUEUED, or a new one, has no message out. */
  lemma NoMessage(w: World, id: Id)
    requires Inv(w)
    requires id in w.core.jobs ==> !w.core.jobs[id].state.Queued? && !w.core.jobs[id].state.Cancelled?
    ensures forall m :: m in w.core.queue ==> m.job != id
  {
    forall m | m in w.core.queue ensures m.job != id { assert MsgFits(w.core, m); }
  }

  /** A strict report finds its job out on a worker, or cancelled while it was. */
  lemma ReportFinds(w: World, s: Step)
    requires Guard.Inv(w) && Enabled(Strict, w, s) && s.DoReport?
    ensures s.report.job in w.core.jobs
    ensures Active(w.core.jobs[s.report.job].state) || w.core.jobs[s.report.job].state.Cancelled?
    ensures s.report.attempt == w.core.jobs[s.report.job].attempt
  {
    var r := s.report;
    assert Guard.PushOk(w.core, Push(r.job, r.exec, r.worker, r.attempt));
    assert Guard.ExecOk(w.core, w.now, r.exec);
  }

  /** Jobs that are not out on a worker are only moved by promotion, delivery and cancel. */
  lemma AtRest(w: World, s: Step, id: Id)
    requires Guard.Inv(w) && Enabled(Strict, w, s) && id in w.core.jobs
    requires !Active(w.core.jobs[id].state)
    ensures !(s.DoPromote? && s.id == id) && !(s.DoDeliver? && s.msg.job == id) && !(s.DoCancel? && s.id == id)
      ==> After(w, s, id) == w.core.jobs[id]
  {
    if s.DoReport? { ReportFinds(w, s); }
  }

  lemma MsgStays(w: World, s: Step, m: Msg)
    requires Inv(w) && Guard.Inv(w) && Enabled(Strict, w, s) && m in w.core.queue && m in QueueAfter(w, s)
    ensures MsgFits(Apply(w, s).core, m)
  {
    QueueView(w, s);
    assert MsgFits(w.core, m);
    View(w, s, m.job);
    AtRest(w, s, m.job);
    if s.DoCreate? || s.DoPromote? { NoMessage(w, s.id); }
    if s.DoDeliver? { assert MsgFits(w.core, s.msg); }
  }

  lemma MsgNew(w: World, s: Step, m: Msg)
    requires Inv(w) && Enabled(Strict, w, s) && m !in w.core.queue && m in QueueAfter(w, s)
    ensures MsgFits(Apply(w, s).core, m)
  {
    QueueView(w, s);
    if s.DoPromote? { View(w, s, s.id); }
  }

  lemma MsgKeeps(w: World, s: Step, m: Msg)
    requires Inv(w) && Guard.Inv(w) && Enabled(Strict, w, s) && m in QueueAfter(w, s)
    ensures MsgFits(Apply(w, s).core, m)
  {
    if m in w.core.queue { MsgStays(w, s, m); } else { MsgNew(w, s, m); }
  }

  /** A job out on a worker leaves only for RETRYING, CANCEL_REQUESTED or a terminal state. */
  lemma Leaves(w: World, s: Step, id: Id)
    requires Enabled(Strict, w, s) && id in w.core.jobs && Active(w.core.jobs[id].state)
    ensures
      var j' := After(w, s, id);
      && (j' == w.core.jobs[id] || j'.state.Retrying? || j'.state.CancelRequested? || Terminal(j'.state))
      && j'.attempt == w.core.jobs[id].attempt
  {
  }

  lemma ActiveJobKeeps(w: World, s: Step, id: Id)
    requires Inv(w) && Enabled(Strict, w, s) && id in w.core.jobs && Active(w.core.jobs[id].state)
    ensures JobFits(Apply(w, s).core, Apply(w, s).now, id)
  {
    View(w, s, id);
    assert JobFits(w.core, w.now, id);
    Leaves(w, s, id);
  }

  lemma DeliveredJobKeeps(w: World, s: Step)
    requires Inv(w) && Enabled(Strict, w, s) && s.DoDeliver? && s.msg.job in w.core.jobs
    requires !Active(w.core.jobs[s.msg.job].state)
    ensures JobFits(Apply(w, s).core, Apply(w, s).now, s.msg.job)
  {
    View(w, s, s.msg.job);
    QueueView(w, s);
    assert JobFits(w.core, w.now, s.msg.job);
    assert MsgFits(w.core, s.msg);
  }

  lemma RestingJobKeeps(w: World, s: Step, id: Id)
    requires Inv(w) && Guard.Inv(w) && Enabled(Strict, w, s) && id in w.core.jobs && !Active(w.core.jobs[id].state)
    requires !(s.DoDeliver? && s.msg.job == id)
    ensures JobFits(Apply(w, s).core, Apply(w, s).now, id)
  {
    View(w, s, id);
    assert JobFits(w.core, w.now, id);
    QueueView(w, s);
    AtRest(w, s, id);
  }

  lemma JobKeeps(w: World, s: Step, id: Id)
    requires Inv(w) && Guard.Inv(w) && Enabled(Strict, w, s) && id in w.core.jobs
    ensures JobFits(Apply(w, s).core, Apply(w, s).now, id)
  {
    if Active(w.core.jobs[id].state) { ActiveJobKeeps(w, s, id); }
    else if s.DoDeliver? && s.msg.job == id { DeliveredJobKeeps(w, s); }
    else { RestingJobKeeps(w, s, id); }
  }

  lemma NewJobKeeps(w: World, s: Step, id: Id)
    requires Inv(w) && Enabled(Strict, w, s) && id !in w.core.jobs && id in Apply(w, s).core.jobs
    ensures JobFits(Apply(w, s).core, Apply(w, s).now, id)
  {
    QueueView(w, s);
    NewView(w, s, id);
  }

  /** The attempt of a job goes up by one when work on it is handed out, and is otherwise kept. */
  lemma AttemptStep(w: World, s: Step, id: Id)
    requires Inv(w) && Enabled(Strict, w, s) && id in w.core.jobs
    ensures id in Apply(w, s).core.jobs
    ensures Apply(w, s).core.jobs[id].attempt
         == w.core.jobs[id].attempt + if Hands(w, s) && s.msg.job == id then 1 else 0
  {
    View(w, s, id);
    if Hands(w, s) { HandsNext(w, s); }
  }

  lemma AttemptStays(w: World, s: Step, id: Id, a: int)
    requires Inv(w) && Enabled(Strict, w, s) && HasAttempt(w.core, id, a)
    ensures HasAttempt(Apply(w, s).core, id, a)
  {
    var e :| IsAttempt(w.core, e, id, a);
    ExecView(w, s, e);
    assert IsAttempt(Apply(w, s).core, e, id, a);
  }

  lemma NumberedKeeps(w: World, s: Step, id: Id)
    requires Inv(w) && Enabled(Strict, w, s) && id in Apply(w, s).core.jobs
    ensures Numbered(Apply(w, s).core, id)
  {
    var c' := Apply(w, s).core;
    if id in w.core.jobs {
      AttemptStep(w, s, id);
      assert Numbered(w.core, id);
      forall a | 1 <= a <= c'.jobs[id].attempt ensures HasAttempt(c', id, a) {
        if a <= w.core.jobs[id].attempt {
          assert HasAttempt(w.core, id, a);
          AttemptStays(w, s, id, a);
        } else {
          HandsNext(w, s);
          NewExecView(w, s, s.exec);
          assert IsAttempt(c', s.exec, id, a);
        }
      }
    } else {
      NewView(w, s, id);
    }
  }

  lemma ExecKeeps(w: World, s: Step, e: Id)
    requires Inv(w) && Enabled(Strict, w, s) && e in Apply(w, s).core.execs
    ensures ExecFits(Apply(w, s).core, e)
    ensures e !in w.core.execs ==>
      var x := Apply(w, s).core.execs[e]; x.job in w.core.jobs && x.attempt == w.core.jobs[x.job].attempt + 1
  {
    if e in w.core.execs {
      assert ExecFits(w.core, e);
      ExecView(w, s, e);
      AttemptStep(w, s, w.core.execs[e].job);
    } else {
      NewExecView(w, s, e);
      HandsNext(w, s);
      AttemptStep(w, s, s.msg.job);
      assert JobFits(w.core, w.now, s.msg.job);
    }
  }

  lemma NoRepeatsKeeps(w: World, s: Step)
    requires Inv(w) && Enabled(Strict, w, s)
    ensures NoRepeats(Apply(w, s).core)
  {
    var c' := Apply(w, s).core;
    forall e, f | e in c'.execs && f in c'.execs && SameAttempt(c'.execs[e], c'.execs[f])
      ensures e == f
    {
      ExecKeeps(w, s, e);
      ExecKeeps(w, s, f);
      if e in w.core.execs { assert ExecFits(w.core, e); ExecView(w, s, e); } else { NewExecView(w, s, e); }
      if f in w.core.execs { assert ExecFits(w.core, f); ExecView(w, s, f); } else { NewExecView(w, s, f); }
    }
  }

  lemma StepKeeps(w: World, s: Step)
    requires Inv(w) && Guard.Inv(w) && Enabled(Strict, w, s)
    ensures Inv(Apply(w, s))
  {
    var w' := Apply(w, s);
    QueueView(w, s);
    forall m | m in w'.core.queue ensures MsgFits(w'.core, m) { MsgKeeps(w, s, m); }
    forall id | id in w'.core.jobs ensures JobFits(w'.core, w'.now, id) && Numbered(w'.core, id) {
      if id in w.core.jobs { JobKeeps(w, s, id); } else { NewJobKeeps(w, s, id); }
      NumberedKeeps(w, s, id);
    }
    forall e | e in w'.core.execs ensures ExecFits(w'.core, e) { ExecKeeps(w, s, e); }
    NoRepeatsKeeps(w, s);
  }

  lemma {:induction false} RunKeeps(w: World, steps: seq<Step>)
    requires Inv(w) && Guard.Inv(w) && Legal(Strict, w, steps)
    ensures Inv(Run(w, steps)) && Guard.Inv(Run(w, steps))
    decreases steps
  {
    if steps != [] {
      StricterStep(w, steps[0]);
      Guard.StepKeeps(w, steps[0]);
      StepKeeps(w, steps[0]);
      RunKeeps(Apply(w, steps[0]), steps[1..]);
    }
  }

  // ----- main results

  /** After any strict run a QUEUED job has exactly one message out, carrying its attempt; a
      cancelled one may have its old message left; every other job has none. */
  lemma QueueAgrees(steps: seq<Step>, id: Id)
    requires Legal(Strict, START, steps) && id in Run(START, steps).core.jobs
    ensures
      var c := Run(START, steps).core;
      var j := c.jobs[id];
      && (j.state.Queued? ==> c.queue[Msg(id, j.attempt)] == 1)
      && (forall m :: m in c.queue && m.job == id ==>
            m == Msg(id, j.attempt) && c.queue[m] == 1 && (j.state.Queued? || j.state.Cancelled?))
  {
    RunKeeps(START, steps);
    var w := Run(START, steps);
    assert JobFits(w.core, w.now, id);
    forall m | m in w.core.queue ensures MsgFits(w.core, m) { }
    if w.core.jobs[id].state.Queued? { assert MsgFits(w.core, Msg(id, w.core.jobs[id].attempt)); }
  }

  /** No job is handed to a worker before its scheduled time or its retry time. */
  lemma NothingEarly(steps: seq<Step>, s: Step)
    requires Legal(Strict, START, steps) && Enabled(Strict, Run(START, steps), s) && Hands(Run(START, steps), s)
    ensures
      var w := Run(START, steps);
      var j := w.core.jobs[s.msg.job];
      && j.scheduledAt.Some? && j.scheduledAt.value <= w.now
      && (j.nextRetryAt.Some? ==> j.nextRetryAt.value <= w.now)
  {
    RunKeeps(START, steps);
    var w := Run(START, steps);
    HandsNext(w, s);
    assert JobFits(w.core, w.now, s.msg.job);
    assert Guard.JobOk(w.core, w.now, s.msg.job);
  }

  /** No QUEUED job is stranded: its message is there to be delivered, and with a free worker the
      delivery starts it; without one nothing changes. */
  lemma NoneStranded(steps: seq<Step>, id: Id, pick: Option<Id>, e: Id)
    requires Legal(Strict, START, steps)
    requires id in Run(START, steps).core.jobs && Run(START, steps).core.jobs[id].state.Queued?
    requires IsPick(Run(START, steps).core.workers, pick) && e != NO_ID && e !in Run(START, steps).core.execs
    ensures
      var w := Run(START, steps);
      var s := DoDeliver(Msg(id, w.core.jobs[id].attempt), pick, e, Accepted);
      && Enabled(Strict, w, s)
      && (pick.None? ==> Apply(w, s) == w)
      && (pick.Some? ==>
            && id in Apply(w, s).core.jobs
            && Apply(w, s).core.jobs[id].state.Running? && Apply(w, s).core.jobs[id].startedAt == Some(w.now)
            && Apply(w, s).core.jobs[id].attempt == w.core.jobs[id].attempt + 1)
  {
    RunKeeps(START, steps);
    var w := Run(START, steps);
    assert JobFits(w.core, w.now, id);
    View(w, DoDeliver(Msg(id, w.core.jobs[id].attempt), pick, e, Accepted), id);
  }

  function ExecsOf(c: Core, id: Id): set<Id> {
    set e | e in c.execs && c.execs[e].job == id
  }

  /** A set with exactly one member for each number from 1 to n has n members. */
  lemma {:induction false} CountByNumber(c: Core, s: set<Id>, id: Id, n: nat)
    requires forall e :: e in s ==> e in c.execs && c.execs[e].job == id && 1 <= c.execs[e].attempt <= n
    requires forall a {:trigger HasAttempt(c, id, a)} :: 1 <= a <= n ==> HasAttempt(c, id, a)
    requires forall e, a {:trigger IsAttempt(c, e, id, a)} :: IsAttempt(c, e, id, a) && 1 <= a <= n ==> e in s
    requires NoRepeats(c)
    ensures |s| == n
    decreases n
  {
    if n > 0 {
      assert HasAttempt(c, id, n);
      var e :| IsAttempt(c, e, id, n);
      CountByNumber(c, s - {e}, id, n - 1);
    } else {
      assert s == {};
    }
  }

  /** After any strict run the executions of a job carry exactly the attempts 1 to job.attempt, each
      once; so the job was executed job.attempt times, within its budget. */
  lemma AttemptsAreExact(steps: seq<Step>, id: Id)
    requires Legal(Strict, START, steps) && id in Run(START, steps).core.jobs
    ensures
      var c := Run(START, steps).core;
      && (forall a :: 1 <= a <= c.jobs[id].attempt <==> HasAttempt(c, id, a))
      && (forall e, f, a :: IsAttempt(c, e, id, a) && IsAttempt(c, f, id, a) ==> e == f)
      && |ExecsOf(c, id)| == c.jobs[id].attempt <= Budget(c.jobs[id])
  {
    RunKeeps(START, steps);
    var w := Run(START, steps);
    var c := w.core;
    assert Numbered(c, id) && JobFits(c, w.now, id) && Guard.JobOk(c, w.now, id);
    forall a | HasAttempt(c, id, a) ensures 1 <= a <= c.jobs[id].attempt {
      var e :| IsAttempt(c, e, id, a);
      assert ExecFits(c, e);
    }
    var s := ExecsOf(c, id);
    forall e | e in s ensures 1 <= c.execs[e].attempt <= c.jobs[id].attempt { assert ExecFits(c, e); }
    CountByNumber(c, s, id, c.jobs[id].attempt);
  }
}
