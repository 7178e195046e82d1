/** What the scheduler's worker map says: over every run a worker is known since it last registered and as
    it last reported; and its load is the number of jobs out on it, as long as what it reports is true. */
module Loads {
  import opened Domain
  import opened Lifecycle
  import opened Views
  import opened LastWrites
  import Guard = OneExecution
  import StrictRuns

  // ----- registrations and heartbeats

  /** The step is a registration or a heartbeat of the worker. */
  predicate Tells(s: Step, v: Id) {
    (s.DoRegister? || s.DoHeartbeat?) && s.worker == v
  }

  /** Step `i` is the last to say something of the worker, which has not left since. */
  ghost predicate LastHeard(steps: seq<Step>, v: Id, i: nat) {
    && i < |steps| && Tells(steps[i], v)
    && forall k :: i < k < |steps| ==> !Tells(steps[k], v) && steps[k] != DoDeregister(v)
  }

  lemma KnownAfter(w: World, s: Step, v: Id)
    requires Enabled(Wild, w, s)
    ensures v in WorkersAfter(w, s) <==>
      (s.DoRegister? && s.worker == v) || (v in w.core.workers && s != DoDeregister(v))
    ensures v in WorkersAfter(w, s) && Tells(s, v) ==>
      WorkersAfter(w, s)[v] == Worker(Healthy, s.capacity, if s.DoHeartbeat? then s.active else 0, w.now)
    ensures v in WorkersAfter(w, s) && !Tells(s, v) ==>
      v in w.core.workers && WorkersAfter(w, s)[v] == w.core.workers[v].(active := WorkersAfter(w, s)[v].active)
  {
  }

  /** Over every wild run a worker in the scheduler's map is healthy, with the capacity and the time of its
      last registration or heartbeat, and has not been removed since. */
  lemma {:induction false} AsLastHeard(steps: seq<Step>, v: Id) returns (i: nat)
    requires Legal(Wild, START, steps) && v in Run(START, steps).core.workers
    ensures var x := Run(START, steps).core.workers[v];
      && LastHeard(steps, v, i)
      && x.status == Healthy && x.capacity == steps[i].capacity && x.lastHeartbeat == Run(START, steps[..i]).now
    decreases steps
  {
    var n := |steps| - 1;
    LastStep(Wild, START, steps);
    var w := Run(START, steps[..n]);
    WorkersView(w, steps[n]);
    KnownAfter(w, steps[n], v);
    if Tells(steps[n], v) {
      i := n;
    } else {
      i := AsLastHeard(steps[..n], v);
      assert steps[..n][..i] == steps[..i];
    }
  }

  // ----- loads

  /** The jobs out on a worker. */
  function OutOn(c: Core, v: Id): set<Id> {
    set id | id in c.jobs && IsOut(c.jobs[id], v)
  }

  predicate IsOut(j: Job, v: Id) {
    (j.state == Assigned || j.state == Running || j.state == CancelRequested) && j.workerId == v
  }

  /** Workers have names, register without work, report their true load, and are known to be lost before
      their jobs are recovered; and no job is cancelled again while its cancellation is requested. */
  predicate Honest(w: World, s: Step) {
    match s
    case DoRegister(v, capacity) => v != NO_ID && OutOn(w.core, v) == {}
    case DoHeartbeat(v, active, capacity) => v in w.core.workers ==> active == |OutOn(w.core, v)|
    case DoRecover(id) => id in w.core.jobs ==> w.core.jobs[id].workerId !in w.core.workers
    case DoCancel(id) => id in w.core.jobs ==> w.core.jobs[id].state != CancelRequested
    case _ => true
  }

  ghost predicate AllHonest(w: World, steps: seq<Step>)
    decreases steps
  {
    steps != [] ==> Honest(w, steps[0]) && AllHonest(Apply(w, steps[0]), steps[1..])
  }

  predicate OpenIsOut(c: Core, e: Id) {
    Open(c, e) ==> c.execs[e].job in c.jobs && Active(c.jobs[c.execs[e].job].state)
  }

  predicate LoadOk(c: Core, v: Id) {
    v in c.workers ==> c.workers[v].active == |OutOn(c, v)|
  }

  ghost predicate Inv(c: Core) {
    && NO_ID !in c.workers
    && (forall id {:trigger c.jobs[id]} :: id in c.jobs && Active(c.jobs[id].state) ==> c.jobs[id].workerId != NO_ID)
    && (forall e {:trigger OpenIsOut(c, e)} :: OpenIsOut(c, e))
    && (forall v {:trigger LoadOk(c, v)} :: LoadOk(c, v))
  }

  /** The delivery puts the job out on the worker. */
  predicate Enters(w: World, s: Step, v: Id, id: Id) {
    Hands(w, s) && s.msg.job == id && s.pick.value == v
  }

  /** The step concerns a job that is out, and ends that. */
  predicate Leaves(w: World, s: Step, id: Id) {
    || Reported(s, id) || (s.DoWatchdog? && s.id == id) || s == DoRecover(id)
    || (s == DoCancel(id) && id in w.core.jobs && w.core.jobs[id].state == CancelRequested)
  }

  lemma OutAfter(w: World, s: Step, v: Id, id: Id)
    requires Enabled(Strict, w, s) && id in w.core.jobs && v != NO_ID
    requires Active(w.core.jobs[id].state) ==> w.core.jobs[id].workerId != NO_ID
    ensures IsOut(After(w, s, id), v) <==> Enters(w, s, v, id) || (IsOut(w.core.jobs[id], v) && !Leaves(w, s, id))
    ensures Enters(w, s, v, id) ==> !IsOut(w.core.jobs[id], v)
    ensures Active(After(w, s, id).state) && After(w, s, id).workerId == NO_ID ==> s.DoDeliver? && s.pick == Some(NO_ID)
  {
    match s
    case DoReport(r, d) => if r.job == id { Brought(w.core.jobs[id], w.now, r, d, v); }
    case DoWatchdog(k, d) => if k == id { Brought(w.core.jobs[id], w.now, TimeoutReport(id, w.core.jobs[id]), d, v); }
    case _ =>
  }

  lemma Brought(j: Job, now: Time, r: Report, d: Draw, v: Id)
    ensures !Active(AfterResult(j, now, r, d).state)
  {
  }

  /** The job a step may put out or bring back. */
  function Moved(s: Step): Id {
    match s
    case DoDeliver(m, _, _, _) => m.job
    case DoReport(r, _) => r.job
    case DoWatchdog(id, _) => id
    case DoRecover(id) => id
    case DoCancel(id) => id
    case _ => NO_ID
  }

  function OneOut(w: World, s: Step, v: Id): int {
    if Enters(w, s, v, Moved(s)) then 1
    else if Moved(s) in OutOn(w.core, v) && Leaves(w, s, Moved(s)) then -1 else 0
  }

  lemma SetChange(a: set<Id>, b: set<Id>, id: Id, n: int)
    requires forall k :: k != id ==> (k in b <==> k in a)
    requires n == (if id in b && id !in a then 1 else if id in a && id !in b then -1 else 0)
    ensures |b| == |a| + n
  {
    if n == 1 { assert b == a + {id}; }
    else if n == -1 { assert b == a - {id}; }
    else { assert b == a; }
  }

  lemma OutSetAfter(w: World, s: Step, v: Id, id: Id)
    requires Enabled(Strict, w, s) && Inv(w.core) && v != NO_ID
    ensures id in OutOn(Apply(w, s).core, v) <==>
      Enters(w, s, v, id) || (id in OutOn(w.core, v) && !Leaves(w, s, id))
    ensures Enters(w, s, v, id) ==> id !in OutOn(w.core, v)
  {
    StrictRuns.StricterStep(w, s);
    if id in w.core.jobs {
      View(w, s, id);
      OutAfter(w, s, v, id);
    } else if id in Apply(w, s).core.jobs {
      NewView(w, s, id);
    }
  }

  /** Only the moved job may enter or leave. */
  ghost predicate OnlyMoved(w: World, s: Step, v: Id, c': Core) {
    && (forall k {:trigger k in OutOn(c', v)} :: k in OutOn(c', v) <==>
          Enters(w, s, v, k) || (k in OutOn(w.core, v) && !Leaves(w, s, k)))
    && (Enters(w, s, v, Moved(s)) ==> Moved(s) !in OutOn(w.core, v))
  }

  lemma OnlyMovedAfter(w: World, s: Step, v: Id)
    requires Enabled(Strict, w, s) && Inv(w.core) && v != NO_ID
    ensures OnlyMoved(w, s, v, Apply(w, s).core)
  {
    forall k ensures k in OutOn(Apply(w, s).core, v) <==>
      Enters(w, s, v, k) || (k in OutOn(w.core, v) && !Leaves(w, s, k)) { OutSetAfter(w, s, v, k); }
    OutSetAfter(w, s, v, Moved(s));
  }

  lemma OutCount(w: World, s: Step, v: Id, c': Core)
    requires OnlyMoved(w, s, v, c')
    ensures |OutOn(c', v)| == |OutOn(w.core, v)| + OneOut(w, s, v)
  {
    SetChange(OutOn(w.core, v), OutOn(c', v), Moved(s), OneOut(w, s, v));
  }

  /** How many jobs more are out on a worker after the step. */
  lemma OutStep(w: World, s: Step, v: Id)
    requires Enabled(Strict, w, s) && Inv(w.core) && v != NO_ID
    ensures |OutOn(Apply(w, s).core, v)| == |OutOn(w.core, v)| + OneOut(w, s, v)
  {
    OnlyMovedAfter(w, s, v);
    OutCount(w, s, v, Apply(w, s).core);
  }

  /** A strict report is on a job out on the reporting worker. */
  lemma ReportIsOut(w: World, s: Step)
    requires Guard.Inv(w) && Inv(w.core) && Enabled(Strict, w, s) && s.DoReport?
    ensures s.report.job in OutOn(w.core, s.report.worker)
  {
    var r := s.report;
    assert Guard.PushOk(w.core, Push(r.job, r.exec, r.worker, r.attempt));
    assert Guard.ExecOk(w.core, w.now, r.exec);
    assert OpenIsOut(w.core, r.exec);
  }

  lemma LoadAfter(w: World, s: Step, v: Id)
    requires Guard.Inv(w) && Inv(w.core) && Enabled(Strict, w, s) && Honest(w, s)
    requires v in WorkersAfter(w, s) && v != NO_ID
    ensures WorkersAfter(w, s)[v].active == |OutOn(w.core, v)| + OneOut(w, s, v)
  {
    assert LoadOk(w.core, v);
    if s.DoReport? { ReportIsOut(w, s); }
  }

  lemma NamesKept(w: World, s: Step)
    requires Inv(w.core) && Enabled(Strict, w, s) && Honest(w, s)
    ensures NO_ID !in Apply(w, s).core.workers
    ensures var c := Apply(w, s).core;
      forall id {:trigger c.jobs[id]} :: id in c.jobs && Active(c.jobs[id].state) ==> c.jobs[id].workerId != NO_ID
  {
    StrictRuns.StricterStep(w, s);
    WorkersView(w, s);
    KnownAfter(w, s, NO_ID);
    var c := Apply(w, s).core;
    forall id | id in c.jobs && Active(c.jobs[id].state) ensures c.jobs[id].workerId != NO_ID {
      if id in w.core.jobs {
        View(w, s, id);
        OutAfter(w, s, 1, id);
      } else {
        NewView(w, s, id);
      }
    }
  }

  /** A job that ends as CANCELLED has its execution closed, unless it was cancelled a second time. */
  lemma CancelledIsClosed(w: World, s: Step, id: Id)
    requires Guard.Inv(w) && Enabled(Strict, w, s) && Honest(w, s)
    requires id in w.core.jobs && Active(w.core.jobs[id].state) && w.core.jobs[id].workerId != NO_ID
    requires After(w, s, id).state.Cancelled?
    ensures !Open(Apply(w, s).core, w.core.jobs[id].execId)
  {
    assert Guard.JobOk(w.core, w.now, id);
    if s.DoReport? {
      var r := s.report;
      assert Guard.PushOk(w.core, Push(r.job, r.exec, r.worker, r.attempt));
      assert Guard.ExecOk(w.core, w.now, r.exec);
      ReportCloses(w, r, s.draw, r.exec);
    } else {
      assert s == DoRecover(id);
      assert w.core.jobs[id].execId != NO_ID by { assert Guard.ExecOk(w.core, w.now, w.core.jobs[id].execId); }
    }
  }

  /** An execution that is open was so before, or is new. */
  lemma OpenBefore(w: World, s: Step, e: Id)
    requires Enabled(Wild, w, s) && Open(Apply(w, s).core, e)
    ensures Open(w.core, e) || (Hands(w, s) && s.exec == e)
  {
    if e in w.core.execs {
      match s
      case DoReport(r, d) => OnlyCloses(w.core, w.now, r, d, e);
      case DoWatchdog(k, d) => OnlyCloses(w.core, w.now, TimeoutReport(k, w.core.jobs[k]), d, e);
      case DoDeliver(m, pick, x, push) => DeliverParts(w, s);
      case _ =>
    } else {
      NewExecView(w, s, e);
    }
  }

  lemma OnlyCloses(c: Core, now: Time, r: Report, d: Draw, e: Id)
    requires Open(HandleResult(c, now, r, d), e)
    ensures Open(c, e)
  {
  }

  lemma OpenKept(w: World, s: Step, e: Id)
    requires Guard.Inv(w) && Guard.Inv(Apply(w, s)) && Inv(w.core) && Enabled(Strict, w, s) && Honest(w, s)
    ensures OpenIsOut(Apply(w, s).core, e)
  {
    var w' := Apply(w, s);
    if Open(w'.core, e) {
      StrictRuns.StricterStep(w, s);
      assert Guard.ExecOk(w'.core, w'.now, e);
      OpenBefore(w, s, e);
      if Open(w.core, e) {
        assert OpenIsOut(w.core, e) && Guard.ExecOk(w.core, w.now, e);
        var id := w.core.execs[e].job;
        ExecView(w, s, e);
        View(w, s, id);
        if After(w, s, id).state.Cancelled? { CancelledIsClosed(w, s, id); }
      } else {
        NewExecView(w, s, e);
        View(w, s, s.msg.job);
      }
    }
  }

  lemma StepKeeps(w: World, s: Step)
    requires Guard.Inv(w) && Inv(w.core) && Enabled(Strict, w, s) && Honest(w, s)
    ensures Inv(Apply(w, s).core)
  {
    StrictRuns.StricterStep(w, s);
    Guard.StepKeeps(w, s);
    NamesKept(w, s);
    forall e ensures OpenIsOut(Apply(w, s).core, e) { OpenKept(w, s, e); }
    forall v ensures LoadOk(Apply(w, s).core, v) { LoadKept(w, s, v); }
  }

  lemma LoadKept(w: World, s: Step, v: Id)
    requires Guard.Inv(w) && Inv(w.core) && Enabled(Strict, w, s) && Honest(w, s)
    ensures LoadOk(Apply(w, s).core, v)
  {
    NamesKept(w, s);
    if v in Apply(w, s).core.workers {
      WorkersView(w, s);
      LoadAfter(w, s, v);
      OutStep(w, s, v);
    }
  }

  lemma {:induction false} RunKeeps(w: World, steps: seq<Step>)
    requires Guard.Inv(w) && Inv(w.core) && Legal(Strict, w, steps) && AllHonest(w, steps)
    ensures Inv(Run(w, steps).core)
    decreases steps
  {
    if steps != [] {
      StrictRuns.StricterStep(w, steps[0]);
      Guard.StepKeeps(w, steps[0]);
      StepKeeps(w, steps[0]);
      RunKeeps(Apply(w, steps[0]), steps[1..]);
    }
  }

  /** Over every strict run in which workers are honest, the load the scheduler keeps for a worker is exactly
      the number of jobs out on it. */
  lemma LoadIsExact(steps: seq<Step>, v: Id)
    requires Legal(Strict, START, steps) && AllHonest(START, steps) && v in Run(START, steps).core.workers
    ensures var c := Run(START, steps).core; c.workers[v].active == |OutOn(c, v)|
  {
    RunKeeps(START, steps);
    assert LoadOk(Run(START, steps).core, v);
  }

  /** A step that is not honest breaks it. */
  lemma DishonestBreaks(w: World, s: Step)
    requires Guard.Inv(w) && Inv(w.core) && Enabled(Strict, w, s) && !Honest(w, s)
    ensures !Inv(Apply(w, s).core)
  {
    var c' := Apply(w, s).core;
    WorkersView(w, s);
    match s
    case DoRegister(v, capacity) =>
      if v != NO_ID {
        OutStep(w, s, v);
        assert !LoadOk(c', v);
      }
    case DoHeartbeat(v, active, capacity) =>
      OutStep(w, s, v);
      assert !LoadOk(c', v);
    case DoRecover(id) =>
      var v := w.core.jobs[id].workerId;
      OutStep(w, s, v);
      assert LoadOk(w.core, v) && !LoadOk(c', v);
    case DoCancel(id) =>
      var e := w.core.jobs[id].execId;
      assert Guard.JobOk(w.core, w.now, id);
      StrictRuns.StricterStep(w, s);
      View(w, s, id);
      assert Open(c', e) && !OpenIsOut(c', e);
  }

  /** So a strict step keeps the loads true, with every open execution out on a named worker, if and only if
      it is honest. */
  lemma HonestyIsExact(w: World, s: Step)
    requires Guard.Inv(w) && Inv(w.core) && Enabled(Strict, w, s)
    ensures Inv(Apply(w, s).core) <==> Honest(w, s)
  {
    if Honest(w, s) { StepKeeps(w, s); } else { DishonestBreaks(w, s); }
  }
}
