/** Strict runs: a job comes to rest after at most 3 * max(1, MaxAttempts) + 1 changes. */
module Termination {
  import opened Domain
  import opened Lifecycle
  import opened Views
  import Guard = OneExecution
  import StrictRuns
  import opened PlausibleRuns

  /** How many changes a job can still go through: three for each attempt left (to QUEUED, to RUNNING
      and off the worker), and one for a cancel at the end. */
  function Potential(j: Job): nat
    requires j.attempt <= Budget(j)
  {
    var left := Budget(j) - j.attempt;
    match j.state
    case Created => 3 * left + 2
    case Scheduled => 3 * left + 1
    case Retrying => 3 * left + 1
    case Queued => 3 * left
    case Assigned => 3 * left + 3
    case Running => 3 * left + 2
    case CancelRequested => 1
    case Failed => 1
    case TimedOut => 1
    case _ => 0
  }

  /** Every step either leaves the record of a job alone or uses up some of its potential. */
  lemma StepDescends(w: World, s: Step, id: Id)
    requires StrictRuns.Inv(w) && Guard.Inv(w) && Enabled(Strict, w, s) && id in w.core.jobs
    ensures w.core.jobs[id].attempt <= Budget(w.core.jobs[id])
    ensures After(w, s, id).attempt <= Budget(After(w, s, id))
    ensures After(w, s, id) != w.core.jobs[id] ==> Potential(After(w, s, id)) < Potential(w.core.jobs[id])
  {
    assert Guard.JobOk(w.core, w.now, id);
    if s.DoDeliver? { assert StrictRuns.MsgFits(w.core, s.msg); }
    if Active(w.core.jobs[id].state) { StrictRuns.Leaves(w, s, id); } else { StrictRuns.AtRest(w, s, id); }
  }

  /** How often the record of the job changes in a run. */
  function Changes(w: World, steps: seq<Step>, id: Id): nat
    decreases steps
  {
    if steps == [] then 0 else
    var w1 := Apply(w, steps[0]);
    (if id in w.core.jobs && id in w1.core.jobs && w1.core.jobs[id] != w.core.jobs[id] then 1 else 0)
    + Changes(w1, steps[1..], id)
  }

  lemma {:induction false} RunDescends(w: World, steps: seq<Step>, id: Id)
    requires StrictRuns.Inv(w) && Guard.Inv(w) && Legal(Strict, w, steps) && id in w.core.jobs
    ensures id in Run(w, steps).core.jobs
    ensures w.core.jobs[id].attempt <= Budget(w.core.jobs[id])
    ensures Run(w, steps).core.jobs[id].attempt <= Budget(Run(w, steps).core.jobs[id])
    ensures Changes(w, steps, id) + Potential(Run(w, steps).core.jobs[id]) <= Potential(w.core.jobs[id])
    decreases steps
  {
    assert Guard.JobOk(w.core, w.now, id);
    if steps != [] {
      var s := steps[0];
      StepDescends(w, s, id);
      StrictRuns.StricterStep(w, s);
      View(w, s, id);
      Guard.StepKeeps(w, s);
      StrictRuns.StepKeeps(w, s);
      RunDescends(Apply(w, s), steps[1..], id);
    }
  }

  lemma PotentialBound(w: World, id: Id)
    requires StrictRuns.Inv(w) && Guard.Inv(w) && id in w.core.jobs
    ensures w.core.jobs[id].attempt <= Budget(w.core.jobs[id])
    ensures Potential(w.core.jobs[id]) <= 3 * Budget(w.core.jobs[id]) + 1
  {
    assert Guard.JobOk(w.core, w.now, id);
    assert StrictRuns.JobFits(w.core, w.now, id);
    if Active(w.core.jobs[id].state) { assert Guard.ExecOk(w.core, w.now, w.core.jobs[id].execId); }
  }

  /** Whatever a strict run did first, from there on a job changes at most 3 * max(1, MaxAttempts) + 1
      times, however long the run goes on. */
  lemma BoundedLife(before: seq<Step>, after: seq<Step>, id: Id)
    requires Legal(Strict, START, before) && Legal(Strict, Run(START, before), after)
    requires id in Run(START, before).core.jobs
    ensures var most := Run(START, before).core.jobs[id].maxAttempts;
      Changes(Run(START, before), after, id) <= 3 * (if most > 1 then most else 1) + 1
  {
    StrictRuns.RunKeeps(START, before);
    PotentialBound(Run(START, before), id);
    RunDescends(Run(START, before), after, id);
  }

  // ----- the bound is reached

  lemma {:induction false} Compose(w: World, a: seq<Step>, b: seq<Step>, id: Id, patience: Time)
    requires Plausible(Strict, w, a, patience) && Plausible(Strict, Run(w, a), b, patience)
    ensures Plausible(Strict, w, a + b, patience) && Run(w, a + b) == Run(Run(w, a), b)
    ensures Changes(w, a + b, id) == Changes(w, a, id) + Changes(Run(w, a), b, id)
    decreases a
  {
    if a == [] {
      assert a + b == b;
    } else {
      assert (a + b)[1..] == a[1..] + b;
      Compose(Apply(w, a[0]), a[1..], b, id, patience);
    }
  }

  lemma One(w: World, s: Step, id: Id, patience: Time)
    requires Enabled(Strict, w, s) && Timely(w, s, patience)
    ensures Plausible(Strict, w, [s], patience) && Run(w, [s]) == Apply(w, s)
    ensures Changes(w, [s], id)
         == if id in w.core.jobs && id in Apply(w, s).core.jobs && Apply(w, s).core.jobs[id] != w.core.jobs[id]
            then 1 else 0
  {
    assert [s][1..] == [];
  }

  /** Job 1 with `m` attempts, and worker 1, heard of by now. */
  ghost predicate Cast(w: World, m: nat) {
    && w.core.jobs.Keys == {1} && w.core.workers.Keys == {1} && w.core.queue == multiset{}
    && w.core.jobs[1].maxAttempts == m && w.core.workers[1].lastHeartbeat <= w.now
  }

  /** Job 1 is due with `k` of its `m` attempts used, and worker 1 is free. */
  ghost predicate Ready(w: World, k: nat, m: nat) {
    && Cast(w, m) && (forall e :: e in w.core.execs ==> e <= k)
    && Due(w.core.jobs[1], w.now) && w.core.jobs[1].attempt == k
    && Assignable(w.core.workers[1])
  }

  /** Job 1 is out on worker 1 for the last of `k` attempts. */
  ghost predicate Out(w: World, k: nat, m: nat) {
    && Cast(w, m) && (forall e :: e in w.core.execs ==> e <= k)
    && w.core.jobs[1].state.Running? && w.core.jobs[1].attempt == k
  }

  function HandedOnce(k: nat): seq<Step> {
    [DoPromote(1)] + [DoDeliver(Msg(1, k), Some(1), k + 1, Accepted)]
  }

  lemma HandOutRuns(w: World, k: nat, m: nat, patience: Time)
    requires Ready(w, k, m)
    ensures Plausible(Strict, w, HandedOnce(k), patience)
    ensures Changes(w, HandedOnce(k), 1) == 2 && Out(Run(w, HandedOnce(k)), k + 1, m)
  {
    var s1, s2 := DoPromote(1), DoDeliver(Msg(1, k), Some(1), k + 1, Accepted);
    One(w, s1, 1, patience);
    var w1 := Apply(w, s1);
    assert w1.core.jobs[1].state.Queued? && w1.core.queue == multiset{Msg(1, k)};
    One(w1, s2, 1, patience);
    View(w1, s2, 1);
    Compose(w, [s1], [s2], 1, patience);
  }

  /** The worker is silent for longer than the patience of the health check and is given up. */
  function Silence(patience: Time): seq<Step> {
    [DoTick(patience + 1)] + [DoDeregister(1)]
  }

  lemma SilenceRuns(w: World, k: nat, m: nat, patience: Time)
    requires Out(w, k, m) && patience >= 0
    ensures Plausible(Strict, w, Silence(patience), patience) && Changes(w, Silence(patience), 1) == 0
    ensures var w' := Run(w, Silence(patience));
      && w'.core == w.core.(workers := map[]) && w'.now == w.now + patience + 1
  {
    var s1, s2 := DoTick(patience + 1), DoDeregister(1);
    One(w, s1, 1, patience);
    One(Apply(w, s1), s2, 1, patience);
    Compose(w, [s1], [s2], 1, patience);
    assert w.core.workers - {1} == map[];
  }

  /** Its job is recovered, and it registers again. */
  function Return(): seq<Step> {
    [DoRecover(1)] + [DoRegister(1, 1)]
  }

  lemma ReturnRuns(w: World, k: nat, m: nat, patience: Time)
    requires w.core.jobs.Keys == {1} && w.core.workers == map[] && w.core.queue == multiset{}
    requires w.core.jobs[1].state.Running? && w.core.jobs[1].attempt == k && w.core.jobs[1].maxAttempts == m
    requires k <= m && forall e :: e in w.core.execs ==> e <= k
    ensures Plausible(Strict, w, Return(), patience) && Changes(w, Return(), 1) == 1
    ensures var w' := Run(w, Return());
      if k < m then Ready(w', k, m) else 1 in w'.core.jobs && w'.core.jobs[1].state.Failed?
  {
    var s1, s2 := DoRecover(1), DoRegister(1, 1);
    One(w, s1, 1, patience);
    One(Apply(w, s1), s2, 1, patience);
    Compose(w, [s1], [s2], 1, patience);
    WorkersView(w, s1);
    assert Apply(Apply(w, s1), s2).core.workers.Keys == {1};
  }

  lemma LoseRuns(w: World, k: nat, m: nat, patience: Time)
    requires Out(w, k, m) && k <= m && patience >= 0
    ensures var steps := Silence(patience) + Return();
      && Plausible(Strict, w, steps, patience) && Changes(w, steps, 1) == 1
      && var w' := Run(w, steps);
         if k < m then Ready(w', k, m) else 1 in w'.core.jobs && w'.core.jobs[1].state.Failed?
  {
    SilenceRuns(w, k, m, patience);
    ReturnRuns(Run(w, Silence(patience)), k, m, patience);
    Compose(w, Silence(patience), Return(), 1, patience);
  }

  /** One attempt that ends with the loss of the worker. */
  function LostAttempt(k: nat, patience: Time): seq<Step> {
    HandedOnce(k) + (Silence(patience) + Return())
  }

  lemma LostAttemptRuns(w: World, k: nat, m: nat, patience: Time)
    requires Ready(w, k, m) && k < m && patience >= 0
    ensures Plausible(Strict, w, LostAttempt(k, patience), patience) && Changes(w, LostAttempt(k, patience), 1) == 3
    ensures var w' := Run(w, LostAttempt(k, patience));
      if k + 1 < m then Ready(w', k + 1, m) else 1 in w'.core.jobs && w'.core.jobs[1].state.Failed?
  {
    HandOutRuns(w, k, m, patience);
    LoseRuns(Run(w, HandedOnce(k)), k + 1, m, patience);
    Compose(w, HandedOnce(k), Silence(patience) + Return(), 1, patience);
  }

  function LongLife(k: nat, m: nat, patience: Time): seq<Step>
    requires k <= m
    decreases m - k
  {
    if k == m then [DoCancel(1)] else LostAttempt(k, patience) + LongLife(k + 1, m, patience)
  }

  lemma {:induction false} LongLifeRuns(w: World, k: nat, m: nat, patience: Time)
    requires k <= m && patience >= 0
    requires if k < m then Ready(w, k, m) else 1 in w.core.jobs && w.core.jobs[1].state.Failed?
    ensures Plausible(Strict, w, LongLife(k, m, patience), patience)
    ensures Changes(w, LongLife(k, m, patience), 1) == 3 * (m - k) + 1
    decreases m - k
  {
    if k == m {
      One(w, DoCancel(1), 1, patience);
      View(w, DoCancel(1), 1);
    } else {
      LostAttemptRuns(w, k, m, patience);
      LongLifeRuns(Run(w, LostAttempt(k, patience)), k + 1, m, patience);
      Compose(w, LostAttempt(k, patience), LongLife(k + 1, m, patience), 1, patience);
    }
  }

  /** A job due after a nanosecond, and a worker. */
  lemma BeginningRuns(m: nat, retry: RetryPolicy, patience: Time) returns (steps: seq<Step>)
    requires m >= 1
    ensures Plausible(Strict, START, steps, patience) && Ready(Run(START, steps), 0, m)
  {
    var s1, s2, s3 := DoCreate(1, NewJob(m, NO_ID, false, 0, retry, 1), true), DoRegister(1, 1), DoTick(1);
    Two(Strict, START, s1, s2, patience);
    Single(Strict, Apply(Apply(START, s1), s2), s3, patience);
    Then(Strict, START, [s1] + [s2], [s3], patience);
    steps := [s1] + [s2] + [s3];
  }

  /** For every number of attempts and every patience of the health check there is a strict run that makes
      exactly that many changes. */
  lemma BoundIsReached(m: nat, retry: RetryPolicy, patience: Time) returns (before: seq<Step>, after: seq<Step>)
    requires m >= 1 && patience >= 0
    ensures Plausible(Strict, START, before, patience) && Plausible(Strict, Run(START, before), after, patience)
    ensures 1 in Run(START, before).core.jobs && Budget(Run(START, before).core.jobs[1]) == m
    ensures Changes(Run(START, before), after, 1) == 3 * m + 1
  {
    before := BeginningRuns(m, retry, patience);
    LongLifeRuns(Run(START, before), 0, m, patience);
    after := LongLife(0, m, patience);
  }
}
