/** Recurring jobs: each completion has exactly one successor, so the occurrences of a schedule form
    chains with one live end, unless a completed one is created again. */
module Recurrence {
  import opened Domain
  import opened Lifecycle
  import opened Views
  import WildRuns
  import Guard = OneExecution

  /** The cron library finds a next time, and the child is stored. */
  predicate CronAnswers(s: Step) {
    s.DoReport? ==> s.draw.next.Some?
  }

  /** The occurrence is over and has been followed up. */
  predicate Done(c: Core, id: Id) {
    id in c.jobs && c.jobs[id].recurring && c.jobs[id].state.Completed?
  }

  /** The successors of a job so far. */
  function Children(w: World, id: Id): set<Spawn> {
    ChildrenIn(w.heirs, id)
  }

  function ChildrenIn(heirs: set<Spawn>, id: Id): set<Spawn> {
    set x | x in heirs && x.parent == id
  }

  lemma OneMoreHeir(heirs: set<Spawn>, x: Spawn, id: Id)
    requires x !in heirs
    ensures |ChildrenIn(heirs + {x}, id)| == |ChildrenIn(heirs, id)| + if x.parent == id then 1 else 0
  {
    if x.parent == id {
      assert ChildrenIn(heirs + {x}, id) == ChildrenIn(heirs, id) + {x};
    } else {
      assert ChildrenIn(heirs + {x}, id) == ChildrenIn(heirs, id);
    }
  }

  /** A due resubmission of a completed occurrence. */
  predicate Reopens(w: World, s: Step, id: Id) {
    WildRuns.Requeues(w, s, id) && Done(w.core, id)
  }

  /** How often a run reopens the occurrence. */
  function Reopenings(w: World, steps: seq<Step>, id: Id): nat
    decreases steps
  {
    if steps == [] then 0 else
    (if Reopens(w, steps[0], id) then 1 else 0) + Reopenings(Apply(w, steps[0]), steps[1..], id)
  }

  /** Successors and what they succeed are stored recurring jobs, and none succeeds two. */
  ghost predicate Inv(w: World) {
    && (forall x {:trigger x.parent} {:trigger x.child} :: x in w.heirs ==>
          IsRecurring(w.core, x.parent) && IsRecurring(w.core, x.child))
    && (forall x, y {:trigger x.child, y.child} :: x in w.heirs && y in w.heirs && x.child == y.child ==> x == y)
  }

  predicate IsRecurring(c: Core, id: Id) {
    id in c.jobs && c.jobs[id].recurring
  }

  /** A job stays there and recurring, on its schedule. */
  lemma StaysRecurring(w: World, s: Step, id: Id)
    requires Enabled(Wild, w, s) && id in w.core.jobs
    ensures id in Apply(w, s).core.jobs && Apply(w, s).core.jobs[id].recurring == w.core.jobs[id].recurring
    ensures Apply(w, s).core.jobs[id].scheduledAt == w.core.jobs[id].scheduledAt
  {
    View(w, s, id);
  }

  /** What a report on the job brings into being. */
  predicate SpawnsFor(w: World, s: Step, id: Id) {
    s.DoReport? && s.report.job == id && Spawns(w.core, s.report, s.draw)
  }

  /** An occurrence is done by a report that spawns its successor, and undone by a resubmission. */
  lemma Completes(w: World, s: Step, id: Id)
    requires Enabled(Wild, w, s) && CronAnswers(s)
    ensures Done(Apply(w, s).core, id) <==> (Done(w.core, id) && !Reopens(w, s, id)) || SpawnsFor(w, s, id)
    ensures !(Done(w.core, id) && SpawnsFor(w, s, id))
  {
    if id in w.core.jobs { View(w, s, id); } else if id in Apply(w, s).core.jobs { NewView(w, s, id); }
  }

  lemma ResultBirths(c: Core, now: Time, r: Report, d: Draw)
    requires d.childId !in c.jobs
    ensures Born(c, HandleResult(c, now, r, d), r.job) == if Spawns(c, r, d) then {Spawn(r.job, d.childId)} else {}
    ensures Spawns(c, r, d) ==>
      && d.childId in HandleResult(c, now, r, d).jobs
      && HandleResult(c, now, r, d).jobs[d.childId] == Occurrence(c.jobs[r.job], d.next.value)
  {
  }

  /** Jobs are born of results only when a recurring job completes, and then one. */
  lemma HeirsStep(w: World, s: Step)
    requires Enabled(Wild, w, s)
    ensures Apply(w, s).heirs ==
      w.heirs + if s.DoReport? && Spawns(w.core, s.report, s.draw) then {Spawn(s.report.job, s.draw.childId)} else {}
  {
    match s
    case DoReport(r, d) => ResultBirths(w.core, w.now, r, d);
    case DoWatchdog(k, d) => ResultBirths(w.core, w.now, TimeoutReport(k, w.core.jobs[k]), d);
    case _ =>
  }

  lemma SpawnedChild(w: World, s: Step)
    requires Enabled(Wild, w, s) && s.DoReport? && Spawns(w.core, s.report, s.draw)
    ensures var c' := Apply(w, s).core;
      && s.draw.childId !in w.core.jobs && s.draw.childId in c'.jobs
      && c'.jobs[s.draw.childId] == Occurrence(w.core.jobs[s.report.job], s.draw.next.value)
  {
    ResultBirths(w.core, w.now, s.report, s.draw);
  }

  lemma StepKeeps(w: World, s: Step)
    requires Inv(w) && Enabled(Wild, w, s)
    ensures Inv(Apply(w, s))
  {
    var w' := Apply(w, s);
    HeirsStep(w, s);
    var spawns := s.DoReport? && Spawns(w.core, s.report, s.draw);
    if spawns { SpawnedChild(w, s); StaysRecurring(w, s, s.report.job); }
    forall x | x in w.heirs ensures IsRecurring(w'.core, x.parent) && IsRecurring(w'.core, x.child) {
      StaysRecurring(w, s, x.parent);
      StaysRecurring(w, s, x.child);
    }
  }

  function One(b: bool): nat {
    if b then 1 else 0
  }

  lemma ChildrenStep(w: World, s: Step, id: Id)
    requires Inv(w) && Enabled(Wild, w, s)
    ensures |Children(Apply(w, s), id)| == |Children(w, id)| + One(SpawnsFor(w, s, id))
  {
    HeirsStep(w, s);
    if s.DoReport? && Spawns(w.core, s.report, s.draw) {
      var x := Spawn(s.report.job, s.draw.childId);
      assert x in w.heirs ==> IsRecurring(w.core, x.child);
      OneMoreHeir(w.heirs, x, id);
    } else {
      assert w.heirs + {} == w.heirs;
    }
  }

  /** One step keeps the account of successors. */
  lemma AccountStep(w: World, s: Step, id: Id)
    requires Inv(w) && Enabled(Wild, w, s) && CronAnswers(s)
    ensures |Children(Apply(w, s), id)| + One(Done(w.core, id))
         == |Children(w, id)| + One(Done(Apply(w, s).core, id)) + One(Reopens(w, s, id))
  {
    ChildrenStep(w, s, id);
    Completes(w, s, id);
  }

  lemma {:induction false} AccountRun(w: World, steps: seq<Step>, id: Id)
    requires Inv(w) && Legal(Wild, w, steps) && forall i :: 0 <= i < |steps| ==> CronAnswers(steps[i])
    ensures Inv(Run(w, steps))
    ensures |Children(Run(w, steps), id)| + One(Done(w.core, id))
         == |Children(w, id)| + One(Done(Run(w, steps).core, id)) + Reopenings(w, steps, id)
    decreases steps
  {
    if steps != [] {
      StepKeeps(w, steps[0]);
      AccountStep(w, steps[0], id);
      AccountRun(Apply(w, steps[0]), steps[1..], id);
    }
  }

  /** Over every run, whatever is reported and however often, a job has one successor for each time it was
      reopened and one more if it is COMPLETED and recurring; and no job succeeds two others. */
  lemma SuccessorsAccounted(steps: seq<Step>, id: Id)
    requires Legal(Wild, START, steps) && forall i :: 0 <= i < |steps| ==> CronAnswers(steps[i])
    ensures var w := Run(START, steps);
      && |Children(w, id)| == Reopenings(START, steps, id) + One(Done(w.core, id))
      && forall x, y :: x in w.heirs && y in w.heirs && x.child == y.child ==> x == y
  {
    assert Children(START, id) == {};
    AccountRun(START, steps, id);
  }

  /** So a job has exactly one successor when it is COMPLETED and recurring and none otherwise, if and
      only if the run never creates it again, due, when it is so. */
  lemma OneSuccessorEach(steps: seq<Step>, id: Id)
    requires Legal(Wild, START, steps) && forall i :: 0 <= i < |steps| ==> CronAnswers(steps[i])
    ensures var w := Run(START, steps);
      |Children(w, id)| == One(Done(w.core, id)) <==> Reopenings(START, steps, id) == 0
  {
    SuccessorsAccounted(steps, id);
  }

  // ----- chains move forward in time

  predicate Later(c: Core, a: Id, b: Id) {
    && a in c.jobs && b in c.jobs
    && c.jobs[a].scheduledAt.Some? && c.jobs[b].scheduledAt.Some?
    && c.jobs[a].scheduledAt.value < c.jobs[b].scheduledAt.value
  }

  ghost predicate Forward(w: World) {
    forall x {:trigger x.parent} {:trigger x.child} :: x in w.heirs ==> Later(w.core, x.parent, x.child)
  }

  lemma ForwardKeeps(w: World, s: Step)
    requires Guard.Inv(w) && Forward(w) && Enabled(Guarded, w, s)
    ensures Forward(Apply(w, s))
  {
    var w' := Apply(w, s);
    HeirsStep(w, s);
    if s.DoReport? && Spawns(w.core, s.report, s.draw) {
      SpawnedChild(w, s);
      assert Guard.PushOk(w.core, Push(s.report.job, s.report.exec, s.report.worker, s.report.attempt));
      assert Guard.ExecOk(w.core, w.now, s.report.exec);
      StaysRecurring(w, s, s.report.job);
    }
    forall x | x in w.heirs ensures Later(w'.core, x.parent, x.child) {
      StaysRecurring(w, s, x.parent);
      StaysRecurring(w, s, x.child);
    }
  }

  lemma {:induction false} ForwardRun(w: World, steps: seq<Step>)
    requires Guard.Inv(w) && Forward(w) && Legal(Guarded, w, steps)
    ensures Forward(Run(w, steps)) && Legal(Wild, w, steps)
    decreases steps
  {
    if steps != [] {
      Guard.StepKeeps(w, steps[0]);
      ForwardKeeps(w, steps[0]);
      ForwardRun(Apply(w, steps[0]), steps[1..]);
    }
  }

  /** Occurrences `p[0]`, `p[1]`, ... each a successor of the one before. */
  predicate Chain(w: World, p: seq<Id>) {
    forall i :: 0 <= i < |p| - 1 ==> Spawn(p[i], p[i + 1]) in w.heirs
  }

  lemma {:induction false} ChainClimbs(w: World, p: seq<Id>, i: nat, k: nat)
    requires Forward(w) && Chain(w, p) && i < k < |p|
    ensures Later(w.core, p[i], p[k])
    decreases k
  {
    var x := Spawn(p[k - 1], p[k - 1 + 1]);
    assert x in w.heirs && Later(w.core, x.parent, x.child);
    if i < k - 1 { ChainClimbs(w, p, i, k - 1); }
  }

  /** In every guarded run the scheduled times strictly increase along every chain of occurrences; and
      an occurrence with a successor is COMPLETED and has no other, unless it was reopened. */
  lemma ChainsMoveForward(steps: seq<Step>, p: seq<Id>, i: nat, k: nat)
    requires Legal(Guarded, START, steps) && forall n :: 0 <= n < |steps| ==> CronAnswers(steps[n])
    requires Chain(Run(START, steps), p) && i < k < |p|
    ensures var w := Run(START, steps);
      && Later(w.core, p[i], p[k])
      && (Reopenings(START, steps, p[i]) == 0 ==>
            w.core.jobs[p[i]].state.Completed? && Children(w, p[i]) == {Spawn(p[i], p[i + 1])})
  {
    var w := Run(START, steps);
    ForwardRun(START, steps);
    ChainClimbs(w, p, i, k);
    SuccessorsAccounted(steps, p[i]);
    var x := Spawn(p[i], p[i + 1]);
    assert x in Children(w, p[i]);
    OnlyMember(Children(w, p[i]), x);
  }

  /** Without reopenings two chains from one job agree as far as both go. */
  lemma {:induction false} ChainsAgree(steps: seq<Step>, p: seq<Id>, q: seq<Id>, i: nat)
    requires Legal(Wild, START, steps) && forall n :: 0 <= n < |steps| ==> CronAnswers(steps[n])
    requires Chain(Run(START, steps), p) && Chain(Run(START, steps), q) && i < |p| && i < |q| && p[0] == q[0]
    requires forall k :: 0 <= k < |p| ==> Reopenings(START, steps, p[k]) == 0
    ensures p[i] == q[i]
    decreases i
  {
    if i > 0 {
      ChainsAgree(steps, p, q, i - 1);
      var w, a := Run(START, steps), p[i - 1];
      assert Reopenings(START, steps, a) == 0;
      SuccessorsAccounted(steps, a);
      var x, y := Spawn(a, p[i - 1 + 1]), Spawn(q[i - 1], q[i - 1 + 1]);
      assert x in Children(w, a) && y in Children(w, a);
      OnlyMember(Children(w, a), x);
    }
  }

  /** An occurrence with a successor is COMPLETED, unless it was reopened. */
  lemma FollowedIsCompleted(steps: seq<Step>, a: Id, b: Id)
    requires Legal(Wild, START, steps) && forall n :: 0 <= n < |steps| ==> CronAnswers(steps[n])
    requires Spawn(a, b) in Run(START, steps).heirs && Reopenings(START, steps, a) == 0
    ensures a in Run(START, steps).core.jobs && Run(START, steps).core.jobs[a].state.Completed?
  {
    SuccessorsAccounted(steps, a);
    assert Spawn(a, b) in Children(Run(START, steps), a);
    OnlyMember(Children(Run(START, steps), a), Spawn(a, b));
  }

  ghost predicate Live(c: Core, id: Id) {
    id in c.jobs && !Terminal(c.jobs[id].state)
  }

  /** So without reopenings at most one descendant of a job is not terminal, over every wild run: two chains
      from it with live ends are the same chain. */
  lemma OneLiveEnd(steps: seq<Step>, p: seq<Id>, q: seq<Id>)
    requires Legal(Wild, START, steps) && forall n :: 0 <= n < |steps| ==> CronAnswers(steps[n])
    requires p != [] && q != [] && p[0] == q[0] && |p| <= |q|
    requires Chain(Run(START, steps), p) && Chain(Run(START, steps), q)
    requires forall k :: 0 <= k < |p| ==> Reopenings(START, steps, p[k]) == 0
    requires Live(Run(START, steps).core, p[|p| - 1]) && Live(Run(START, steps).core, q[|q| - 1])
    ensures p == q
  {
    var n := |p| - 1;
    forall i | 0 <= i < |p| ensures p[i] == q[i] { ChainsAgree(steps, p, q, i); }
    if |p| < |q| {
      assert Reopenings(START, steps, p[n]) == 0;
      FollowedIsCompleted(steps, q[n], q[n + 1]);
    }
  }

  lemma OnlyMember(s: set<Spawn>, x: Spawn)
    requires x in s
    ensures |s| >= 1 && (|s| == 1 ==> s == {x})
  {
    assert s == {x} + (s - {x});
  }
}
