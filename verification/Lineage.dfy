/** Where jobs come from: over every wild run each job goes back to one API request, whose terms it has. */
module Lineage {
  import opened Domain
  import opened Lifecycle
  import opened Views
  import opened LastWrites
  import opened Recurrence

  /** What a client asked for, but for the time. */
  predicate SameTerms(j: Job, k: Job) {
    && j.maxAttempts == k.maxAttempts && j.timeout == k.timeout && j.retry == k.retry
    && j.recurring == k.recurring
  }

  predicate AsAsked(j: Job, n: NewJob) {
    && j.maxAttempts == n.maxAttempts && j.timeout == n.timeout && j.retry == n.retry
    && j.recurring == n.recurring
  }

  /** No step changes a job's terms, its key or its scheduled time, even when operations are overtaken. */
  lemma TermsStay(w: World, s: Step, id: Id)
    requires Enabled(Racy, w, s) && id in w.core.jobs
    ensures id in Apply(w, s).core.jobs
    ensures var j, j' := w.core.jobs[id], Apply(w, s).core.jobs[id];
      SameTerms(j, j') && j'.idemKey == j.idemKey && j'.scheduledAt == j.scheduledAt
  {
    RacyView(w, s, id);
  }

  // ----- births

  /** A record as it is before anything has happened to the job. */
  predicate Untouched(j: Job) {
    && j.attempt == 0 && j.workerId == NO_ID && j.execId == NO_ID
    && j.startedAt == None && j.completedAt == None && j.nextRetryAt == None
  }

  /** The step creates the job through the API. */
  predicate Requested(w: World, s: Step, id: Id) {
    && s.DoCreate? && s.id == id && id in Apply(w, s).core.jobs
    && var j := Apply(w, s).core.jobs[id];
    && Untouched(j) && AsAsked(j, s.n) && j.idemKey == s.n.idemKey && j.scheduledAt == Some(s.n.scheduledAt)
    && (if s.n.scheduledAt <= w.now && s.up then j.state == Queued && j.queuedAt == Some(w.now)
        else j.state == Scheduled && j.queuedAt == None)
  }

  /** The step completes a recurring job, and the job is its next occurrence, at the time the cron library
      gave. */
  predicate Succeeds(w: World, s: Step, id: Id) {
    && s.DoReport? && s.draw.childId == id && s.report.job in w.core.jobs && id in Apply(w, s).core.jobs
    && var p, j := w.core.jobs[s.report.job], Apply(w, s).core.jobs[id];
    && s.report.result.success && p.recurring && s.draw.next == j.scheduledAt && j.scheduledAt.Some?
    && Untouched(j) && SameTerms(p, j) && j.idemKey == NO_ID && j.state == Scheduled && j.queuedAt == None
    && Spawn(s.report.job, id) in Apply(w, s).heirs
  }

  lemma Birth(w: World, s: Step, id: Id)
    requires Enabled(Wild, w, s) && id !in w.core.jobs && id in Apply(w, s).core.jobs
    ensures Requested(w, s, id) || Succeeds(w, s, id)
  {
    NewView(w, s, id);
    HeirsStep(w, s);
  }

  // ----- lineage

  /** `p` leads from a job that step `k` of the run created to the job `id`, which has the terms asked for
      then, and no key unless it is that job. */
  ghost predicate DescendsFrom(steps: seq<Step>, k: nat, p: seq<Id>, id: Id) {
    var w := Run(START, steps);
    && k < |steps| && steps[k].DoCreate? && p != [] && p[0] == steps[k].id && p[|p| - 1] == id
    && Chain(w, p) && id in w.core.jobs && AsAsked(w.core.jobs[id], steps[k].n)
    && w.core.jobs[id].idemKey == (if |p| == 1 then steps[k].n.idemKey else NO_ID)
    && (|p| == 1 ==> w.core.jobs[id].scheduledAt == Some(steps[k].n.scheduledAt))
  }

  /** What was so before the last step still is. */
  lemma StillDescends(steps: seq<Step>, k: nat, p: seq<Id>, id: Id)
    requires Legal(Wild, START, steps) && steps != [] && DescendsFrom(steps[..|steps| - 1], k, p, id)
    ensures DescendsFrom(steps, k, p, id)
  {
    var n := |steps| - 1;
    LastStep(Wild, START, steps);
    TermsStay(Run(START, steps[..n]), steps[n], id);
    HeirsStep(Run(START, steps[..n]), steps[n]);
  }

  lemma ChainOn(w: World, w': World, p: seq<Id>, id: Id)
    requires Chain(w, p) && p != [] && w.heirs <= w'.heirs && Spawn(p[|p| - 1], id) in w'.heirs
    ensures Chain(w', p + [id])
  {
    var q := p + [id];
    forall i | 0 <= i < |q| - 1 ensures Spawn(q[i], q[i + 1]) in w'.heirs {
      assert i < |p| - 1 ==> Spawn(p[i], p[i + 1]) in w.heirs;
    }
  }

  /** The last step bears the job: it is the beginning of a line, or the next of its parent's. */
  lemma BornLast(steps: seq<Step>, k: nat, p: seq<Id>, id: Id)
    requires Legal(Wild, START, steps) && steps != []
    requires var n := |steps| - 1; var w := Run(START, steps[..n]);
      id !in w.core.jobs && Succeeds(w, steps[n], id) && DescendsFrom(steps[..n], k, p, steps[n].report.job)
    ensures DescendsFrom(steps, k, p + [id], id)
  {
    var n := |steps| - 1;
    LastStep(Wild, START, steps);
    HeirsStep(Run(START, steps[..n]), steps[n]);
    ChainOn(Run(START, steps[..n]), Run(START, steps), p, id);
  }

  /** Over every wild run each job descends, over the jobs that succeeded one another, from one that an API
      request created; it has that request's attempts, timeout, retry policy and recurrence, and only the
      first of the line has the request's key and time. */
  lemma {:induction false} EveryJobFromARequest(steps: seq<Step>, id: Id) returns (k: nat, p: seq<Id>)
    requires Legal(Wild, START, steps) && id in Run(START, steps).core.jobs
    ensures DescendsFrom(steps, k, p, id)
    decreases steps
  {
    var n := |steps| - 1;
    LastStep(Wild, START, steps);
    var w := Run(START, steps[..n]);
    if id in w.core.jobs {
      k, p := EveryJobFromARequest(steps[..n], id);
      StillDescends(steps, k, p, id);
    } else {
      Birth(w, steps[n], id);
      if Requested(w, steps[n], id) {
        k, p := n, [id];
      } else {
        k, p := EveryJobFromARequest(steps[..n], steps[n].report.job);
        BornLast(steps, k, p, id);
        p := p + [id];
      }
    }
  }

  /** Over every wild run a successor was born of a success report on its parent, unlike its parent only in
      key and time, and it is scheduled for the time the cron library gave then. */
  lemma {:induction false} EverySuccessorIsBorn(steps: seq<Step>, x: Spawn) returns (k: nat)
    requires Legal(Wild, START, steps) && x in Run(START, steps).heirs
    ensures k < |steps| && Succeeds(Run(START, steps[..k]), steps[k], x.child) && steps[k].report.job == x.parent
    ensures x.child in Run(START, steps).core.jobs
    ensures Run(START, steps).core.jobs[x.child].scheduledAt == steps[k].draw.next
    decreases steps
  {
    var n := |steps| - 1;
    LastStep(Wild, START, steps);
    var w := Run(START, steps[..n]);
    HeirsStep(w, steps[n]);
    if x in w.heirs {
      k := EverySuccessorIsBorn(steps[..n], x);
      assert steps[..n][..k] == steps[..k];
      TermsStay(w, steps[n], x.child);
    } else {
      k := n;
      SpawnedChild(w, steps[n]);
      Birth(w, steps[n], x.child);
    }
  }

  // ----- successors

  ghost predicate Inherits(w: World) {
    forall x {:trigger x.parent} {:trigger x.child} :: x in w.heirs ==> Inherited(w.core, x.parent, x.child)
  }

  predicate Inherited(c: Core, a: Id, b: Id) {
    a in c.jobs && b in c.jobs && SameTerms(c.jobs[a], c.jobs[b]) && c.jobs[b].idemKey == NO_ID
  }

  lemma InheritedStays(w: World, s: Step, a: Id, b: Id)
    requires Enabled(Wild, w, s) && Inherited(w.core, a, b)
    ensures Inherited(Apply(w, s).core, a, b)
  {
    TermsStay(w, s, a);
    TermsStay(w, s, b);
  }

  lemma InheritsStep(w: World, s: Step)
    requires Inherits(w) && Enabled(Wild, w, s)
    ensures Inherits(Apply(w, s))
  {
    HeirsStep(w, s);
    forall x | x in w.heirs ensures Inherited(Apply(w, s).core, x.parent, x.child) {
      InheritedStays(w, s, x.parent, x.child);
    }
    if s.DoReport? && Spawns(w.core, s.report, s.draw) {
      SpawnedChild(w, s);
      Birth(w, s, s.draw.childId);
      TermsStay(w, s, s.report.job);
    }
  }

  lemma {:induction false} InheritsRun(w: World, steps: seq<Step>)
    requires Inherits(w) && Legal(Wild, w, steps)
    ensures Inherits(Run(w, steps))
    decreases steps
  {
    if steps != [] {
      InheritsStep(w, steps[0]);
      InheritsRun(Apply(w, steps[0]), steps[1..]);
    }
  }

  lemma {:induction false} AlongTheChain(w: World, p: seq<Id>, i: nat)
    requires Inherits(w) && Chain(w, p) && 0 < i < |p|
    ensures Inherited(w.core, p[0], p[i])
    decreases i
  {
    var x := Spawn(p[i - 1], p[i - 1 + 1]);
    assert x in w.heirs && Inherited(w.core, x.parent, x.child);
    if i > 1 { AlongTheChain(w, p, i - 1); }
  }

  /** Over every wild run all descendants of a job have its attempts, timeout, retry policy and recurrence,
      and none has a key. */
  lemma DescendantsInherit(steps: seq<Step>, p: seq<Id>, i: nat)
    requires Legal(Wild, START, steps) && Chain(Run(START, steps), p) && 0 < i < |p|
    ensures var c := Run(START, steps).core;
      && p[0] in c.jobs && p[i] in c.jobs && c.jobs[p[i]].idemKey == NO_ID
      && c.jobs[p[i]].maxAttempts == c.jobs[p[0]].maxAttempts && c.jobs[p[i]].timeout == c.jobs[p[0]].timeout
      && c.jobs[p[i]].retry == c.jobs[p[0]].retry && c.jobs[p[i]].recurring == c.jobs[p[0]].recurring
  {
    InheritsRun(START, steps);
    AlongTheChain(Run(START, steps), p, i);
  }
}
