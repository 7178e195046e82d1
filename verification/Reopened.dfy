/** What creating again with a known key can undo: `createJob` returns the stored job and queues it once
    its time has come, whatever state it is in. */
module Reopened {
  import opened Domain
  import opened Lifecycle
  import opened Views
  import opened Recurrence
  import opened PlausibleRuns
  import Backoff

  /** Worker 7 is idle, and job 1 is recurring, keyed and long due. */
  ghost predicate Stage(w: World, attempt: int, retry: RetryPolicy) {
    && 1 in w.core.jobs && w.core.workers == map[7 := Worker(Healthy, 9, 0, 0)] && w.now == 1
    && w.core.jobs[1].attempt == attempt && w.core.jobs[1].maxAttempts == 2 && w.core.jobs[1].recurring
    && w.core.jobs[1].idemKey == 5 && w.core.jobs[1].scheduledAt == Some(1) && w.core.jobs[1].retry == retry
  }

  ghost predicate NothingOpen(c: Core) {
    forall f {:trigger Open(c, f)} :: !Open(c, f)
  }

  function HandOut(attempt: int, e: Id): Step {
    DoDeliver(Msg(1, attempt), Some(7), e, Accepted)
  }

  function Succeed(attempt: int, e: Id, child: Id, retry: RetryPolicy): Step {
    DoReport(Report(1, e, 7, attempt, Result(true, false, ReasonSuccess)),
             Draw(Backoff.Delay(retry, attempt, 0.0), child, Some(100)))
  }

  /** Job 1 is out on worker 7 for the attempt. */
  ghost predicate OutStage(w: World, attempt: int, e: Id, retry: RetryPolicy) {
    && 1 in w.core.jobs && w.core.workers == map[7 := Worker(Healthy, 9, 1, 0)] && w.now == 1
    && w.core.jobs[1].attempt == attempt && w.core.jobs[1].maxAttempts == 2 && w.core.jobs[1].recurring
    && w.core.jobs[1].idemKey == 5 && w.core.jobs[1].scheduledAt == Some(1) && w.core.jobs[1].retry == retry
    && w.core.jobs[1].state.Running?
    && e != NO_ID && Open(w.core, e) && w.core.execs[e].job == 1 && Push(1, e, 7, attempt) in w.pushes
    && (forall f :: Open(w.core, f) ==> f == e)
  }

  lemma HandOutStage(w: World, attempt: int, e: Id, retry: RetryPolicy)
    requires Stage(w, attempt, retry) && w.core.jobs[1].state.Queued? && Msg(1, attempt) in w.core.queue
    requires e != NO_ID && e !in w.core.execs && NothingOpen(w.core)
    ensures Enabled(Guarded, w, HandOut(attempt, e))
    ensures var w' := Apply(w, HandOut(attempt, e));
      OutStage(w', attempt + 1, e, retry) && w'.core.jobs.Keys == w.core.jobs.Keys && w'.heirs == w.heirs
      && w'.core.execs.Keys == w.core.execs.Keys + {e}
  {
    WorkersView(w, HandOut(attempt, e));
    View(w, HandOut(attempt, e), 1);
    DeliverNew(w.core, w.now, Msg(1, attempt), Some(7), e, Accepted);
    DeliverParts(w, HandOut(attempt, e));
    forall f | Open(Apply(w, HandOut(attempt, e)).core, f) ensures f == e {
      assert !Open(w.core, f);
    }
  }

  lemma SucceedStage(w: World, attempt: int, e: Id, child: Id, retry: RetryPolicy, patience: Time)
    requires OutStage(w, attempt, e, retry) && child != NO_ID && child !in w.core.jobs
    ensures Enabled(Guarded, w, Succeed(attempt, e, child, retry))
    ensures Timely(w, Succeed(attempt, e, child, retry), patience)
    ensures var w' := Apply(w, Succeed(attempt, e, child, retry));
      && Stage(w', attempt, retry) && w'.core.jobs[1].state.Completed? && NothingOpen(w'.core)
      && w'.core.jobs.Keys == w.core.jobs.Keys + {child} && w'.heirs == w.heirs + {Spawn(1, child)}
      && w'.core.execs.Keys == w.core.execs.Keys
  {
    var s := Succeed(attempt, e, child, retry);
    WorkersView(w, s);
    View(w, s, 1);
    HeirsStep(w, s);
    SpawnedChild(w, s);
    CloseStage(w.core, w.now, s.report, s.draw);
  }

  lemma CloseStage(c: Core, now: Time, r: Report, d: Draw)
    requires Spawns(c, r, d) && r.exec != NO_ID && r.exec in c.execs
    ensures var c' := HandleResult(c, now, r, d);
      && c'.jobs.Keys == c.jobs.Keys + {d.childId} && c'.execs.Keys == c.execs.Keys
      && (forall f :: Open(c', f) ==> f != r.exec && Open(c, f))
  {
  }

  lemma ResubmitStage(w: World, retry: RetryPolicy)
    requires Stage(w, 1, retry) && w.core.jobs[1].state.Completed? && NothingOpen(w.core)
    ensures Enabled(Guarded, w, DoResubmit(1)) && Reopens(w, DoResubmit(1), 1)
    ensures var w' := Apply(w, DoResubmit(1));
      && Stage(w', 1, retry) && w'.core.jobs[1].state.Queued? && Msg(1, 1) in w'.core.queue && NothingOpen(w'.core)
      && w'.core.jobs.Keys == w.core.jobs.Keys && w'.core.execs == w.core.execs && w'.heirs == w.heirs
  {
    assert forall f :: Open(w.core, f) <==> Open(Apply(w, DoResubmit(1)).core, f);
  }

  ghost predicate AllAnswered(steps: seq<Step>) {
    forall i :: 0 <= i < |steps| ==> CronAnswers(steps[i])
  }

  /** Job 1 completes the attempt, with a successor. */
  lemma Attempt(w: World, attempt: int, e: Id, child: Id, retry: RetryPolicy, patience: Time) returns (steps: seq<Step>)
    requires Stage(w, attempt, retry) && w.core.jobs[1].state.Queued? && Msg(1, attempt) in w.core.queue
    requires e != NO_ID && e !in w.core.execs && NothingOpen(w.core) && child != NO_ID && child !in w.core.jobs
    ensures Plausible(Guarded, w, steps, patience) && AllAnswered(steps)
    ensures var w' := Run(w, steps);
      && Stage(w', attempt + 1, retry) && w'.core.jobs[1].state.Completed? && NothingOpen(w'.core)
      && w'.core.jobs.Keys == w.core.jobs.Keys + {child} && w'.heirs == w.heirs + {Spawn(1, child)}
      && w'.core.execs.Keys == w.core.execs.Keys + {e}
  {
    HandOutStage(w, attempt, e, retry);
    SucceedStage(Apply(w, HandOut(attempt, e)), attempt + 1, e, child, retry, patience);
    Two(Guarded, w, HandOut(attempt, e), Succeed(attempt + 1, e, child, retry), patience);
    steps := [HandOut(attempt, e)] + [Succeed(attempt + 1, e, child, retry)];
  }

  /** The job is created for the next nanosecond, and a worker registers. */
  lemma Creation(retry: RetryPolicy, patience: Time) returns (steps: seq<Step>)
    ensures Plausible(Guarded, START, steps, patience) && AllAnswered(steps)
    ensures var w := Run(START, steps);
      && w.core.jobs == map[1 := FreshJob(NewJob(2, 5, true, 0, retry, 1))] && w.now == 0
      && w.core.workers == map[7 := Worker(Healthy, 9, 0, 0)]
      && w.core.execs == map[] && w.core.queue == multiset{} && w.heirs == {}
  {
    var s1, s2 := DoCreate(1, NewJob(2, 5, true, 0, retry, 1), true), DoRegister(7, 9);
    Two(Guarded, START, s1, s2, patience);
    steps := [s1] + [s2];
  }

  /** Its time comes and it is promoted. */
  lemma Opening(retry: RetryPolicy, patience: Time) returns (steps: seq<Step>)
    ensures Plausible(Guarded, START, steps, patience) && AllAnswered(steps)
    ensures var w := Run(START, steps);
      && Stage(w, 0, retry) && w.core.jobs[1].state.Queued? && Msg(1, 0) in w.core.queue
      && w.core.jobs.Keys == {1} && w.core.execs == map[] && w.heirs == {}
  {
    var start := Creation(retry, patience);
    Two(Guarded, Run(START, start), DoTick(1), DoPromote(1), patience);
    Then(Guarded, START, start, [DoTick(1)] + [DoPromote(1)], patience);
    steps := start + ([DoTick(1)] + [DoPromote(1)]);
  }

  /** Job 1 completes its first attempt. */
  lemma FirstLife(retry: RetryPolicy, patience: Time) returns (steps: seq<Step>)
    ensures Plausible(Guarded, START, steps, patience) && AllAnswered(steps)
    ensures var w := Run(START, steps);
      && Stage(w, 1, retry) && w.core.jobs[1].state.Completed? && NothingOpen(w.core)
      && w.core.jobs.Keys == {1, 50} && w.core.execs.Keys == {11} && w.heirs == {Spawn(1, 50)}
  {
    var start := Opening(retry, patience);
    var more := Attempt(Run(START, start), 0, 11, 50, retry, patience);
    Then(Guarded, START, start, more, patience);
    steps := start + more;
  }

  /** For every retry policy, a guarded run in which a completed recurring job is created again, completes
      once more on a second attempt, and so has two successors. */
  lemma ReopenedForks(retry: RetryPolicy, patience: Time) returns (before: seq<Step>, after: seq<Step>)
    ensures var steps := before + ([DoResubmit(1)] + after);
      && Plausible(Guarded, START, steps, patience) && AllAnswered(steps)
      && 1 in Run(START, before).core.jobs && Run(START, before).core.jobs[1].state.Completed?
      && Children(Run(START, steps), 1) == {Spawn(1, 50), Spawn(1, 51)}
  {
    before := FirstLife(retry, patience);
    var w := Run(START, before);
    ResubmitStage(w, retry);
    Single(Guarded, w, DoResubmit(1), patience);
    after := Attempt(Apply(w, DoResubmit(1)), 1, 12, 51, retry, patience);
    Then(Guarded, w, [DoResubmit(1)], after, patience);
    Then(Guarded, START, before, [DoResubmit(1)] + after, patience);
  }
}
