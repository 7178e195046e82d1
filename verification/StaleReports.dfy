/** Why the guard on reports is needed: `HandleResult` does not compare the reported execution or
    attempt with the job's current ones, so a report that arrives late can cost the job its
    execution and its budget. */
module StaleReports {
  import opened Domain
  import opened Lifecycle
  import opened Views
  import opened PlausibleRuns
  import Backoff

  /** One job with two attempts, and the given time and queue. */
  ghost predicate Scene(w: World, now: Time, attempt: int, queue: multiset<Msg>, retry: RetryPolicy) {
    && w.core.jobs.Keys == {1} && w.core.queue == queue && w.now == now
    && w.core.jobs[1].attempt == attempt && w.core.jobs[1].maxAttempts == 2 && w.core.jobs[1].retry == retry
  }

  /** Worker 7 alone, with this load and last heard of at this time. */
  ghost predicate Fleet(w: World, load: nat, beat: Time) {
    w.core.workers == map[7 := Worker(Healthy, 9, load, beat)]
  }

  function HandOut(attempt: int, e: Id): Step {
    DoDeliver(Msg(1, attempt), Some(7), e, Accepted)
  }

  /** The report of the first attempt, failed. */
  const FIRST := Report(1, 11, 7, 1, Result(false, true, ReasonFailed))

  function Late(retry: RetryPolicy, x: real): Step
    requires 0.0 <= x < 1.0
  {
    DoReport(FIRST, Draw(Backoff.Delay(retry, 1, x), 99, None))
  }

  lemma HandOutScene(w: World, now: Time, attempt: int, retry: RetryPolicy, load: nat, beat: Time, e: Id)
    requires Scene(w, now, attempt, multiset{Msg(1, attempt)}, retry) && Fleet(w, load, beat) && load < 9
    requires w.core.jobs[1].state.Queued? && e != NO_ID && e !in w.core.execs
    ensures Enabled(Wild, w, HandOut(attempt, e))
    ensures var w' := Apply(w, HandOut(attempt, e));
      && Scene(w', now, attempt + 1, multiset{}, retry) && Fleet(w', load + 1, beat)
      && w'.core.jobs[1].state.Running? && w'.core.jobs[1].execId == e && w'.core.jobs[1].workerId == 7
      && w'.core.execs == w.core.execs[e := Execution(1, 7, attempt + 1, ExecPending)]
      && w'.pushes == w.pushes + {Push(1, e, 7, attempt + 1)}
  {
    WorkersView(w, HandOut(attempt, e));
    QueueView(w, HandOut(attempt, e));
    View(w, HandOut(attempt, e), 1);
  }

  /** Promotion, then a hand-out, of a job that is due. */
  lemma AgainScene(
    w: World, now: Time, attempt: int, retry: RetryPolicy, load: nat, beat: Time, e: Id, patience: Time)
    returns (steps: seq<Step>)
    requires Scene(w, now, attempt, multiset{}, retry) && Fleet(w, load, beat) && load < 9
    requires Due(w.core.jobs[1], now) && e != NO_ID && e !in w.core.execs
    ensures Plausible(Wild, w, steps, patience)
    ensures var w' := Run(w, steps);
      && Scene(w', now, attempt + 1, multiset{}, retry) && Fleet(w', load + 1, beat)
      && w'.core.jobs[1].state.Running? && w.pushes <= w'.pushes
      && w'.core.execs == w.core.execs[e := Execution(1, 7, attempt + 1, ExecPending)]
      && w'.core.execs.Keys == w.core.execs.Keys + {e} && Open(w'.core, e) && w'.core.execs[e].job == 1
  {
    var w1 := Apply(w, DoPromote(1));
    assert w1.core.jobs[1].state.Queued?;
    HandOutScene(w1, now, attempt, retry, load, beat, e);
    Two(Wild, w, DoPromote(1), HandOut(attempt, e), patience);
    steps := [DoPromote(1)] + [HandOut(attempt, e)];
  }

  lemma LateScene(w: World, now: Time, retry: RetryPolicy, x: real, load: nat, beat: Time)
    requires 0.0 <= x < 1.0 && Scene(w, now, 2, multiset{}, retry) && Fleet(w, load + 1, beat)
    requires w.core.jobs[1].state.Running? && 11 in w.core.execs
    ensures Enabled(Wild, w, Late(retry, x))
    ensures var w' := Apply(w, Late(retry, x));
      && Scene(w', now, 2, multiset{}, retry) && Fleet(w', load, beat)
      && w'.core.jobs[1].state.Retrying? && w'.core.jobs[1].nextRetryAt == Some(now + Backoff.Delay(retry, 1, x))
      && w'.core.execs == w.core.execs[11 := w.core.execs[11].(state := ExecFailed)]
  {
    WorkersView(w, Late(retry, x));
    QueueView(w, Late(retry, x));
    View(w, Late(retry, x), 1);
  }

  /** Two executions of job 1 are open, and one is beyond its two attempts. */
  ghost predicate Broken(c: Core) {
    && 1 in c.jobs && Budget(c.jobs[1]) == 2
    && Open(c, 12) && Open(c, 13) && c.execs[12].job == c.execs[13].job == 1
    && c.execs[13].attempt == 3
  }

  /** After the late report: the delay passes and the job is handed out once more. */
  lemma AfterLate(w: World, now: Time, retry: RetryPolicy, delay: Time, beat: Time, patience: Time)
    returns (steps: seq<Step>)
    requires Scene(w, now, 2, multiset{}, retry) && Fleet(w, 0, beat) && delay >= 0
    requires w.core.jobs[1].state.Retrying? && w.core.jobs[1].nextRetryAt == Some(now + delay)
    requires w.core.execs.Keys == {11, 12} && Open(w.core, 12) && w.core.execs[12].job == 1
    ensures Plausible(Wild, w, steps, patience) && Broken(Run(w, steps).core)
  {
    Single(Wild, w, DoTick(delay), patience);
    var again := AgainScene(Apply(w, DoTick(delay)), now + delay, 2, retry, 0, beat, 13, patience);
    Then(Wild, w, [DoTick(delay)], again, patience);
    steps := [DoTick(delay)] + again;
  }

  // ----- the loss of the worker

  /** The worker is silent for longer than the patience, and is given up. */
  lemma GiveUpScene(w: World, now: Time, retry: RetryPolicy, patience: Time) returns (steps: seq<Step>)
    requires Scene(w, now, 1, multiset{}, retry) && Fleet(w, 1, now) && patience >= 0
    ensures Plausible(Wild, w, steps, patience)
    ensures var w' := Run(w, steps);
      && Scene(w', now + patience + 1, 1, multiset{}, retry) && w'.core.workers == map[]
      && w'.core.jobs == w.core.jobs && w'.core.execs == w.core.execs && w'.pushes == w.pushes
  {
    Two(Wild, w, DoTick(patience + 1), DoDeregister(7), patience);
    assert w.core.workers - {7} == map[];
    steps := [DoTick(patience + 1)] + [DoDeregister(7)];
  }

  lemma RecoverScene(w: World, now: Time, retry: RetryPolicy)
    requires Scene(w, now, 1, multiset{}, retry) && w.core.workers == map[] && w.core.jobs[1].state.Running?
    requires w.core.execs.Keys == {11}
    ensures Enabled(Wild, w, DoRecover(1))
    ensures var w' := Apply(w, DoRecover(1));
      && Scene(w', now, 1, multiset{}, retry) && w'.core.workers == map[] && Due(w'.core.jobs[1], now)
      && w'.core.execs.Keys == {11} && w'.pushes == w.pushes
  {
    View(w, DoRecover(1), 1);
    WorkersView(w, DoRecover(1));
  }

  /** Its job is recovered, and the worker registers again. */
  lemma ReturnScene(w: World, now: Time, retry: RetryPolicy, patience: Time) returns (steps: seq<Step>)
    requires Scene(w, now, 1, multiset{}, retry) && w.core.workers == map[] && w.core.jobs[1].state.Running?
    requires w.core.execs.Keys == {11}
    ensures Plausible(Wild, w, steps, patience)
    ensures var w' := Run(w, steps);
      && Scene(w', now, 1, multiset{}, retry) && Fleet(w', 0, now) && Due(w'.core.jobs[1], now)
      && w'.core.execs.Keys == {11} && w'.pushes == w.pushes
  {
    RecoverScene(w, now, retry);
    var w1 := Apply(w, DoRecover(1));
    Single(Wild, w, DoRecover(1), patience);
    Two(Wild, w1, DoDropPending(7), DoRegister(7, 9), patience);
    Then(Wild, w, [DoRecover(1)], [DoDropPending(7)] + [DoRegister(7, 9)], patience);
    steps := [DoRecover(1)] + ([DoDropPending(7)] + [DoRegister(7, 9)]);
  }

  /** The worker is lost and comes back. */
  lemma LostAndBack(w: World, now: Time, retry: RetryPolicy, patience: Time, later: Time) returns (steps: seq<Step>)
    requires Scene(w, now, 1, multiset{}, retry) && Fleet(w, 1, now) && patience >= 0 && later == now + patience + 1
    requires w.core.jobs[1].state.Running? && w.core.execs.Keys == {11}
    ensures Plausible(Wild, w, steps, patience)
    ensures var w' := Run(w, steps);
      && Scene(w', later, 1, multiset{}, retry) && Fleet(w', 0, later) && Due(w'.core.jobs[1], later)
      && w'.core.execs.Keys == {11} && w'.pushes == w.pushes
  {
    var lost := GiveUpScene(w, now, retry, patience);
    var back := ReturnScene(Run(w, lost), later, retry, patience);
    Then(Wild, w, lost, back, patience);
    steps := lost + back;
  }

  /** From the first hand-out to the second. */
  lemma AfterFirst(w: World, now: Time, retry: RetryPolicy, patience: Time, later: Time) returns (steps: seq<Step>)
    requires Scene(w, now, 1, multiset{}, retry) && Fleet(w, 1, now) && patience >= 0 && later == now + patience + 1
    requires w.core.jobs[1].state.Running? && w.core.execs.Keys == {11}
    ensures Plausible(Wild, w, steps, patience)
    ensures var w' := Run(w, steps);
      && Scene(w', later, 2, multiset{}, retry) && Fleet(w', 1, later) && w'.core.jobs[1].state.Running?
      && w.pushes <= w'.pushes
      && w'.core.execs.Keys == {11, 12} && Open(w'.core, 12) && w'.core.execs[12].job == 1
  {
    var back := LostAndBack(w, now, retry, patience, later);
    var w1 := Run(w, back);
    var again := AgainScene(w1, later, 1, retry, 0, later, 12, patience);
    assert w1.core.execs.Keys + {12} == {11, 12};
    Then(Wild, w, back, again, patience);
    steps := back + again;
  }

  /** A job is created and a worker registers. */
  lemma Beginning(retry: RetryPolicy, patience: Time) returns (steps: seq<Step>)
    ensures Plausible(Wild, START, steps, patience)
    ensures var w := Run(START, steps);
      && Scene(w, 0, 0, multiset{Msg(1, 0)}, retry) && Fleet(w, 0, 0) && w.core.execs == map[]
      && w.core.jobs[1].state.Queued?
  {
    var s1, s2 := DoCreate(1, NewJob(2, NO_ID, false, 0, retry, 0), true), DoRegister(7, 9);
    assert Apply(START, s1).core.jobs[1].state.Queued?;
    Two(Wild, START, s1, s2, patience);
    steps := [s1] + [s2];
  }

  /** Up to the first hand-out. */
  lemma Opening(retry: RetryPolicy, patience: Time) returns (steps: seq<Step>)
    ensures Plausible(Wild, START, steps, patience)
    ensures var w := Run(START, steps);
      && Scene(w, 0, 1, multiset{}, retry) && Fleet(w, 1, 0) && w.core.execs.Keys == {11}
      && w.core.jobs[1].state.Running? && w.core.jobs[1].workerId == 7 && w.core.jobs[1].execId == 11
      && Push(1, 11, 7, 1) in w.pushes
  {
    var start := Beginning(retry, patience);
    var w := Run(START, start);
    HandOutScene(w, 0, 0, retry, 0, 0, 11);
    Single(Wild, w, HandOut(0, 11), patience);
    Then(Wild, START, start, [HandOut(0, 11)], patience);
    steps := start + [HandOut(0, 11)];
  }

  /** Up to the second hand-out. */
  lemma BeforeLate(retry: RetryPolicy, patience: Time) returns (steps: seq<Step>)
    requires patience >= 0
    ensures Plausible(Wild, START, steps, patience)
    ensures var w, later := Run(START, steps), patience + 1;
      && Scene(w, later, 2, multiset{}, retry) && Fleet(w, 1, later) && w.core.jobs[1].state.Running?
      && Push(FIRST.job, FIRST.exec, FIRST.worker, FIRST.attempt) in w.pushes
      && w.core.execs.Keys == {11, 12} && Open(w.core, 12) && w.core.execs[12].job == 1
  {
    var start := Opening(retry, patience);
    var more := AfterFirst(Run(START, start), 0, retry, patience, patience + 1);
    Then(Wild, START, start, more, patience);
    steps := start + more;
  }

  /** For every retry policy, every draw and every patience of the health check: a run in which one late
      report, of work that was handed out, leaves a job with two open executions at once, the second
      above its budget of two attempts. */
  lemma LateReportBreaks(retry: RetryPolicy, x: real, patience: Time) returns (before: seq<Step>, after: seq<Step>)
    requires 0.0 <= x < 1.0 && patience >= 0
    ensures Plausible(Wild, START, before + ([Late(retry, x)] + after), patience)
    ensures Push(FIRST.job, FIRST.exec, FIRST.worker, FIRST.attempt) in Run(START, before).pushes
    ensures Broken(Run(START, before + ([Late(retry, x)] + after)).core)
  {
    before := BeforeLate(retry, patience);
    var w, later := Run(START, before), patience + 1;
    LateScene(w, later, retry, x, 0, later);
    Single(Wild, w, Late(retry, x), patience);
    Backoff.DelayIsNotNegative(retry, 1, x);
    after := AfterLate(Apply(w, Late(retry, x)), later, retry, Backoff.Delay(retry, 1, x), later, patience);
    Then(Wild, w, [Late(retry, x)], after, patience);
    Then(Wild, START, before, [Late(retry, x)] + after, patience);
  }
}
