/** Strict runs: the delays `HandleResult` schedules for one job add up to at most
    1.5 * MaxDelay * max(0, MaxAttempts - 1). */
module RetryDelays {
  import opened Domain
  import opened Lifecycle
  import opened Views
  import Backoff
  import Guard = OneExecution
  import StrictRuns

  /** The delay drawn for a result is what `computeBackoff` gives for the job's policy and the
      reported attempt, for some random number. */
  ghost predicate Drawn(w: World, id: Id, attempt: int, delay: Time) {
    id in w.core.jobs ==>
      exists x: real :: 0.0 <= x < 1.0 && delay == Backoff.Delay(w.core.jobs[id].retry, attempt, x)
  }

  ghost predicate DelaysDrawn(w: World, s: Step) {
    match s
    case DoReport(r, d) => Drawn(w, r.job, r.attempt, d.delay)
    case DoWatchdog(k, d) => k in w.core.jobs ==> Drawn(w, k, w.core.jobs[k].attempt, d.delay)
    case _ => true
  }

  ghost predicate AllDrawn(w: World, steps: seq<Step>)
    decreases steps
  {
    steps != [] ==> DelaysDrawn(w, steps[0]) && AllDrawn(Apply(w, steps[0]), steps[1..])
  }

  /** The delay this step schedules for the job: zero unless a result sends it to RETRYING. */
  function DelayOf(w: World, s: Step, id: Id): Time {
    if id !in w.core.jobs || Terminal(w.core.jobs[id].state) then 0
    else match s
      case DoReport(r, d) =>
        if r.job == id && Verdict(w.core.jobs[id], r).0.Retrying? then d.delay else 0
      case DoWatchdog(k, d) =>
        if k == id && Verdict(w.core.jobs[id], TimeoutReport(id, w.core.jobs[id])).0.Retrying? then d.delay else 0
      case _ => 0
  }

  function Total(w: World, steps: seq<Step>, id: Id): Time
    decreases steps
  {
    if steps == [] then 0 else DelayOf(w, steps[0], id) + Total(Apply(w, steps[0]), steps[1..], id)
  }

  /** How many more times a result can send the job to RETRYING. */
  function RetriesLeft(j: Job): int {
    match j.state
    case Running => Budget(j) - j.attempt
    case Scheduled => Budget(j) - j.attempt - 1
    case Queued => Budget(j) - j.attempt - 1
    case Retrying => Budget(j) - j.attempt - 1
    case _ => 0
  }

  /** A step scheduling a delay uses up a retry. */
  lemma StepRetries(w: World, s: Step, id: Id)
    requires StrictRuns.Inv(w) && Guard.Inv(w) && Enabled(Strict, w, s) && id in w.core.jobs
    ensures var j, j' := w.core.jobs[id], After(w, s, id);
      && j'.retry == j.retry && Budget(j') == Budget(j)
      && 0 <= RetriesLeft(j') <= RetriesLeft(j)
      && (DelayOf(w, s, id) != 0 ==> RetriesLeft(j') < RetriesLeft(j))
  {
    assert Guard.JobOk(w.core, w.now, id);
    assert StrictRuns.JobFits(w.core, w.now, id);
    if s.DoDeliver? { assert StrictRuns.MsgFits(w.core, s.msg); }
    if s.DoReport? { StrictRuns.ReportFinds(w, s); }
  }

  lemma StepCost(w: World, s: Step, id: Id)
    requires id in w.core.jobs && DelaysDrawn(w, s) && w.core.jobs[id].retry.maxDelay > 0
    ensures 0 <= 2 * DelayOf(w, s, id) <= 3 * w.core.jobs[id].retry.maxDelay
  {
    if DelayOf(w, s, id) != 0 {
      var a := if s.DoReport? then s.report.attempt else w.core.jobs[id].attempt;
      var x: real :| 0.0 <= x < 1.0 && s.draw.delay == Backoff.Delay(w.core.jobs[id].retry, a, x);
      Backoff.DelayBound(w.core.jobs[id].retry, a, x);
    }
  }

  lemma {:induction false} RunCost(w: World, steps: seq<Step>, id: Id)
    requires StrictRuns.Inv(w) && Guard.Inv(w) && Legal(Strict, w, steps) && id in w.core.jobs
    requires AllDrawn(w, steps) && w.core.jobs[id].retry.maxDelay > 0
    ensures RetriesLeft(w.core.jobs[id]) >= 0
    ensures 2 * Total(w, steps, id) <= 3 * w.core.jobs[id].retry.maxDelay * RetriesLeft(w.core.jobs[id])
    decreases steps
  {
    assert Guard.JobOk(w.core, w.now, id);
    if steps != [] {
      var s := steps[0];
      StrictRuns.StricterStep(w, s);
      View(w, s, id);
      StepRetries(w, s, id);
      StepCost(w, s, id);
      Guard.StepKeeps(w, s);
      StrictRuns.StepKeeps(w, s);
      RunCost(Apply(w, s), steps[1..], id);
      Charge(3 * w.core.jobs[id].retry.maxDelay, RetriesLeft(w.core.jobs[id]), RetriesLeft(After(w, s, id)),
             2 * DelayOf(w, s, id), 2 * Total(Apply(w, s), steps[1..], id));
    }
  }

  lemma Charge(cap: int, before: int, after: int, now: int, rest: int)
    requires 0 <= after <= before && 0 <= now <= cap && (now != 0 ==> after < before)
    requires rest <= cap * after
    ensures now + rest <= cap * before
  {
    if now == 0 { MulMonotone(cap, after, before); } else { MulMonotone(cap, after + 1, before); }
  }

  lemma MulMonotone(k: int, x: int, y: int)
    requires 0 <= k && x <= y
    ensures k * x <= k * y
  {
    assert k * y - k * x == k * (y - x);
  }

  /** However a strict run began, the delays scheduled for a job from there on are bounded. */
  lemma BoundedDelays(before: seq<Step>, after: seq<Step>, id: Id)
    requires Legal(Strict, START, before) && Legal(Strict, Run(START, before), after)
    requires id in Run(START, before).core.jobs && Run(START, before).core.jobs[id].retry.maxDelay > 0
    requires AllDrawn(Run(START, before), after)
    ensures
      var j := Run(START, before).core.jobs[id];
      2 * Total(Run(START, before), after, id) <= 3 * j.retry.maxDelay * (Budget(j) - 1)
  {
    var w := Run(START, before);
    var j := w.core.jobs[id];
    StrictRuns.RunKeeps(START, before);
    assert Guard.JobOk(w.core, w.now, id);
    if Active(j.state) { assert Guard.ExecOk(w.core, w.now, j.execId); }
    RunCost(w, after, id);
    Charge(3 * j.retry.maxDelay, Budget(j) - 1, RetriesLeft(j), 0, 3 * j.retry.maxDelay * RetriesLeft(j));
  }
}
