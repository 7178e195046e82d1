/** Why the late writes are named: a recovery lists the jobs of a lost worker and then writes them without
    looking again, so what happened to a job in between is undone. */
module StaleWrites {
  import opened Domain
  import opened Lifecycle
  import opened Views
  import opened PlausibleRuns
  import opened StaleReports
  import Backoff

  const DONE := Report(1, 11, 7, 1, Result(true, false, ReasonSuccess))

  function Success(retry: RetryPolicy): Step {
    DoReport(DONE, Draw(Backoff.Delay(retry, 1, 0.0), 99, None))
  }

  /** The worker has been given up and the recovery has listed its job. */
  lemma Listed(retry: RetryPolicy, patience: Time) returns (steps: seq<Step>)
    requires patience >= 0
    ensures Plausible(Racy, START, steps, patience)
    ensures var w := Run(START, steps);
      && Scene(w, patience + 1, 1, multiset{}, retry) && w.core.workers == map[]
      && w.core.jobs[1].state.Running? && w.core.jobs[1].workerId == 7
      && Push(1, 11, 7, 1) in w.pushes
  {
    var start := Opening(retry, patience);
    var lost := GiveUpScene(Run(START, start), 0, retry, patience);
    Then(Wild, START, start, lost, patience);
    steps := start + lost;
    WildPlausibleIsRacy(START, steps, patience);
  }

  lemma {:induction false} WildPlausibleIsRacy(w: World, steps: seq<Step>, patience: Time)
    requires Plausible(Wild, w, steps, patience)
    ensures Plausible(Racy, w, steps, patience)
    decreases steps
  {
    if steps != [] { WildPlausibleIsRacy(Apply(w, steps[0]), steps[1..], patience); }
  }

  /** What the recovery writes of a record with attempts left. */
  lemma WriteScene(w: World, read: Job)
    requires 1 in w.core.jobs && Active(read.state) && !read.state.CancelRequested? && read.attempt < read.maxAttempts
    ensures Enabled(Racy, w, DoWrite(RecoveryWrite(1, read)))
    ensures var w' := Apply(w, DoWrite(RecoveryWrite(1, read)));
      1 in w'.core.jobs && w'.core.jobs[1].state.Retrying?
  {
    RacyView(w, DoWrite(RecoveryWrite(1, read)), 1);
  }

  /** The worker's success arrives after the listing and completes the job; the write makes it RETRYING, to
      be run again, although nobody created it again. */
  lemma CompletedIsOverwritten(retry: RetryPolicy, patience: Time) returns (before: seq<Step>, read: Job)
    requires patience >= 0
    ensures var steps := before + ([Success(retry)] + [DoWrite(RecoveryWrite(1, read))]);
      && Plausible(Racy, START, steps, patience)
      && 1 in Run(START, before).core.jobs && read == Run(START, before).core.jobs[1] && Active(read.state)
      && Push(DONE.job, DONE.exec, DONE.worker, DONE.attempt) in Run(START, before).pushes
      && 1 in Apply(Run(START, before), Success(retry)).core.jobs
      && Apply(Run(START, before), Success(retry)).core.jobs[1].state.Completed?
      && 1 in Run(START, steps).core.jobs && Run(START, steps).core.jobs[1].state.Retrying?
  {
    before := Listed(retry, patience);
    var w := Run(START, before);
    read := w.core.jobs[1];
    View(w, Success(retry), 1);
    WriteScene(Apply(w, Success(retry)), read);
    Two(Racy, w, Success(retry), DoWrite(RecoveryWrite(1, read)), patience);
    Then(Racy, START, before, [Success(retry)] + [DoWrite(RecoveryWrite(1, read))], patience);
  }

  /** The same with a cancel in between: the request is gone and the job will run again. */
  lemma CancelIsOverwritten(retry: RetryPolicy, patience: Time) returns (before: seq<Step>, read: Job)
    requires patience >= 0
    ensures var steps := before + ([DoCancel(1)] + [DoWrite(RecoveryWrite(1, read))]);
      && Plausible(Racy, START, steps, patience)
      && 1 in Run(START, before).core.jobs && read == Run(START, before).core.jobs[1] && Active(read.state)
      && 1 in Apply(Run(START, before), DoCancel(1)).core.jobs
      && Apply(Run(START, before), DoCancel(1)).core.jobs[1].state.CancelRequested?
      && 1 in Run(START, steps).core.jobs && Run(START, steps).core.jobs[1].state.Retrying?
  {
    before := Listed(retry, patience);
    var w := Run(START, before);
    read := w.core.jobs[1];
    View(w, DoCancel(1), 1);
    WriteScene(Apply(w, DoCancel(1)), read);
    Two(Racy, w, DoCancel(1), DoWrite(RecoveryWrite(1, read)), patience);
    Then(Racy, START, before, [DoCancel(1)] + [DoWrite(RecoveryWrite(1, read))], patience);
  }
}
