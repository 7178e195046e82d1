/** Wild runs: what a job's record says is what happened. Its state names the kind of step that last
    wrote it, and its time stamps name the time of that step. */
module LastWrites {
  import opened Domain
  import opened Lifecycle
  import opened Views

  // ----- what a report and a delivery come to, by the fields of the report and of the message

  /** The job is taken as cancelled, whatever else the report says. */
  predicate CountsAsCancelled(j: Job, r: Report) {
    r.result.reason == ReasonCancelled || j.state == CancelRequested
  }

  /** What a report makes of a live job: exactly one of five states. A retry needs attempts left, and after a
      failure that is no timeout the result must be retryable too. */
  predicate Settles(j: Job, r: Report, now: Time, delay: Time, j': Job) {
    var cancelled := CountsAsCancelled(j, r);
    var failed := !cancelled && !r.result.success;
    var timedOut := r.result.reason == ReasonTimeout;
    && (j'.state == Cancelled <==> cancelled)
    && (j'.state == Completed <==> !cancelled && r.result.success)
    && (j'.state == Retrying <==> failed && r.attempt < j.maxAttempts && (timedOut || r.result.retryable))
    && (j'.state == TimedOut <==> failed && timedOut && j.maxAttempts <= r.attempt)
    && (j'.state == Failed <==> failed && !timedOut && (!r.result.retryable || j.maxAttempts <= r.attempt))
    && (j'.state == Retrying ==>
          && j'.nextRetryAt == Some(now + delay) && j'.completedAt == j.completedAt
          && j'.workerId == NO_ID && j'.execId == NO_ID)
    && (j'.state != Retrying ==>
          && j'.completedAt == Some(now) && j'.nextRetryAt == j.nextRetryAt
          && j'.workerId == j.workerId && j'.execId == j.execId)
    && j'.attempt == j.attempt && j'.queuedAt == j.queuedAt && j'.startedAt == j.startedAt
  }

  lemma ResultOutcome(c: Core, now: Time, r: Report, d: Draw)
    requires r.job in c.jobs && !Terminal(c.jobs[r.job].state) && d.childId !in c.jobs
    ensures r.job in HandleResult(c, now, r, d).jobs
    ensures Settles(c.jobs[r.job], r, now, d.delay, HandleResult(c, now, r, d).jobs[r.job])
  {
    ResultView(c, now, r, d, r.job);
  }

  lemma ReportOutcome(w: World, r: Report, d: Draw)
    requires Enabled(Wild, w, DoReport(r, d))
    requires r.job in w.core.jobs && !Terminal(w.core.jobs[r.job].state)
    ensures r.job in Apply(w, DoReport(r, d)).core.jobs
    ensures Settles(w.core.jobs[r.job], r, w.now, d.delay, Apply(w, DoReport(r, d)).core.jobs[r.job])
  {
    ResultOutcome(w.core, w.now, r, d);
  }

  /** The execution a report names is closed as the report says; every other is left alone, and so is
      every other job but the next occurrence. */
  lemma ReportCloses(w: World, r: Report, d: Draw, e: Id)
    requires Enabled(Wild, w, DoReport(r, d)) && e in w.core.execs && e != NO_ID
    requires r.job in w.core.jobs && !Terminal(w.core.jobs[r.job].state)
    ensures e in Apply(w, DoReport(r, d)).core.execs
    ensures
      var x, x' := w.core.execs[e], Apply(w, DoReport(r, d)).core.execs[e];
      x' == if e != r.exec then x else x.(state :=
        if CountsAsCancelled(w.core.jobs[r.job], r) then ExecCancelled
        else if r.result.success then ExecCompleted
        else if r.result.reason == ReasonTimeout then ExecTimeout else ExecFailed)
  {
  }

  /** A delivery to a worker starts a waiting job with the next attempt, at the time of the delivery, if the
      worker takes it; otherwise the job is assigned and keeps its old start time. The message stays
      exactly if the handler fails, and the worker has the work unless it refused. */
  lemma DeliveryOutcome(w: World, m: Msg, pick: Option<Id>, e: Id, push: PushOutcome)
    requires Enabled(Wild, w, DoDeliver(m, pick, e, push)) && m.job in w.core.jobs
    ensures var w' := Apply(w, DoDeliver(m, pick, e, push));
      var j := w.core.jobs[m.job];
      var waits := j.state == Queued || j.state == Scheduled || j.state == Retrying;
      && m.job in w'.core.jobs
      && (!waits || pick.None? ==> w'.core.jobs == w.core.jobs && w'.core.execs == w.core.execs)
      && (waits && pick.Some? ==>
            && w'.core.jobs[m.job] == j.(
                 state := if push == Accepted then Running else Assigned,
                 startedAt := if push == Accepted then Some(w.now) else j.startedAt,
                 workerId := pick.value, execId := e, attempt := m.attempt + 1)
            && w'.core.execs == w.core.execs[e := Execution(m.job, pick.value, m.attempt + 1, ExecPending)])
      && w'.core.queue ==
           (if waits && (pick.None? || push != Accepted) then w.core.queue else w.core.queue - multiset{m})
      && w'.pushes == w.pushes
           + if waits && pick.Some? && push != Refused then {Push(m.job, e, pick.value, m.attempt + 1)} else {}
  {
    DeliverView(w.core, w.now, m, pick, e, push, m.job);
    DeliverParts(w, DoDeliver(m, pick, e, push));
  }

  predicate Free(v: Worker) {
    v.status == Healthy && v.active < v.capacity
  }

  /** The worker that gets a job is free and no more loaded than any other free one; there is none exactly
      when all are full or not healthy. */
  lemma LeastLoaded(reg: Regime, w: World, m: Msg, pick: Option<Id>, e: Id, push: PushOutcome)
    requires Enabled(reg, w, DoDeliver(m, pick, e, push))
    ensures pick.Some? ==> pick.value in w.core.workers
    ensures pick.Some? ==> Free(w.core.workers[pick.value])
    ensures forall v :: v in w.core.workers && Free(w.core.workers[v]) ==>
      pick.Some? && w.core.workers[pick.value].active <= w.core.workers[v].active
  {
  }

  /** The watchdog's report retries a job if attempts are left and ends it as TIMEOUT otherwise; its
      execution is closed as timed out and its worker's slot is free again. */
  lemma TimeoutOutcome(w: World, id: Id, d: Draw)
    requires Enabled(Wild, w, DoWatchdog(id, d))
    ensures var w' := Apply(w, DoWatchdog(id, d));
      var j := w.core.jobs[id];
      && HasRecord(w', id,
           if j.attempt < j.maxAttempts
           then j.(state := Retrying, nextRetryAt := Some(w.now + d.delay), workerId := NO_ID, execId := NO_ID)
           else j.(state := TimedOut, completedAt := Some(w.now)))
      && (j.execId != NO_ID && j.execId in w.core.execs ==>
            w'.core.execs == w.core.execs[j.execId := w.core.execs[j.execId].(state := ExecTimeout)])
      && (j.workerId in w.core.workers && w.core.workers[j.workerId].active > 0 ==>
            && j.workerId in w'.core.workers
            && w'.core.workers[j.workerId].active == w.core.workers[j.workerId].active - 1)
  {
    ResultView(w.core, w.now, TimeoutReport(id, w.core.jobs[id]), d, id);
    ResultWorkers(w.core, w.now, TimeoutReport(id, w.core.jobs[id]), d);
  }

  // ----- the step that last wrote a record

  predicate HasRecord(w: World, id: Id, j: Job) {
    id in w.core.jobs && w.core.jobs[id] == j
  }

  /** The step makes the record what it is. */
  predicate Writes(w: World, s: Step, id: Id, j: Job) {
    !HasRecord(w, id, j) && HasRecord(Apply(w, s), id, j)
  }

  /** How a waiting job came to wait. */
  predicate PutToWait(w: World, s: Step, id: Id, j: Job) {
    match j.state
    case Scheduled =>
      || (s.DoCreate? && s.id == id && (w.now < s.n.scheduledAt || !s.up))
      || (s.DoReport? && s.draw.childId == id)
    case Queued =>
      && j.queuedAt == Some(w.now)
      && (|| (s.DoCreate? && s.id == id && s.n.scheduledAt <= w.now && s.up)
          || s == DoResubmit(id) || s == DoPromote(id) || s == DoPromoteMark(id))
    case Retrying =>
      && id in w.core.jobs && w.core.jobs[id].state != CancelRequested
      && j.workerId == NO_ID && j.execId == NO_ID
      && (|| (&& s.DoReport? && s.report.job == id && !s.report.result.success && s.report.attempt < j.maxAttempts
              && (s.report.result.reason == ReasonTimeout || s.report.result.retryable)
              && j.nextRetryAt == Some(w.now + s.draw.delay))
          || (s.DoWatchdog? && s.id == id && j.attempt < j.maxAttempts && j.nextRetryAt == Some(w.now + s.draw.delay))
          || (s == DoRecover(id) && j.attempt < j.maxAttempts && j.nextRetryAt == Some(w.now)))
    case _ => true
  }

  /** How a job came to be out on a worker. */
  predicate PutOut(w: World, s: Step, id: Id, j: Job) {
    match j.state
    case Assigned => Handed(s, id, j) && s.push != Accepted
    case Running => Handed(s, id, j) && s.push == Accepted && j.startedAt == Some(w.now)
    case CancelRequested =>
      s == DoCancel(id) && id in w.core.jobs && (w.core.jobs[id].state == Running || w.core.jobs[id].state == Assigned)
    case _ => true
  }

  predicate Handed(s: Step, id: Id, j: Job) {
    && s.DoDeliver? && s.msg.job == id && s.pick == Some(j.workerId) && s.exec == j.execId
    && j.attempt == s.msg.attempt + 1
  }

  predicate Reported(s: Step, id: Id) {
    s.DoReport? && s.report.job == id
  }

  /** How a job came to its end. */
  predicate PutToEnd(w: World, s: Step, id: Id, j: Job) {
    && (Terminal(j.state) ==> j.completedAt == Some(w.now) && id in w.core.jobs)
    && match j.state
       case Completed => Reported(s, id) && s.report.result.success && s.report.result.reason != ReasonCancelled
       case TimedOut =>
         || (&& Reported(s, id) && !s.report.result.success && s.report.result.reason == ReasonTimeout
             && j.maxAttempts <= s.report.attempt)
         || (s.DoWatchdog? && s.id == id && j.maxAttempts <= j.attempt)
       case Failed =>
         || (&& Reported(s, id) && !s.report.result.success && s.report.result.reason != ReasonTimeout
             && (!s.report.result.retryable || j.maxAttempts <= s.report.attempt))
         || (s == DoRecover(id) && j.maxAttempts <= j.attempt)
       case Cancelled =>
         || s == DoCancel(id)
         || (s == DoPushCancel(id) && j.workerId == NO_ID)
         || (Reported(s, id) && s.report.result.reason == ReasonCancelled)
         || ((Reported(s, id) || s == DoRecover(id)) && w.core.jobs[id].state == CancelRequested)
       case Created => false
       case Expired => false
       case _ => true
  }

  predicate Explains(w: World, s: Step, id: Id, j: Job) {
    PutToWait(w, s, id, j) && PutOut(w, s, id, j) && PutToEnd(w, s, id, j)
  }

  lemma ChangeExplained(w: World, s: Step, id: Id)
    requires Enabled(Wild, w, s) && id in w.core.jobs && After(w, s, id) != w.core.jobs[id]
    ensures Explains(w, s, id, After(w, s, id))
  {
  }

  lemma WriteExplained(w: World, s: Step, id: Id, j: Job)
    requires Enabled(Wild, w, s) && Writes(w, s, id, j)
    ensures Explains(w, s, id, j)
  {
    if id in w.core.jobs {
      View(w, s, id);
      ChangeExplained(w, s, id);
    } else {
      NewView(w, s, id);
    }
  }

  /** A run up to its last step, and that step. */
  lemma {:induction false} LastStep(reg: Regime, w: World, steps: seq<Step>)
    requires Legal(reg, w, steps) && steps != []
    ensures var n := |steps| - 1;
      && Legal(reg, w, steps[..n]) && Enabled(reg, Run(w, steps[..n]), steps[n])
      && Run(w, steps) == Apply(Run(w, steps[..n]), steps[n])
    decreases steps
  {
    var n := |steps| - 1;
    if n > 0 {
      LastStep(reg, Apply(w, steps[0]), steps[1..]);
      assert steps[..n][1..] == steps[1..][..n - 1];
    }
  }

  lemma {:induction false} Beginning(reg: Regime, w: World, steps: seq<Step>, n: nat)
    requires Legal(reg, w, steps) && n <= |steps|
    ensures Legal(reg, w, steps[..n])
    decreases |steps| - n
  {
    if n == |steps| {
      assert steps[..n] == steps;
    } else {
      Beginning(reg, w, steps, n + 1);
      LastStep(reg, w, steps[..n + 1]);
      assert steps[..n + 1][..n] == steps[..n];
    }
  }

  /** Step `i` wrote the record, and no later step has changed it. */
  ghost predicate LastWrittenBy(steps: seq<Step>, id: Id, j: Job, i: nat) {
    && i < |steps| && Writes(Run(START, steps[..i]), steps[i], id, j)
    && forall k :: i < k <= |steps| ==> HasRecord(Run(START, steps[..k]), id, j)
  }

  lemma {:induction false} FindLastWrite(steps: seq<Step>, id: Id) returns (i: nat)
    requires Legal(Wild, START, steps) && id in Run(START, steps).core.jobs
    ensures LastWrittenBy(steps, id, Run(START, steps).core.jobs[id], i)
    ensures Enabled(Wild, Run(START, steps[..i]), steps[i])
    decreases steps
  {
    var n := |steps| - 1;
    var j := Run(START, steps).core.jobs[id];
    LastStep(Wild, START, steps);
    var w := Run(START, steps[..n]);
    assert steps[..n + 1] == steps;
    if HasRecord(w, id, j) {
      i := FindLastWrite(steps[..n], id);
      assert forall k :: 0 <= k <= n ==> steps[..n][..k] == steps[..k];
    } else {
      i := n;
    }
  }

  /** Over every wild run each job's record was last written by a step of the kind its state names, for the
      reason its state gives, at the time its stamp gives. */
  lemma RecordsTellWhatHappened(steps: seq<Step>, id: Id) returns (i: nat)
    requires Legal(Wild, START, steps) && id in Run(START, steps).core.jobs
    ensures LastWrittenBy(steps, id, Run(START, steps).core.jobs[id], i)
    ensures Explains(Run(START, steps[..i]), steps[i], id, Run(START, steps).core.jobs[id])
  {
    i := FindLastWrite(steps, id);
    WriteExplained(Run(START, steps[..i]), steps[i], id, Run(START, steps).core.jobs[id]);
  }

  // ----- time

  lemma {:induction false} TimePasses(steps: seq<Step>, n: nat)
    requires Legal(Wild, START, steps) && n <= |steps|
    ensures Run(START, steps[..n]).now <= Run(START, steps).now
    decreases |steps| - n
  {
    if n == |steps| {
      assert steps[..n] == steps;
    } else {
      Beginning(Wild, START, steps, n + 1);
      LastStep(Wild, START, steps[..n + 1]);
      assert steps[..n + 1][..n] == steps[..n];
      TimePasses(steps, n + 1);
    }
  }

  /** Over every wild run a RUNNING job was started by an accepted delivery, when its start time says, and
      has been as it is since. */
  lemma RunningSince(steps: seq<Step>, id: Id) returns (i: nat)
    requires Legal(Wild, START, steps) && id in Run(START, steps).core.jobs
    requires Run(START, steps).core.jobs[id].state == Running
    ensures var j := Run(START, steps).core.jobs[id];
      && LastWrittenBy(steps, id, j, i)
      && Handed(steps[i], id, j) && steps[i].push == Accepted
      && j.startedAt == Some(Run(START, steps[..i]).now) && Run(START, steps[..i]).now <= Run(START, steps).now
  {
    i := RecordsTellWhatHappened(steps, id);
    TimePasses(steps, i);
  }

  /** The step hands the job to a worker, which takes it. */
  predicate Starts(w: World, s: Step, id: Id) {
    Hands(w, s) && s.msg.job == id && s.push == Accepted
  }

  lemma StartAfter(w: World, s: Step, id: Id)
    requires Enabled(Wild, w, s) && id in w.core.jobs
    ensures After(w, s, id).startedAt == if Starts(w, s, id) then Some(w.now) else w.core.jobs[id].startedAt
  {
  }

  /** Step `i` is the last to start the job; if there is none, no step does. */
  ghost predicate LastStart(steps: seq<Step>, id: Id, i: Option<nat>) {
    && (i.Some? ==> i.value < |steps| && Starts(Run(START, steps[..i.value]), steps[i.value], id))
    && forall k {:trigger steps[k]} :: (if i.Some? then i.value + 1 else 0) <= k < |steps| ==>
         !Starts(Run(START, steps[..k]), steps[k], id)
  }

  lemma LastStartOn(steps: seq<Step>, id: Id, i: Option<nat>)
    requires steps != [] && LastStart(steps[..|steps| - 1], id, i)
    requires !Starts(Run(START, steps[..|steps| - 1]), steps[|steps| - 1], id)
    ensures LastStart(steps, id, i)
  {
    var n := |steps| - 1;
    if i.Some? { assert steps[..n][..i.value] == steps[..i.value]; }
    forall k | (if i.Some? then i.value + 1 else 0) <= k < |steps|
      ensures !Starts(Run(START, steps[..k]), steps[k], id)
    {
      if k < n { assert steps[..n][k] == steps[k] && steps[..n][..k] == steps[..k]; }
    }
  }

  /** Over every wild run a job's start time is that of the last delivery a worker took, and none if no
      worker ever took it. */
  lemma {:induction false} StartTimes(steps: seq<Step>, id: Id) returns (i: Option<nat>)
    requires Legal(Wild, START, steps)
    ensures LastStart(steps, id, i)
    ensures id !in Run(START, steps).core.jobs ==> i.None?
    ensures id in Run(START, steps).core.jobs ==>
      Run(START, steps).core.jobs[id].startedAt == if i.Some? then Some(Run(START, steps[..i.value]).now) else None
    decreases steps
  {
    if steps == [] {
      i := None;
    } else {
      var n := |steps| - 1;
      LastStep(Wild, START, steps);
      var w := Run(START, steps[..n]);
      i := StartTimes(steps[..n], id);
      if Starts(w, steps[n], id) {
        i := Some(n);
      } else {
        LastStartOn(steps, id, i);
        assert i.Some? ==> steps[..n][..i.value] == steps[..i.value];
      }
      if id in w.core.jobs {
        View(w, steps[n], id);
        StartAfter(w, steps[n], id);
      } else if id in Run(START, steps).core.jobs {
        NewView(w, steps[n], id);
      }
    }
  }

  /** So over every wild run the watchdog may report a job exactly when it is RUNNING or ASSIGNED and a worker
      last took it longer ago than its timeout, or than thirty seconds if it has none. For an ASSIGNED job
      that is an earlier attempt. */
  lemma WatchdogExactly(steps: seq<Step>, id: Id, d: Draw) returns (i: Option<nat>)
    requires Legal(Wild, START, steps) && id in Run(START, steps).core.jobs && FreshDraw(Run(START, steps), d)
    ensures LastStart(steps, id, i)
    ensures var w := Run(START, steps);
      var j := w.core.jobs[id];
      Enabled(Wild, w, DoWatchdog(id, d)) <==>
        && (j.state == Running || j.state == Assigned) && i.Some?
        && (if j.timeout > 0 then j.timeout else 30_000_000_000) < w.now - Run(START, steps[..i.value]).now
  {
    i := StartTimes(steps, id);
  }

  /** Over every wild run a job may be promoted exactly when it is SCHEDULED and its time has come, or
      RETRYING and the delay of the step that sent it there has passed. */
  lemma PromotionExactly(steps: seq<Step>, id: Id) returns (i: nat)
    requires Legal(Wild, START, steps) && id in Run(START, steps).core.jobs
    ensures LastWrittenBy(steps, id, Run(START, steps).core.jobs[id], i)
    ensures var w := Run(START, steps);
      var j, since := w.core.jobs[id], Run(START, steps[..i]).now;
      && j.scheduledAt.Some?
      && (Enabled(Wild, w, DoPromote(id)) <==>
            || (j.state == Scheduled && j.scheduledAt.value <= w.now)
            || (j.state == Retrying && since + DelayBy(steps[i]) <= w.now))
  {
    i := RecordsTellWhatHappened(steps, id);
    HasSchedule(steps, id);
  }

  /** The delay that comes with the step. */
  function DelayBy(s: Step): Time {
    if s.DoReport? || s.DoWatchdog? then s.draw.delay else 0
  }

  lemma {:induction false} HasSchedule(steps: seq<Step>, id: Id)
    requires Legal(Wild, START, steps) && id in Run(START, steps).core.jobs
    ensures Run(START, steps).core.jobs[id].scheduledAt.Some?
    decreases steps
  {
    LastStep(Wild, START, steps);
    var n := |steps| - 1;
    var w := Run(START, steps[..n]);
    if id in w.core.jobs {
      HasSchedule(steps[..n], id);
      View(w, steps[n], id);
    } else {
      NewView(w, steps[n], id);
    }
  }

  // ----- a push that does not go through

  /** A step that frees an ASSIGNED job. */
  predicate Frees(w: World, s: Step, id: Id) {
    || Reported(s, id) || s == DoRecover(id) || s == DoCancel(id)
    || (s == DoResubmit(id) && id in w.core.jobs && w.core.jobs[id].scheduledAt.Some?
        && w.core.jobs[id].scheduledAt.value <= w.now)
  }

  ghost predicate Freed(w: World, steps: seq<Step>, id: Id)
    decreases steps
  {
    steps != [] && (Frees(w, steps[0], id) || Freed(Apply(w, steps[0]), steps[1..], id))
  }

  ghost predicate StaysAs(w: World, steps: seq<Step>, id: Id, j: Job)
    decreases steps
  {
    HasRecord(w, id, j) && (steps != [] ==> StaysAs(Apply(w, steps[0]), steps[1..], id, j))
  }

  lemma OnlyFreed(w: World, s: Step, id: Id)
    requires Enabled(Wild, w, s) && id in w.core.jobs
    requires w.core.jobs[id].state == Assigned && w.core.jobs[id].startedAt.None?
    ensures After(w, s, id) == w.core.jobs[id] <==> !Frees(w, s, id)
  {
  }

  /** A job whose first push does not go through is ASSIGNED without a start time. No message and no timeout
      moves it again: it stays as it is if and only if the run holds no report on it, no loss of its
      worker, no cancel and no due resubmission. */
  lemma {:induction false} RefusedPushWaits(w: World, steps: seq<Step>, id: Id)
    requires Legal(Wild, w, steps) && id in w.core.jobs
    requires w.core.jobs[id].state == Assigned && w.core.jobs[id].startedAt.None?
    ensures StaysAs(w, steps, id, w.core.jobs[id]) <==> !Freed(w, steps, id)
    decreases steps
  {
    if steps != [] {
      View(w, steps[0], id);
      OnlyFreed(w, steps[0], id);
      if !Frees(w, steps[0], id) { RefusedPushWaits(Apply(w, steps[0]), steps[1..], id); }
    }
  }
}
