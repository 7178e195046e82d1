/** The cancellations a scheduler keeps for its workers: over every wild run exactly those that were pushed
    and not answered since. */
module PendingCancels {
  import opened Domain
  import opened Lifecycle
  import opened LastWrites

  /** The worker is to cancel the job when it next asks. */
  predicate Pending(c: Core, v: Id, id: Id) {
    v in c.cancels && id in c.cancels[v]
  }

  /** The step puts the job on the worker's list: its cancellation is pushed while the worker has it. */
  predicate Adds(w: World, s: Step, v: Id, id: Id) {
    s == DoPushCancel(id) && v != NO_ID && id in w.core.jobs && w.core.jobs[id].workerId == v
  }

  /** The step takes it off: a result of the worker on the job, its timeout, or the loss of the worker. */
  predicate Clears(w: World, s: Step, v: Id, id: Id) {
    || (s.DoReport? && s.report.worker == v && s.report.job == id)
    || (s.DoWatchdog? && s.id == id && id in w.core.jobs && w.core.jobs[id].workerId == v)
    || s == DoDropPending(v)
  }

  /** No list is kept empty. */
  ghost predicate NoEmptyList(c: Core) {
    forall v {:trigger c.cancels[v]} :: v in c.cancels ==> c.cancels[v] != {}
  }

  lemma ResultClears(c: Core, now: Time, r: Report, d: Draw, v: Id, id: Id)
    ensures Pending(HandleResult(c, now, r, d), v, id) <==> Pending(c, v, id) && !(r.worker == v && r.job == id)
    ensures NoEmptyList(c) ==> NoEmptyList(HandleResult(c, now, r, d))
  {
    ResultLists(c, now, r, d);
    OneCleared(c, r.worker, r.job, v, id);
  }

  lemma ResultLists(c: Core, now: Time, r: Report, d: Draw)
    ensures HandleResult(c, now, r, d).cancels == ClearPending(c, r.worker, r.job).cancels
  {
    ListsOnly(c, r.worker, r.worker, r.job);
  }

  lemma ListsOnly(c: Core, u: Id, v: Id, id: Id)
    ensures ClearPending(ReleaseSlot(c, u), v, id).cancels == ClearPending(c, v, id).cancels
  {
  }

  lemma OneCleared(c: Core, u: Id, k: Id, v: Id, id: Id)
    ensures Pending(ClearPending(c, u, k), v, id) <==> Pending(c, v, id) && !(u == v && k == id)
    ensures NoEmptyList(c) ==> NoEmptyList(ClearPending(c, u, k))
  {
    if u in c.cancels { assert id in c.cancels[u] && id != k ==> id in c.cancels[u] - {k}; }
  }

  lemma PushAdds(w: World, k: Id, v: Id, id: Id)
    requires k in w.core.jobs
    ensures Pending(PushCancel(w.core, w.now, k), v, id) <==> Adds(w, DoPushCancel(k), v, id) || Pending(w.core, v, id)
    ensures NoEmptyList(w.core) ==> NoEmptyList(PushCancel(w.core, w.now, k))
  {
  }

  lemma OthersLeave(w: World, s: Step)
    requires Enabled(Wild, w, s) && !s.DoReport? && !s.DoWatchdog? && !s.DoPushCancel? && !s.DoDropPending?
    ensures Apply(w, s).core.cancels == w.core.cancels
  {
    match s
    case DoDeliver(m, pick, e, push) => DeliveryLeaves(w.core, w.now, m, pick, e, push);
    case DoCreate(id, n, up) => CreationLeaves(w.core, w.now, id, n, up);
    case DoPromote(id) => PromotionLeaves(w.core, w.now, id);
    case DoRecover(id) => PromotionLeaves(w.core, w.now, id);
    case DoResubmit(id) => ResubmissionLeaves(w.core, w.now, id);
    case DoCancel(id) => ResubmissionLeaves(w.core, w.now, id);
    case _ =>
  }

  lemma DeliveryLeaves(c: Core, now: Time, m: Msg, pick: Option<Id>, e: Id, push: PushOutcome)
    ensures Deliver(c, now, m, pick, e, push).cancels == c.cancels
  {
  }

  lemma CreationLeaves(c: Core, now: Time, id: Id, n: NewJob, up: bool)
    ensures Create(c, now, id, n, up).cancels == c.cancels
  {
  }

  lemma PromotionLeaves(c: Core, now: Time, id: Id)
    ensures Promote(c, now, id).cancels == c.cancels && Recover(c, now, id).cancels == c.cancels
  {
  }

  lemma ResubmissionLeaves(c: Core, now: Time, id: Id)
    ensures Resubmit(c, now, id).cancels == c.cancels && Cancel(c, now, id).cancels == c.cancels
  {
  }

  lemma PendingStep(w: World, s: Step, v: Id, id: Id)
    requires Enabled(Wild, w, s)
    ensures Pending(Apply(w, s).core, v, id) <==>
      Adds(w, s, v, id) || (Pending(w.core, v, id) && !Clears(w, s, v, id))
    ensures NoEmptyList(w.core) ==> NoEmptyList(Apply(w, s).core)
  {
    match s
    case DoReport(r, d) => ResultClears(w.core, w.now, r, d, v, id);
    case DoWatchdog(k, d) => ResultClears(w.core, w.now, TimeoutReport(k, w.core.jobs[k]), d, v, id);
    case DoPushCancel(k) => PushAdds(w, k, v, id);
    case DoDropPending(_) =>
    case _ => OthersLeave(w, s);
  }

  /** Step `i` put the job on the worker's list and no later one took it off. */
  ghost predicate Unanswered(steps: seq<Step>, v: Id, id: Id, i: nat) {
    && i < |steps| && Adds(Run(START, steps[..i]), steps[i], v, id)
    && forall k :: i < k < |steps| ==> !Clears(Run(START, steps[..k]), steps[k], v, id)
  }

  lemma UnansweredBefore(steps: seq<Step>, v: Id, id: Id, i: nat)
    requires steps != [] && i < |steps| - 1
    ensures Unanswered(steps, v, id, i) <==>
      && Unanswered(steps[..|steps| - 1], v, id, i)
      && !Clears(Run(START, steps[..|steps| - 1]), steps[|steps| - 1], v, id)
  {
    var n := |steps| - 1;
    assert forall k :: 0 <= k <= n ==> steps[..n][..k] == steps[..k];
  }

  /** Over every wild run a job is pending for a worker if and only if its cancellation was pushed while the
      worker had it and since then neither has the worker reported on it, nor has it timed out there,
      nor was the worker lost; and no worker's list is kept when it is empty. */
  lemma {:induction false} PendingExactly(steps: seq<Step>, v: Id, id: Id)
    requires Legal(Wild, START, steps)
    ensures Pending(Run(START, steps).core, v, id) <==> exists i: nat :: Unanswered(steps, v, id, i)
    ensures NoEmptyList(Run(START, steps).core)
    decreases steps
  {
    if steps != [] {
      var n := |steps| - 1;
      LastStep(Wild, START, steps);
      PendingExactly(steps[..n], v, id);
      PendingStep(Run(START, steps[..n]), steps[n], v, id);
      AnswersFound(steps, v, id);
    }
  }

  lemma AnswersFound(steps: seq<Step>, v: Id, id: Id)
    requires steps != []
    ensures var n := |steps| - 1; var w := Run(START, steps[..n]);
      (exists i: nat :: Unanswered(steps, v, id, i)) <==>
        || Adds(w, steps[n], v, id)
        || ((exists i: nat :: Unanswered(steps[..n], v, id, i)) && !Clears(w, steps[n], v, id))
  {
    var n := |steps| - 1;
    forall i: nat | i < n { UnansweredBefore(steps, v, id, i); }
    if Adds(Run(START, steps[..n]), steps[n], v, id) { assert Unanswered(steps, v, id, n); }
    else if !Clears(Run(START, steps[..n]), steps[n], v, id) {
      if i: nat :| Unanswered(steps[..n], v, id, i) { UnansweredBefore(steps, v, id, i); }
    }
  }
}
