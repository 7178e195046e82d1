/** What holds whatever reports, timeouts, deliveries, worker losses and interrupted promotions do, and even
    if operations are overtaken between their read and their write: terminal states are kept and cancel
    wins, exactly until the job is created again when due or a late write lands on it. Nothing here
    assumes anything about the contents of a report, and the results hold from any state at all. */
module WildRuns {
  import opened Domain
  import opened Lifecycle
  import opened Views

  // ----- what may end a terminal state

  /** A due resubmission: the create step that queues an existing job again. */
  predicate Requeues(w: World, s: Step, id: Id) {
    s == DoResubmit(id) && id in w.core.jobs && DueAgain(w.core.jobs[id], w.now)
  }

  /** A write to the job from an earlier read, of another state than the job is in by now, or of the same
      at another time. */
  predicate Overwrites(w: World, s: Step, id: Id) {
    && s.DoWrite? && Target(s.write) == id && id in w.core.jobs && WrittenState(s.write).Some?
    && !(WrittenState(s.write).value == w.core.jobs[id].state && w.core.jobs[id].completedAt == Some(w.now))
  }

  /** Whether a run holds a due resubmission of the job. */
  predicate Revives(w: World, steps: seq<Step>, id: Id)
    decreases steps
  {
    steps != [] && (Requeues(w, steps[0], id) || Revives(Apply(w, steps[0]), steps[1..], id))
  }

  /** Whether a run holds a late write to the job. */
  predicate Overwritten(w: World, steps: seq<Step>, id: Id)
    decreases steps
  {
    steps != [] && (Overwrites(w, steps[0], id) || Overwritten(Apply(w, steps[0]), steps[1..], id))
  }

  /** Whether a run holds an API cancel of the job. */
  predicate Cancels(steps: seq<Step>, id: Id) {
    exists i :: 0 <= i < |steps| && steps[i] == DoCancel(id)
  }

  lemma CancelsFirst(steps: seq<Step>, id: Id)
    requires steps != []
    ensures Cancels(steps, id) <==> steps[0] == DoCancel(id) || Cancels(steps[1..], id)
  {
    if i :| 0 < i < |steps| && steps[i] == DoCancel(id) { assert steps[1..][i - 1] == DoCancel(id); }
    if i :| 0 <= i < |steps[1..]| && steps[1..][i] == DoCancel(id) { assert steps[i + 1] == DoCancel(id); }
  }

  // ----- terminal states

  lemma WriteChanges(j: Job, now: Time, x: Write)
    requires Terminal(j.state)
    ensures WrittenJob(j, now, x) == j <==>
      WrittenState(x).None? || (WrittenState(x).value == j.state && j.completedAt == Some(now))
  {
  }

  /** A terminal job is untouched by any step, except that an API cancel turns FAILED and TIMEOUT into
      CANCELLED, a due resubmission queues it again, and a late write goes through. */
  lemma TerminalStep(w: World, s: Step, id: Id)
    requires Enabled(Racy, w, s) && id in w.core.jobs && Terminal(w.core.jobs[id].state)
    ensures id in Apply(w, s).core.jobs
    ensures
      var j, j' := w.core.jobs[id], Apply(w, s).core.jobs[id];
      && (s == DoCancel(id) && (j.state.Failed? || j.state.TimedOut?) ==>
            j' == j.(state := Cancelled, completedAt := Some(w.now)))
      && (Requeues(w, s, id) ==> j' == j.(state := Queued, queuedAt := Some(w.now)))
      && (j' == j <==>
            && !(s == DoCancel(id) && (j.state.Failed? || j.state.TimedOut?))
            && !Requeues(w, s, id) && !Overwrites(w, s, id))
  {
    RacyView(w, s, id);
    if s.DoWrite? && Target(s.write) == id { WriteChanges(w.core.jobs[id], w.now, s.write); }
  }

  /** The record of the job is the same after every step of the run. */
  predicate Steady(w: World, steps: seq<Step>, id: Id)
    requires id in w.core.jobs
    decreases steps
  {
    steps != [] ==>
      var w1 := Apply(w, steps[0]);
      id in w1.core.jobs && w1.core.jobs[id] == w.core.jobs[id] && Steady(w1, steps[1..], id)
  }

  /** A COMPLETED, CANCELLED or EXPIRED record never changes if and only if the run holds neither a due
      resubmission of the job nor a late write to it. */
  lemma {:induction false} FinalForever(w: World, steps: seq<Step>, id: Id)
    requires Legal(Racy, w, steps) && id in w.core.jobs
    requires var st := w.core.jobs[id].state; st.Completed? || st.Cancelled? || st.Expired?
    ensures Steady(w, steps, id) <==> !Revives(w, steps, id) && !Overwritten(w, steps, id)
    ensures Steady(w, steps, id) ==>
      id in Run(w, steps).core.jobs && Run(w, steps).core.jobs[id] == w.core.jobs[id]
    decreases steps
  {
    if steps != [] {
      TerminalStep(w, steps[0], id);
      if Apply(w, steps[0]).core.jobs[id] == w.core.jobs[id] { FinalForever(Apply(w, steps[0]), steps[1..], id); }
    }
  }

  /** A FAILED or TIMEOUT record never changes if and only if the run holds no API cancel, no due
      resubmission and no late write; with only a cancel it ends CANCELLED. */
  lemma {:induction false} FailedUntilCancelled(w: World, steps: seq<Step>, id: Id)
    requires Legal(Racy, w, steps) && id in w.core.jobs
    requires w.core.jobs[id].state.Failed? || w.core.jobs[id].state.TimedOut?
    ensures Steady(w, steps, id) <==>
      !Cancels(steps, id) && !Revives(w, steps, id) && !Overwritten(w, steps, id)
    ensures !Revives(w, steps, id) && !Overwritten(w, steps, id) ==>
      && id in Run(w, steps).core.jobs
      && (Run(w, steps).core.jobs[id] == w.core.jobs[id] <==> !Cancels(steps, id))
      && (Cancels(steps, id) ==> Run(w, steps).core.jobs[id].state.Cancelled?)
    decreases steps
  {
    if steps != [] {
      var w1 := Apply(w, steps[0]);
      TerminalStep(w, steps[0], id);
      CancelsFirst(steps, id);
      if steps[0] == DoCancel(id) {
        FinalForever(w1, steps[1..], id);
      } else if w1.core.jobs[id] == w.core.jobs[id] {
        FailedUntilCancelled(w1, steps[1..], id);
      }
    }
  }

  // ----- cancel wins

  predicate BeingCancelled(c: Core, id: Id) {
    id in c.jobs && (c.jobs[id].state.CancelRequested? || c.jobs[id].state.Cancelled?)
  }

  /** A late write to the job of a state that is no cancellation. */
  predicate Uncancels(s: Step, id: Id) {
    && s.DoWrite? && Target(s.write) == id && WrittenState(s.write).Some?
    && !(WrittenState(s.write).value.CancelRequested? || WrittenState(s.write).value.Cancelled?)
  }

  lemma CancelAfter(w: World, s: Step, id: Id)
    requires Enabled(Racy, w, s) && BeingCancelled(w.core, id)
    ensures var j, j' := w.core.jobs[id], After(w, s, id);
      && (j'.state.CancelRequested? || j'.state.Cancelled? <==> !Requeues(w, s, id) && !Uncancels(s, id))
      && (j'.state.CancelRequested? || j'.state.Cancelled? ==> j'.attempt == j.attempt && j'.execId == j.execId)
  {
  }

  lemma CancelStep(w: World, s: Step, id: Id)
    requires Enabled(Racy, w, s) && BeingCancelled(w.core, id)
    ensures BeingCancelled(Apply(w, s).core, id) <==> !Requeues(w, s, id) && !Uncancels(s, id)
    ensures BeingCancelled(Apply(w, s).core, id) ==>
      && Apply(w, s).core.jobs[id].attempt == w.core.jobs[id].attempt
      && Apply(w, s).core.jobs[id].execId == w.core.jobs[id].execId
  {
    RacyView(w, s, id);
    CancelAfter(w, s, id);
  }

  /** The job is CANCEL_REQUESTED or CANCELLED after every step of the run. */
  predicate StaysCancelled(w: World, steps: seq<Step>, id: Id)
    decreases steps
  {
    steps != [] ==> BeingCancelled(Apply(w, steps[0]).core, id) && StaysCancelled(Apply(w, steps[0]), steps[1..], id)
  }

  /** Whether a run holds a late write of something else than a cancellation. */
  predicate Uncancelled(steps: seq<Step>, id: Id)
    decreases steps
  {
    steps != [] && (Uncancels(steps[0], id) || Uncancelled(steps[1..], id))
  }

  /** Once CANCEL_REQUESTED, a job is only ever CANCEL_REQUESTED or CANCELLED if and only if the run holds
      no due resubmission of it and no late write of another state; and then it is never assigned again:
      its attempt and execution stay. */
  lemma {:induction false} CancelWins(w: World, steps: seq<Step>, id: Id)
    requires Legal(Racy, w, steps) && BeingCancelled(w.core, id)
    ensures StaysCancelled(w, steps, id) <==> !Revives(w, steps, id) && !Uncancelled(steps, id)
    ensures StaysCancelled(w, steps, id) ==>
      && BeingCancelled(Run(w, steps).core, id)
      && Run(w, steps).core.jobs[id].attempt == w.core.jobs[id].attempt
      && Run(w, steps).core.jobs[id].execId == w.core.jobs[id].execId
    decreases steps
  {
    if steps != [] {
      CancelStep(w, steps[0], id);
      if BeingCancelled(Apply(w, steps[0]).core, id) { CancelWins(Apply(w, steps[0]), steps[1..], id); }
    }
  }

  /** Runs of atomic operations are among these, and hold no late write. */
  lemma {:induction false} WildIsRacy(w: World, steps: seq<Step>, id: Id)
    requires Legal(Wild, w, steps)
    ensures Legal(Racy, w, steps) && !Overwritten(w, steps, id) && !Uncancelled(steps, id)
    decreases steps
  {
    if steps != [] {
      WildIsRacy(Apply(w, steps[0]), steps[1..], id);
    }
  }
}
