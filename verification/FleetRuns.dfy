/** What wild runs keep about workers and completion times: slots are accounted for, active jobs name
    their worker, and a completion time says that a job is or was terminal. */
module FleetRuns {
  import opened Domain
  import opened Lifecycle
  import opened Views
  import WildRuns

  // ----- slots, worker names and completion stamps

  /** Registrations name the worker; heartbeats and registrations report a load within capacity. */
  predicate Sensible(s: Step) {
    match s
    case DoRegister(v, capacity) => v != NO_ID && capacity >= 0
    case DoHeartbeat(v, active, capacity) => 0 <= active <= capacity
    case _ => true
  }

  predicate SlotsOk(w: Worker) {
    0 <= w.active <= w.capacity
  }

  predicate StampOk(j: Job) {
    && (Terminal(j.state) ==> j.completedAt.Some?)
    && (Active(j.state) ==> j.workerId != NO_ID)
  }

  ghost predicate FleetOk(workers: map<Id, Worker>) {
    forall v {:trigger workers[v]} :: v in workers ==> v != NO_ID && SlotsOk(workers[v])
  }

  ghost predicate StampsOk(jobs: map<Id, Job>) {
    forall id {:trigger StampOk(jobs[id])} :: id in jobs ==> StampOk(jobs[id])
  }

  ghost predicate Inv(c: Core) {
    FleetOk(c.workers) && StampsOk(c.jobs)
  }

  lemma FleetKeeps(w: World, s: Step)
    requires FleetOk(w.core.workers) && Enabled(Wild, w, s) && Sensible(s)
    ensures FleetOk(WorkersAfter(w, s))
  {
  }

  lemma StepKeeps(w: World, s: Step)
    requires Inv(w.core) && Enabled(Wild, w, s) && Sensible(s)
    ensures Inv(Apply(w, s).core)
  {
    WorkersView(w, s);
    FleetKeeps(w, s);
    forall id | id in Apply(w, s).core.jobs ensures StampOk(Apply(w, s).core.jobs[id]) {
      if id in w.core.jobs {
        View(w, s, id);
        assert StampOk(w.core.jobs[id]);
        StampKeeps(w, s, id);
      } else {
        NewView(w, s, id);
      }
    }
  }

  lemma StampKeeps(w: World, s: Step, id: Id)
    requires FleetOk(w.core.workers) && Enabled(Wild, w, s)
    requires id in w.core.jobs && StampOk(w.core.jobs[id])
    ensures StampOk(After(w, s, id))
  {
  }

  lemma {:induction false} RunKeeps(w: World, steps: seq<Step>)
    requires Inv(w.core) && Legal(Wild, w, steps) && forall i :: 0 <= i < |steps| ==> Sensible(steps[i])
    ensures Inv(Run(w, steps).core)
    decreases steps
  {
    if steps != [] {
      StepKeeps(w, steps[0]);
      RunKeeps(Apply(w, steps[0]), steps[1..]);
    }
  }

  /** Over every run: each worker's active count stays between zero and its capacity. */
  lemma SlotAccounting(steps: seq<Step>)
    requires Legal(Wild, START, steps) && forall i :: 0 <= i < |steps| ==> Sensible(steps[i])
    ensures var c := Run(START, steps).core; forall v :: v in c.workers ==> SlotsOk(c.workers[v])
  {
    RunKeeps(START, steps);
  }

  /** Over every run: a job whose cancellation is requested names a worker, so the cancel push never
      confirms it on the spot. */
  lemma CancelPushWaits(steps: seq<Step>, id: Id)
    requires Legal(Wild, START, steps) && forall i :: 0 <= i < |steps| ==> Sensible(steps[i])
    requires id in Run(START, steps).core.jobs
    ensures var w := Run(START, steps);
      w.core.jobs[id].state.CancelRequested? ==> PushCancel(w.core, w.now, id).jobs == w.core.jobs
  {
    RunKeeps(START, steps);
    assert StampOk(Run(START, steps).core.jobs[id]);
  }

  // ----- completion times

  /** Whether a run holds a due resubmission of the job while it is terminal. */
  predicate Restarts(w: World, steps: seq<Step>, id: Id)
    decreases steps
  {
    && steps != []
    && (|| (WildRuns.Requeues(w, steps[0], id) && Terminal(w.core.jobs[id].state))
        || Restarts(Apply(w, steps[0]), steps[1..], id))
  }

  predicate Stamped(w: World, id: Id) {
    id in w.core.jobs && w.core.jobs[id].completedAt.Some?
  }

  predicate AtEnd(w: World, id: Id) {
    id in w.core.jobs && Terminal(w.core.jobs[id].state)
  }

  lemma StampAfter(w: World, s: Step, id: Id)
    requires Enabled(Wild, w, s) && id in w.core.jobs
    requires var j := w.core.jobs[id]; Terminal(j.state) ==> j.completedAt.Some?
    ensures var j, j' := w.core.jobs[id], After(w, s, id);
      && (j.completedAt.Some? ==> j'.completedAt.Some?)
      && (j.completedAt.None? ==> (j'.completedAt.Some? <==> Terminal(j'.state)))
      && (Terminal(j.state) ==> (Terminal(j'.state) <==> !WildRuns.Requeues(w, s, id)))
  {
  }

  /** A completion time is set with a terminal state and never cleared. */
  lemma StampStep(w: World, s: Step, id: Id)
    requires Enabled(Wild, w, s) && (AtEnd(w, id) ==> Stamped(w, id))
    ensures Stamped(w, id) ==> Stamped(Apply(w, s), id)
    ensures !Stamped(w, id) ==> (Stamped(Apply(w, s), id) <==> AtEnd(Apply(w, s), id))
    ensures AtEnd(w, id) ==> (AtEnd(Apply(w, s), id) <==> !WildRuns.Requeues(w, s, id))
  {
    if id in w.core.jobs {
      View(w, s, id);
      StampAfter(w, s, id);
    } else if id in Apply(w, s).core.jobs {
      NewView(w, s, id);
    }
  }

  lemma {:induction false} StampsRun(w: World, steps: seq<Step>, id: Id)
    requires Legal(Wild, w, steps) && (AtEnd(w, id) ==> Stamped(w, id))
    ensures Stamped(w, id) ==> Stamped(Run(w, steps), id)
    ensures (Stamped(w, id) <==> AtEnd(w, id)) ==>
      (Stamped(Run(w, steps), id) <==> AtEnd(Run(w, steps), id) || Restarts(w, steps, id))
    decreases steps
  {
    if steps != [] {
      StampStep(w, steps[0], id);
      StampsRun(Apply(w, steps[0]), steps[1..], id);
    }
  }

  /** Over every run a job has a completion time if and only if it is terminal now, or was created again
      when terminal: that keeps the time on a QUEUED job. */
  lemma CompletionTimes(steps: seq<Step>, id: Id)
    requires Legal(Wild, START, steps) && id in Run(START, steps).core.jobs
    ensures var j := Run(START, steps).core.jobs[id];
      j.completedAt.Some? <==> Terminal(j.state) || Restarts(START, steps, id)
  {
    StampsRun(START, steps, id);
  }
}
