/** The scheduler service: its own worker and pending-cancel maps, over a store and a work queue.
    Each method is proved to do to the control plane exactly what the lifecycle model says. */
module Scheduler {
  import opened Domain
  import opened MemoryStore
  import L = Lifecycle
  import Backoff
  import Sweeps
  import StaleWorkers
  import LastWrites

  /** The queue as the scheduler and the API see it: a bag of messages. */
  class WorkQueue {
    var msgs: multiset<Msg>

    constructor ()
      ensures msgs == multiset{}
    {
      msgs := multiset{};
    }

    /** `up` is whether the queue takes the message. */
    method Enqueue(m: Msg, up: bool) returns (ok: bool)
      modifies this
      ensures ok == up && msgs == if up then old(msgs) + multiset{m} else old(msgs)
    {
      if up {
        msgs := msgs + multiset{m};
      }
      return up;
    }

    method Take(m: Msg)
      requires m in msgs
      modifies this
      ensures msgs == old(msgs) - multiset{m}
    {
      msgs := msgs - multiset{m};
    }
  }

  /** The delay `computeBackoff` gives for the job's policy, if the job exists. */
  function DelayFor(jobs: map<Id, Job>, id: Id, attempt: int, x: real): Time
    requires 0.0 <= x < 1.0
  {
    if id in jobs then Backoff.Delay(jobs[id].retry, attempt, x) else 0
  }

  /** The handler neither reads nor writes the queue. */
  lemma HandleIgnoresQueue(
    c: L.Core, q: multiset<Msg>, now: Time, m: Msg, pick: Option<Id>, e: Id, push: L.PushOutcome)
    ensures L.Handle(c.(queue := q), now, m, pick, e, push)
         == (L.Handle(c, now, m, pick, e, push).0.(queue := q), L.Handle(c, now, m, pick, e, push).1)
    ensures L.Handle(c, now, m, pick, e, push).0.queue == c.queue
  {
  }

  /** Taking the message out, handling it, and putting it back on an error is one delivery. */
  lemma TakeAndHandle(c: L.Core, now: Time, m: Msg, pick: Option<Id>, e: Id, push: L.PushOutcome)
    requires m in c.queue
    ensures var (c1, err) := L.Handle(c.(queue := c.queue - multiset{m}), now, m, pick, e, push);
      L.Deliver(c, now, m, pick, e, push) == if err then c1.(queue := c1.queue + multiset{m}) else c1
  {
    HandleIgnoresQueue(c, c.queue - multiset{m}, now, m, pick, e, push);
    assert (c.queue - multiset{m}) + multiset{m} == c.queue;
  }

  class Service {
    const store: Store
    const queue: WorkQueue
    var workers: map<Id, Worker>
    var pendingCancels: map<Id, set<Id>>

    constructor (store: Store, queue: WorkQueue)
      ensures this.store == store && this.queue == queue
      ensures workers == map[] && pendingCancels == map[]
    {
      this.store, this.queue := store, queue;
      workers, pendingCancels := map[], map[];
    }

    /** The control plane this scheduler works on. */
    function View(): L.Core
      reads this, store, queue
    {
      L.Core(store.jobs, store.executions, queue.msgs, workers, pendingCancels)
    }

    // ----- fleet

    /** A least loaded assignable worker, in whatever order the map is visited; none only if no
        worker is assignable. */
    method PickWorker() returns (best: Option<Id>)
      ensures L.IsPick(workers, best)
    {
      best := None;
      var todo := workers.Keys;
      while todo != {}
        invariant todo <= workers.Keys
        invariant best.Some? ==> best.value in workers && best.value !in todo && Assignable(workers[best.value])
        invariant forall v :: v in workers && v !in todo && Assignable(workers[v]) ==>
          best.Some? && workers[best.value].active <= workers[v].active
        decreases todo
      {
        var w :| w in todo;
        todo := todo - {w};
        if !Assignable(workers[w]) {
          continue;
        }
        if best.None? || workers[w].active < workers[best.value].active {
          best := Some(w);
        }
      }
    }

    /** `reached` is whether the dial back to the worker succeeds; the store has the worker either way. */
    method RegisterWorker(now: Time, id: Id, capacity: int, reached: bool) returns (ok: bool)
      modifies this`workers, store`workers
      ensures ok == reached
      ensures View() == if reached then L.Register(old(View()), now, id, capacity) else old(View())
      ensures store.workers == old(store.workers)[id := Worker(Healthy, capacity, 0, now)]
    {
      var w := Worker(Healthy, capacity, 0, now);
      store.UpsertWorker(id, w);
      if !reached {
        return false;
      }
      workers := workers[id := w];
      return true;
    }

    /** Takes over the reported load and answers with the jobs the worker should cancel. */
    method Heartbeat(now: Time, id: Id, active: int, capacity: int) returns (cancelIds: set<Id>)
      modifies this`workers, store`workers
      ensures View() == L.Heartbeat(old(View()), now, id, active, capacity)
      ensures cancelIds == if id in pendingCancels then pendingCancels[id] else {}
      ensures store.workers ==
        if id in old(workers) then old(store.workers)[id := Worker(Healthy, capacity, active, now)]
        else old(store.workers)
    {
      var ok := id in workers;
      if ok {
        var w := workers[id].(active := active, capacity := capacity, lastHeartbeat := now, status := Healthy);
        workers := workers[id := w];
      }
      cancelIds := {};
      if id in pendingCancels {
        cancelIds := pendingCancels[id];
      }
      if !ok {
        return;
      }
      store.UpsertWorker(id, workers[id]);
    }

    method Deregister(id: Id)
      modifies this`workers
      ensures View() == L.Deregister(old(View()), id)
    {
      workers := workers - {id};
    }

    // ----- assignment

    /** Handles one queued message; true asks the queue to put the message back. `e` is the execution
        id drawn and `push` what becomes of the call to the worker. */
    method HandleQueuedJob(now: Time, m: Msg, e: Id, push: L.PushOutcome) returns (err: bool, w: Option<Id>)
      requires store.Valid()
      modifies this`workers, store`jobs, store`executions
      ensures store.Valid()
      ensures m.job in old(store.jobs) && Waiting(old(store.jobs)[m.job].state) ==> L.IsPick(old(workers), w)
      ensures (View(), err) == L.Handle(old(View()), now, m, w, e, push)
      ensures m.job in old(store.jobs) && Waiting(old(store.jobs)[m.job].state) && w.Some? ==>
        && m.job in store.jobs && store.jobs[m.job] == old(store.jobs)[m.job].(
             state := if push == L.Accepted then Running else Assigned,
             startedAt := if push == L.Accepted then Some(now) else old(store.jobs)[m.job].startedAt,
             workerId := w.value, execId := e, attempt := m.attempt + 1)
    {
      w := None;
      var got := store.GetJob(m.job);
      if got.None? {
        return true, w;
      }
      if !(got.value.state.Queued? || got.value.state.Scheduled? || got.value.state.Retrying?) {
        return false, w;
      }
      w := PickWorker();
      if w.None? {
        return true, w;
      }
      store.CreateExecution(e, Execution(m.job, w.value, m.attempt + 1, ExecPending));
      var _ := store.UpdateJobState(m.job, Assigned,
        NO_FIELDS.(workerId := Some(w.value), execId := Some(e), attempt := Some(m.attempt + 1)));
      if !push.Accepted? {
        return true, w;
      }
      var _ := store.UpdateJobState(m.job, Running, NO_FIELDS.(startedAt := Some(now)));
      workers := workers[w.value := workers[w.value].(active := workers[w.value].active + 1)];
      return false, w;
    }

    /** One turn of the queue consumer: take a message, handle it, put it back on error. */
    method ConsumeOne(now: Time, m: Msg, e: Id, push: L.PushOutcome) returns (w: Option<Id>)
      requires store.Valid() && m in queue.msgs
      modifies this`workers, store`jobs, store`executions, queue
      ensures store.Valid()
      ensures m.job in old(store.jobs) && Waiting(old(store.jobs)[m.job].state) ==> L.IsPick(old(workers), w)
      ensures View() == L.Deliver(old(View()), now, m, w, e, push)
    {
      queue.Take(m);
      var err: bool;
      err, w := HandleQueuedJob(now, m, e, push);
      TakeAndHandle(old(View()), now, m, w, e, push);
      if err {
        var _ := queue.Enqueue(m, true);
      }
    }

    // ----- results

    method ReleaseSlot(w: Id)
      modifies this`workers
      ensures View() == L.ReleaseSlot(old(View()), w)
    {
      if w in workers && workers[w].active > 0 {
        workers := workers[w := workers[w].(active := workers[w].active - 1)];
      }
    }

    method ClearPendingCancel(w: Id, id: Id)
      modifies this`pendingCancels
      ensures View() == L.ClearPending(old(View()), w, id)
    {
      if w in pendingCancels {
        var rest := pendingCancels[w] - {id};
        pendingCancels := pendingCancels[w := rest];
        if rest == {} {
          pendingCancels := pendingCancels - {w};
        }
      }
    }

    /** Spawns the next occurrence of a completed recurring job; `next` is the cron library's answer. */
    method MaybeRescheduleRecurring(job: Job, childId: Id, next: Option<Time>)
      requires store.Valid() && childId != NO_ID && childId !in store.jobs
      modifies store
      ensures store.Valid()
      ensures View() == old(View()).(jobs :=
        if job.recurring && next.Some? then old(store.jobs)[childId := L.Occurrence(job, next.value)]
        else old(store.jobs))
      ensures job.recurring && next.Some? ==>
        && childId in store.jobs
        && var child := store.jobs[childId];
        && child.maxAttempts == job.maxAttempts && child.timeout == job.timeout && child.retry == job.retry
        && child.recurring && child.state == Scheduled && child.scheduledAt == next
        && child.attempt == 0 && child.idemKey == NO_ID && child.workerId == NO_ID && child.execId == NO_ID
      ensures store.workers == old(store.workers) && store.outbox == old(store.outbox)
    {
      if !job.recurring {
        return;
      }
      if next.None? {
        return;
      }
      var child := Job(Scheduled, 0, job.maxAttempts, NO_ID, NO_ID, NO_ID, job.recurring, job.timeout, job.retry,
                       Some(next.value), None, None, None, None);
      var _, _ := store.CreateJob(NO_ID, childId, child);
    }

    /** Settles a report on a job. `x` is the random draw for jitter. */
    method HandleResult(now: Time, r: Report, x: real, childId: Id, next: Option<Time>)
      requires store.Valid() && 0.0 <= x < 1.0 && childId != NO_ID && childId !in store.jobs
      modifies this`workers, this`pendingCancels, store
      ensures store.Valid()
      ensures View() ==
        L.HandleResult(old(View()), now, r, L.Draw(DelayFor(old(store.jobs), r.job, r.attempt, x), childId, next))
      ensures r.job in old(store.jobs) && !Terminal(old(store.jobs)[r.job].state) ==>
        && r.job in store.jobs
        && LastWrites.Settles(old(store.jobs)[r.job], r, now, Backoff.Delay(old(store.jobs)[r.job].retry, r.attempt, x),
                              store.jobs[r.job])
      ensures store.workers == old(store.workers) && store.outbox == old(store.outbox)
    {
      ReleaseSlot(r.worker);
      ClearPendingCancel(r.worker, r.job);

      var reason := r.result.reason;
      if reason.ReasonNone? {
        reason := if r.result.success then ReasonSuccess else ReasonFailed;
      }
      var got := store.GetJob(r.job);
      if got.None? {
        return;
      }
      var job := got.value;
      match job.state {
        case Completed => return;
        case Failed => return;
        case Cancelled => return;
        case TimedOut => return;
        case Expired => return;
        case _ =>
      }
      Settle(now, r, reason, job, x, childId, next);
      LastWrites.ResultOutcome(old(View()), now, r, L.Draw(Backoff.Delay(job.retry, r.attempt, x), childId, next));
    }

    /** The part of `HandleResult` that a live job reaches. */
    method Settle(now: Time, r: Report, reason: Reason, job: Job, x: real, childId: Id, next: Option<Time>)
      requires store.Valid() && 0.0 <= x < 1.0 && childId != NO_ID && childId !in store.jobs
      requires r.job in store.jobs && job == store.jobs[r.job] && !Terminal(job.state)
      requires reason.ReasonCancelled? <==> r.result.reason.ReasonCancelled?
      requires reason.ReasonTimeout? <==> r.result.reason.ReasonTimeout?
      modifies store
      ensures store.Valid()
      ensures
        var d := L.Draw(Backoff.Delay(job.retry, r.attempt, x), childId, next);
        View() == L.Finish(old(View()), r.exec, L.Verdict(job, r).1).(jobs := L.SettledJobs(old(View()), now, r, d))
      ensures store.workers == old(store.workers) && store.outbox == old(store.outbox)
    {
      if reason.ReasonCancelled? || job.state.CancelRequested? {
        FinishNamed(r.exec, ExecCancelled);
        var _ := store.UpdateJobState(r.job, Cancelled, NO_FIELDS.(completedAt := Some(now)));
        return;
      }
      if r.result.success {
        FinishNamed(r.exec, ExecCompleted);
        var _ := store.UpdateJobState(r.job, Completed, NO_FIELDS.(completedAt := Some(now)));
        MaybeRescheduleRecurring(job, childId, next);
        return;
      }
      if reason.ReasonTimeout? {
        FinishNamed(r.exec, ExecTimeout);
        if r.attempt < job.maxAttempts {
          Retry(r.job, now + Backoff.Delay(job.retry, r.attempt, x));
          return;
        }
        var _ := store.UpdateJobState(r.job, TimedOut, NO_FIELDS.(completedAt := Some(now)));
        return;
      }
      FinishNamed(r.exec, ExecFailed);
      if r.result.retryable && r.attempt < job.maxAttempts {
        Retry(r.job, now + Backoff.Delay(job.retry, r.attempt, x));
        return;
      }
      var _ := store.UpdateJobState(r.job, Failed, NO_FIELDS.(completedAt := Some(now)));
    }

    method FinishNamed(e: Id, st: ExecState)
      modifies store`executions
      ensures View() == L.Finish(old(View()), e, st)
    {
      if e != NO_ID {
        var _ := store.FinishExecution(e, st);
      }
    }

    method Retry(id: Id, next: Time)
      requires store.Valid() && id in store.jobs
      modifies store`jobs
      ensures store.Valid()
      ensures var j := old(store.jobs)[id];
        var j' := j.(state := Retrying, nextRetryAt := Some(next), workerId := NO_ID, execId := NO_ID);
        store.jobs == old(store.jobs)[id := j']
    {
      var _ := store.UpdateJobState(id, Retrying,
        NO_FIELDS.(nextRetryAt := Some(next), workerId := Some(NO_ID), execId := Some(NO_ID)));
    }

    // ----- the sweeps of the poll loop

    /** The world `w` is this control plane now. */
    ghost predicate Sees(w: L.World, now: Time)
      reads this, store, queue
    {
      w.core == View() && w.now == now
    }

    /** The loop body of the cancel push: one more step of the sweep. */
    method PushListed(now: Time, id: Id, job: Job, ghost w: L.World, ghost steps: seq<L.Step>)
      requires store.Valid() && View() == Sweeps.Sweep(w, steps).core && w.now == now
      requires Sweeps.Worklist(w, steps + [L.DoPushCancel(id)]) && id in w.core.jobs && job == w.core.jobs[id]
      modifies store`jobs, this`pendingCancels
      ensures store.Valid() && View() == Sweeps.Sweep(w, steps + [L.DoPushCancel(id)]).core
    {
      Turn(w, steps, L.DoPushCancel(id));
      PushCancel(now, id, job);
    }

    method PushCancel(now: Time, id: Id, job: Job)
      requires store.Valid() && id in store.jobs && job == store.jobs[id]
      modifies store`jobs, this`pendingCancels
      ensures store.Valid()
      ensures View() == L.PushCancel(old(View()), now, id)
    {
      if job.workerId == NO_ID {
        var _ := store.UpdateJobState(id, Cancelled, NO_FIELDS.(completedAt := Some(now)));
        return;
      }
      if job.workerId !in pendingCancels {
        pendingCancels := pendingCancels[job.workerId := {}];
      }
      pendingCancels := pendingCancels[job.workerId := pendingCancels[job.workerId] + {id}];
    }

    /** The loop body of the promotion: one more step of the sweep. */
    method PromoteListed(now: Time, id: Id, job: Job, ghost w: L.World, ghost steps: seq<L.Step>)
      requires store.Valid() && View() == Sweeps.Sweep(w, steps).core && w.now == now
      requires Sweeps.Worklist(w, steps + [L.DoPromote(id)]) && id in w.core.jobs && job == w.core.jobs[id]
      modifies store`jobs, queue
      ensures store.Valid() && View() == Sweeps.Sweep(w, steps + [L.DoPromote(id)]).core
    {
      Turn(w, steps, L.DoPromote(id));
      var _ := queue.Enqueue(Msg(id, job.attempt), true);
      var _ := store.UpdateJobStateIf(id, Queued, NO_FIELDS.(queuedAt := Some(now)), [Scheduled, Retrying]);
    }

    /** Queues the due jobs it lists, except those whose messages the queue does not take (`down`): a legal
        run of promotions, of all such jobs when fewer jobs than the limit are due. */
    method PromoteDueJobs(now: Time, limit: int, down: set<Id>, ghost w: L.World) returns (ghost steps: seq<L.Step>)
      requires store.Valid() && Sees(w, now)
      modifies store`jobs, queue
      ensures store.Valid()
      ensures L.Legal(L.Strict, w, steps) && L.Run(w, steps).core == View()
      ensures forall s :: s in steps ==> s.DoPromote? && s.id !in down
      ensures |Selected(w.core.jobs, (j: Job) => Due(j, now))| < limit ==>
        PromotesAll(w, down, steps)
    {
      var out := store.ListDueScheduled(now, limit);
      steps := [];
      for i := 0 to |out|
        invariant store.Valid() && View() == Sweeps.Sweep(w, steps).core
        invariant Sweeps.Worklist(w, steps) && Promotes(out, i, down, steps)
      {
        if out[i].0 in down {
          NoMorePromotion(out, i, down, steps);
          continue;
        }
        OneMorePromotion(w, out, i, down, steps);
        PromoteListed(now, out[i].0, out[i].1, w, steps);
        steps := steps + [L.DoPromote(out[i].0)];
      }
      PromotionsDone(w, out, down, steps);
    }

    /** Pushes the cancellations it lists: a legal run of cancel pushes. When the limit holds all jobs whose
        cancellation is requested, each of them is pushed: it is pending for its worker, or confirmed at
        once if it names none. */
    method PushPendingCancels(now: Time, limit: int, ghost w: L.World) returns (ghost steps: seq<L.Step>)
      requires store.Valid() && Sees(w, now)
      modifies store`jobs, this`pendingCancels
      ensures store.Valid()
      ensures L.Legal(L.Strict, w, steps) && L.Run(w, steps).core == View()
      ensures forall s :: s in steps ==> s.DoPushCancel?
      ensures |Selected(w.core.jobs, (j: Job) => j.state == CancelRequested)| <= (if limit <= 0 then 50 else limit) ==>
        forall id :: id in w.core.jobs && w.core.jobs[id].state.CancelRequested? ==>
          L.DoPushCancel(id) in steps && Sweeps.Told(w, View(), id)
    {
      var out := store.ListJobs(CancelRequested, limit);
      steps := CancelPushes(out);
      CancelPushesListed(w, out);
      for i := 0 to |out|
        invariant store.Valid() && View() == Sweeps.Sweep(w, steps[..i]).core
      {
        SweepPrefix(w, steps, i);
        PushListed(now, out[i].0, out[i].1, w, steps[..i]);
      }
      assert steps[..|out|] == steps;
      Sweeps.SweepRuns(w, steps);
      if ListsAll(w.core.jobs, w.core.jobs.Keys, out, (j: Job) => j.state == CancelRequested) {
        CancelPushesCover(w, out);
      }
    }

    /** The report the watchdog files for one job. */
    method TimeOut(now: Time, id: Id, job: Job, x: real, childId: Id)
      requires store.Valid() && 0.0 <= x < 1.0 && id in store.jobs && job == store.jobs[id]
      requires childId != NO_ID && childId !in store.jobs
      modifies this`workers, this`pendingCancels, store
      ensures store.Valid()
      ensures View() ==
        L.Watchdog(old(View()), now, id, L.Draw(Backoff.Delay(job.retry, job.attempt, x), childId, None))
    {
      var r := Report(id, job.execId, job.workerId, job.attempt, Result(false, true, ReasonTimeout));
      HandleResult(now, r, x, childId, None);
    }

    /** The loop body of the watchdog: one more timeout of the sweep. */
    method TimeOutListed(
      now: Time, id: Id, job: Job, x: real, childId: Id,
      ghost w: L.World, ghost steps: seq<L.Step>, ghost s: L.Step)
      requires store.Valid() && 0.0 <= x < 1.0 && View() == Sweeps.Sweep(w, steps).core && w.now == now
      requires Sweeps.Worklist(w, steps + [s])
      requires s == L.DoWatchdog(id, L.Draw(Backoff.Delay(job.retry, job.attempt, x), childId, None))
      requires id in w.core.jobs && job == w.core.jobs[id]
      requires forall k :: 0 <= k < |steps| ==> Sweeps.Local(steps[k]) && steps[k].id != childId
      modifies this`workers, this`pendingCancels, store
      ensures store.Valid() && View() == Sweeps.Sweep(w, steps + [s]).core
    {
      assert (steps + [s])[|steps|] == s;
      Turn(w, steps, s);
      Sweeps.SweepFrames(w, steps, childId);
      TimeOut(now, id, job, x, childId);
    }

    /** Files a timeout report for each overdue job it lists: a legal run of watchdog steps. When the limit
        holds all overdue jobs, each gets one, and no job is overdue afterwards. */
    method WatchdogTimeouts(now: Time, limit: int, childId: Id, ghost w: L.World) returns (ghost steps: seq<L.Step>)
      requires store.Valid() && Sees(w, now) && childId != NO_ID && childId !in store.jobs
      modifies this`workers, this`pendingCancels, store
      ensures store.Valid()
      ensures L.Legal(L.Strict, w, steps) && L.Run(w, steps).core == View()
      ensures forall s :: s in steps ==> s.DoWatchdog?
      ensures |Selected(w.core.jobs, (j: Job) => Overdue(j, now))| <= (if limit <= 0 then 50 else limit) ==>
        Sweeps.TimesOutAll(w, steps) && NoOverdueJob(store.jobs, now)
    {
      steps := [];
      var out := store.ListTimedOutRunning(now, limit);
      for i := 0 to |out|
        invariant store.Valid() && View() == Sweeps.Sweep(w, steps).core
        invariant Sweeps.Worklist(w, steps) && TimesOut(out, i, steps)
      {
        var x: real :| 0.0 <= x < 1.0;
        ghost var s := TimeoutStep(out[i], x, childId);
        OneMoreTimeout(w, out, steps, s);
        TimeOutListed(now, out[i].0, out[i].1, x, childId, w, steps, s);
        steps := steps + [s];
      }
      TimeoutsDone(w, out, steps);
    }

    /** Recovers the jobs of a lost worker: recoveries of jobs out on the worker, of all of them when no
        listed state holds more than a thousand jobs. */
    method RecoverWorkerJobs(now: Time, v: Id, ghost w: L.World) returns (ghost steps: seq<L.Step>)
      requires store.Valid() && Sees(w, now)
      modifies store`jobs, store`executions, this`pendingCancels
      ensures store.Valid()
      ensures Sweeps.Worklist(w, steps) && forall s :: s in steps ==> s.DoRecover? && s.id in Sweeps.OutOn(w.core, v)
      ensures View() == L.DropPending(Sweeps.Sweep(w, steps).core, v)
      ensures FewActive(w.core.jobs) ==> Sweeps.RecoversAll(w, steps, v)
    {
      var out := ListActive(1000);
      steps := [];
      for i := 0 to |out|
        invariant store.Valid() && View() == Sweeps.Sweep(w, steps).core && Sweeps.Worklist(w, steps)
        invariant Recovers(w, out, i, v, steps)
      {
        var (id, j) := out[i];
        if j.workerId != v {
          continue;
        }
        OneMore(w, out, i, v, steps);
        RecoverListed(now, id, j, w, steps);
        steps := steps + [L.DoRecover(id)];
      }
      if FewActive(w.core.jobs) { Covers(w, out, steps, v); }
      pendingCancels := pendingCancels - {v};
    }

    /** The health check: forgets the workers the store finds unavailable and recovers their jobs, a legal
        run of losses. Only jobs out on those workers change, and none is left out on them when no active
        state holds more than a thousand jobs. */
    method CheckWorkers(now: Time, timeout: Time, grace: Time, ghost w: L.World)
      returns (unavailable: seq<Id>, ghost steps: seq<L.Step>)
      requires store.Valid() && Sees(w, now)
      modifies this`workers, this`pendingCancels, store`jobs, store`executions, store`workers
      ensures store.Valid()
      ensures StaleWorkers.TwoUpdates(old(store.workers), now, timeout, grace).workers == store.workers
      ensures StaleWorkers.TwoUpdates(old(store.workers), now, timeout, grace).unavailable == set v | v in unavailable
      ensures L.Legal(L.Strict, w, steps) && L.Run(w, steps).core == View()
      ensures workers == old(workers) - set v | v in unavailable
      ensures Settled(old(store.jobs), store.jobs, set v | v in unavailable)
    {
      var _, lost := store.MarkStaleWorkers(now, timeout, grace);
      unavailable := lost;
      ghost var ids;
      ids, steps := RecoverLost(now, lost, w);
      assert ids == set v | v in unavailable;
    }

    /** The loop of the health check. */
    method RecoverLost(now: Time, lost: seq<Id>, ghost w: L.World)
      returns (ghost ids: set<Id>, ghost steps: seq<L.Step>)
      requires store.Valid() && Sees(w, now)
      modifies this`workers, this`pendingCancels, store`jobs, store`executions
      ensures store.Valid() && forall v :: v in ids <==> v in lost
      ensures L.Legal(L.Strict, w, steps) && L.Run(w, steps).core == View()
      ensures workers == old(workers) - ids
      ensures Settled(old(store.jobs), store.jobs, ids)
    {
      ids, steps := {}, [];
      ghost var here := w;
      RanNowhere(w);
      for i := 0 to |lost|
        invariant store.Valid() && workers == old(workers) - ids
        invariant forall v :: v in ids <==> v in lost[..i]
        invariant Ran(w, steps, here) && Sees(here, now)
        invariant Settled(old(store.jobs), store.jobs, ids)
      {
        ghost var more := RecoverOne(now, lost[i], old(store.jobs), ids, here);
        RanOn(w, steps, here, more);
        here, steps, ids := L.Run(here, more), steps + more, ids + {lost[i]};
      }
    }

    /** The loss of one worker within the health check. */
    method RecoverOne(now: Time, v: Id, ghost before: map<Id, Job>, ghost lost: set<Id>, ghost w: L.World)
      returns (ghost steps: seq<L.Step>)
      requires store.Valid() && Sees(w, now) && Settled(before, store.jobs, lost)
      modifies this`workers, this`pendingCancels, store`jobs, store`executions
      ensures store.Valid() && workers == old(workers) - {v}
      ensures L.Legal(L.Strict, w, steps) && Sees(L.Run(w, steps), now)
      ensures Settled(before, store.jobs, lost + {v})
    {
      workers := workers - {v};
      ghost var w1 := L.Apply(w, L.DoDeregister(v));
      ghost var sweep := RecoverWorkerJobs(now, v, w1);
      Sweeps.LossRuns(w, v, sweep);
      steps := Sweeps.LossOf(v, sweep);
      OneLossSettles(w1, v, sweep, before, lost);
    }

    /** The listings of RUNNING, ASSIGNED and CANCEL_REQUESTED jobs, one after the other. */
    method ListActive(limit: int) returns (out: seq<Entry>)
      requires limit > 0
      ensures Lists(store.jobs, out, (j: Job) => Active(j.state))
      ensures (forall st :: Active(st) ==> |Selected(store.jobs, (j: Job) => j.state == st)| <= limit) ==>
        ListsAll(store.jobs, store.jobs.Keys, out, (j: Job) => Active(j.state))
    {
      var running := store.ListJobs(Running, limit);
      var handedOut := store.ListJobs(Assigned, limit);
      var cancelReq := store.ListJobs(CancelRequested, limit);
      out := running + handedOut;
      out := out + cancelReq;
    }

    /** The loop body of recovery: one more job of the sweep. */
    method RecoverListed(now: Time, id: Id, j: Job, ghost w: L.World, ghost steps: seq<L.Step>)
      requires store.Valid() && View() == Sweeps.Sweep(w, steps).core && w.now == now
      requires Sweeps.Worklist(w, steps + [L.DoRecover(id)]) && id in w.core.jobs && j == w.core.jobs[id]
      modifies store`jobs, store`executions
      ensures store.Valid() && View() == Sweeps.Sweep(w, steps + [L.DoRecover(id)]).core
    {
      Turn(w, steps, L.DoRecover(id));
      RecoverJob(now, id, j);
    }

    method RecoverJob(now: Time, id: Id, j: Job)
      requires store.Valid() && id in store.jobs && j == store.jobs[id]
      modifies store`jobs, store`executions
      ensures store.Valid()
      ensures View() == L.Recover(old(View()), now, id)
    {
      if j.execId != NO_ID {
        var _ := store.FinishExecution(j.execId, ExecFailed);
      }
      if j.state.CancelRequested? {
        var _ := store.UpdateJobState(id, Cancelled, NO_FIELDS.(completedAt := Some(now)));
        return;
      }
      if j.attempt < j.maxAttempts {
        Retry(id, now);
      } else {
        var _ := store.UpdateJobState(id, Failed, NO_FIELDS.(completedAt := Some(now)));
      }
    }
  }

  /** The promotions of the first `i` listed jobs but those in `down`. */
  ghost predicate Promotes(out: seq<Entry>, i: nat, down: set<Id>, steps: seq<L.Step>)
    requires i <= |out|
  {
    && (forall s :: s in steps ==> s.DoPromote? && s.id !in down && exists k :: 0 <= k < i && out[k].0 == s.id)
    && (forall k :: 0 <= k < i && out[k].0 !in down ==> L.DoPromote(out[k].0) in steps)
  }

  lemma NoMorePromotion(out: seq<Entry>, i: nat, down: set<Id>, steps: seq<L.Step>)
    requires i < |out| && out[i].0 in down && Promotes(out, i, down, steps)
    ensures Promotes(out, i + 1, down, steps)
  {
  }

  lemma OneMorePromotion(w: L.World, out: seq<Entry>, i: nat, down: set<Id>, steps: seq<L.Step>)
    requires Lists(w.core.jobs, out, (j: Job) => Due(j, w.now)) && i < |out| && out[i].0 !in down
    requires Sweeps.Worklist(w, steps) && Promotes(out, i, down, steps)
    ensures Sweeps.Worklist(w, steps + [L.DoPromote(out[i].0)])
    ensures Promotes(out, i + 1, down, steps + [L.DoPromote(out[i].0)])
  {
    var all := steps + [L.DoPromote(out[i].0)];
    assert all[|steps|] == L.DoPromote(out[i].0);
    forall n | 0 <= n < |steps| ensures all[n] == steps[n] && steps[n].id != out[i].0 {
      assert steps[n] in steps;
    }
  }

  /** Every due job but those in `down` is promoted. */
  ghost predicate PromotesAll(w: L.World, down: set<Id>, steps: seq<L.Step>) {
    forall id :: id in w.core.jobs && Due(w.core.jobs[id], w.now) && id !in down ==> L.DoPromote(id) in steps
  }

  lemma PromotionsCover(w: L.World, out: seq<Entry>, down: set<Id>, steps: seq<L.Step>)
    requires Promotes(out, |out|, down, steps)
    requires ListsAll(w.core.jobs, w.core.jobs.Keys, out, (j: Job) => Due(j, w.now))
    ensures PromotesAll(w, down, steps)
  {
    forall id | id in w.core.jobs && Due(w.core.jobs[id], w.now) && id !in down ensures L.DoPromote(id) in steps {
      var i :| 0 <= i < |out| && out[i] == (id, w.core.jobs[id]);
    }
  }

  /** What the promotion sweep comes to. */
  lemma PromotionsDone(w: L.World, out: seq<Entry>, down: set<Id>, steps: seq<L.Step>)
    requires Sweeps.Worklist(w, steps) && Promotes(out, |out|, down, steps)
    requires Lists(w.core.jobs, out, (j: Job) => Due(j, w.now))
    ensures L.Legal(L.Strict, w, steps) && L.Run(w, steps) == Sweeps.Sweep(w, steps)
    ensures |out| <= |Selected(w.core.jobs, (j: Job) => Due(j, w.now))|
    ensures ListsAll(w.core.jobs, w.core.jobs.Keys, out, (j: Job) => Due(j, w.now)) ==> PromotesAll(w, down, steps)
  {
    Sweeps.SweepRuns(w, steps);
    ShortListing(w.core.jobs, out, (j: Job) => Due(j, w.now));
    if ListsAll(w.core.jobs, w.core.jobs.Keys, out, (j: Job) => Due(j, w.now)) {
      PromotionsCover(w, out, down, steps);
    }
  }

  /** No active state holds more jobs than a recovery lists. */
  ghost predicate FewActive(jobs: map<Id, Job>) {
    forall st :: Active(st) ==> |Selected(jobs, (j: Job) => j.state == st)| <= 1000
  }

  /** No active job names one of the workers. */
  ghost predicate NoneOut(jobs: map<Id, Job>, lost: set<Id>) {
    forall id :: id in jobs && Active(jobs[id].state) ==> jobs[id].workerId !in lost
  }

  /** Only jobs out on the workers have changed, by leaving the active states, and none is left out on them
      if there were few enough active jobs to list. */
  ghost predicate Settled(before: map<Id, Job>, jobs: map<Id, Job>, lost: set<Id>) {
    Sweeps.Settles(before, jobs, lost) && (FewActive(before) ==> NoneOut(jobs, lost))
  }

  lemma StaysFew(jobs: map<Id, Job>, jobs': map<Id, Job>, lost: set<Id>)
    requires FewActive(jobs) && Sweeps.Settles(jobs, jobs', lost)
    ensures FewActive(jobs')
  {
    forall st | Active(st) ensures |Selected(jobs', (j: Job) => j.state == st)| <= 1000 {
      Smaller(Selected(jobs', (j: Job) => j.state == st), Selected(jobs, (j: Job) => j.state == st));
    }
  }

  /** When its turn comes, a listed job is still as it was listed. */
  lemma Turn(w: L.World, steps: seq<L.Step>, s: L.Step)
    requires Sweeps.Worklist(w, steps + [s]) && Sweeps.Local(s)
    ensures var w' := Sweeps.Sweep(w, steps);
      && w'.now == w.now && Sweeps.Worklist(w, steps)
      && s.id in w.core.jobs && s.id in w'.core.jobs
      && w'.core.jobs[s.id] == w.core.jobs[s.id]
      && Sweeps.Sweep(w, steps + [s]) == L.Apply(w', s)
  {
    assert (steps + [s])[..|steps|] == steps && (steps + [s])[|steps|] == s;
    assert forall i :: 0 <= i < |steps| ==> (steps + [s])[i] == steps[i];
    Sweeps.SweepFrames(w, steps, s.id);
  }

  lemma SweepPrefix(w: L.World, steps: seq<L.Step>, i: nat)
    requires Sweeps.Worklist(w, steps) && i < |steps|
    ensures steps[..i + 1] == steps[..i] + [steps[i]] && Sweeps.Worklist(w, steps[..i] + [steps[i]])
  {
    assert steps[..i + 1] == steps[..i] + [steps[i]];
    assert forall k :: 0 <= k <= i ==> steps[..i + 1][k] == steps[k];
  }

  /** A legal run leads from one world to the other. */
  ghost predicate Ran(w: L.World, steps: seq<L.Step>, here: L.World) {
    L.Legal(L.Strict, w, steps) && here == L.Run(w, steps)
  }

  lemma RanNowhere(w: L.World)
    ensures Ran(w, [], w)
  {
  }

  lemma RanOn(w: L.World, steps: seq<L.Step>, here: L.World, more: seq<L.Step>)
    requires Ran(w, steps, here) && L.Legal(L.Strict, here, more)
    ensures Ran(w, steps + more, L.Run(here, more))
  {
    L.Concat(L.Strict, w, steps, more);
  }

  /** What the recovery of one more worker adds to those before it. */
  lemma OneLossSettles(w: L.World, v: Id, sweep: seq<L.Step>, before: map<Id, Job>, lost: set<Id>)
    requires Sweeps.Worklist(w, sweep) && forall s :: s in sweep ==> s.DoRecover? && s.id in Sweeps.OutOn(w.core, v)
    requires FewActive(w.core.jobs) ==> Sweeps.RecoversAll(w, sweep, v)
    requires Settled(before, w.core.jobs, lost)
    ensures Settled(before, Sweeps.Sweep(w, sweep).core.jobs, lost + {v})
  {
    var jobs := Sweeps.Sweep(w, sweep).core.jobs;
    Sweeps.RecoverySettles(w, sweep, v);
    Sweeps.SettlesTwice(before, w.core.jobs, jobs, lost, v);
    if FewActive(before) {
      StaysFew(before, w.core.jobs, lost);
      Sweeps.RecoveryComplete(w, sweep, v);
      assert forall id :: id in Sweeps.OutOn(Sweeps.Sweep(w, sweep).core, v) ==> false;
    }
  }

  /** The timeouts of the first `i` listed jobs. */
  ghost predicate TimesOut(out: seq<Entry>, i: nat, steps: seq<L.Step>) {
    |steps| == i <= |out| && forall k :: 0 <= k < i ==> steps[k].DoWatchdog? && steps[k].id == out[k].0
  }

  ghost function TimeoutStep(e: Entry, x: real, childId: Id): L.Step
    requires 0.0 <= x < 1.0
  {
    L.DoWatchdog(e.0, L.Draw(Backoff.Delay(e.1.retry, e.1.attempt, x), childId, None))
  }

  /** The timeout of the next listed job joins the worklist. */
  lemma OneMoreTimeout(w: L.World, out: seq<Entry>, steps: seq<L.Step>, s: L.Step)
    requires Lists(w.core.jobs, out, (j: Job) => Overdue(j, w.now)) && |steps| < |out| && Sweeps.Worklist(w, steps)
    requires TimesOut(out, |steps|, steps)
    requires s.DoWatchdog? && s.id == out[|steps|].0 && L.FreshDraw(w, s.draw)
    ensures Sweeps.Worklist(w, steps + [s]) && TimesOut(out, |steps| + 1, steps + [s])
    ensures s.id in w.core.jobs && w.core.jobs[s.id] == out[|steps|].1
    ensures forall k :: 0 <= k < |steps| ==> Sweeps.Local(steps[k]) && steps[k].id != s.draw.childId
  {
    var all := steps + [s];
    assert all[|steps|] == s;
    assert forall k :: 0 <= k < |steps| ==> all[k] == steps[k];
  }

  /** A complete listing makes the watchdog cover every overdue job. */
  lemma TimeoutsCover(w: L.World, out: seq<Entry>, steps: seq<L.Step>)
    requires TimesOut(out, |out|, steps)
    requires ListsAll(w.core.jobs, w.core.jobs.Keys, out, (j: Job) => Overdue(j, w.now))
    ensures Sweeps.TimesOutAll(w, steps)
  {
    forall id | id in w.core.jobs && Overdue(w.core.jobs[id], w.now)
      ensures exists i :: 0 <= i < |steps| && steps[i].DoWatchdog? && steps[i].id == id
    {
      var i :| 0 <= i < |out| && out[i] == (id, w.core.jobs[id]);
      assert steps[i].id == id;
    }
  }

  ghost predicate NoOverdueJob(jobs: map<Id, Job>, now: Time) {
    forall id :: id in jobs ==> !Overdue(jobs[id], now)
  }

  /** What the watchdog's sweep comes to. */
  lemma TimeoutsDone(w: L.World, out: seq<Entry>, steps: seq<L.Step>)
    requires TimesOut(out, |out|, steps)
    requires Sweeps.Worklist(w, steps)
    ensures L.Legal(L.Strict, w, steps) && L.Run(w, steps) == Sweeps.Sweep(w, steps)
    ensures forall s :: s in steps ==> s.DoWatchdog?
    ensures ListsAll(w.core.jobs, w.core.jobs.Keys, out, (j: Job) => Overdue(j, w.now)) ==>
      Sweeps.TimesOutAll(w, steps) && NoOverdueJob(Sweeps.Sweep(w, steps).core.jobs, w.now)
  {
    Sweeps.SweepRuns(w, steps);
    if ListsAll(w.core.jobs, w.core.jobs.Keys, out, (j: Job) => Overdue(j, w.now)) {
      TimeoutsCover(w, out, steps);
      Sweeps.NoneOverdue(w, steps);
    }
  }

  ghost function CancelPushes(out: seq<Entry>): (steps: seq<L.Step>)
    ensures |steps| == |out| && forall i :: 0 <= i < |out| ==> steps[i] == L.DoPushCancel(out[i].0)
  {
    seq(|out|, i requires 0 <= i < |out| => L.DoPushCancel(out[i].0))
  }

  lemma CancelPushesListed(w: L.World, out: seq<Entry>)
    requires Lists(w.core.jobs, out, (j: Job) => j.state == CancelRequested)
    ensures Sweeps.Worklist(w, CancelPushes(out)) && forall s :: s in CancelPushes(out) ==> s.DoPushCancel?
  {
  }

  /** A complete listing makes the sweep push every requested cancellation. */
  lemma CancelPushesCover(w: L.World, out: seq<Entry>)
    requires Lists(w.core.jobs, out, (j: Job) => j.state == CancelRequested)
    requires ListsAll(w.core.jobs, w.core.jobs.Keys, out, (j: Job) => j.state == CancelRequested)
    ensures forall id :: id in w.core.jobs && w.core.jobs[id].state.CancelRequested? ==>
      L.DoPushCancel(id) in CancelPushes(out) && Sweeps.Told(w, Sweeps.Sweep(w, CancelPushes(out)).core, id)
  {
    CancelPushesListed(w, out);
    forall id | id in w.core.jobs && w.core.jobs[id].state.CancelRequested?
      ensures L.DoPushCancel(id) in CancelPushes(out) && Sweeps.Told(w, Sweeps.Sweep(w, CancelPushes(out)).core, id)
    {
      var i :| 0 <= i < |out| && out[i] == (id, w.core.jobs[id]);
      assert CancelPushes(out)[i] == L.DoPushCancel(id);
      Sweeps.PushesTell(w, CancelPushes(out), i);
    }
  }

  /** The recoveries of those of the first `i` listed jobs that are out on the worker. */
  ghost predicate Recovers(w: L.World, out: seq<Entry>, i: nat, v: Id, steps: seq<L.Step>)
    requires i <= |out|
  {
    && (forall s :: s in steps ==>
          s.DoRecover? && s.id in Sweeps.OutOn(w.core, v) && exists k :: 0 <= k < i && out[k].0 == s.id)
    && (forall k :: 0 <= k < i && out[k].1.workerId == v ==> L.DoRecover(out[k].0) in steps)
  }

  /** The recovery of one more listed job joins the worklist. */
  lemma OneMore(w: L.World, out: seq<Entry>, i: nat, v: Id, steps: seq<L.Step>)
    requires Lists(w.core.jobs, out, (j: Job) => Active(j.state)) && i < |out| && out[i].1.workerId == v
    requires Sweeps.Worklist(w, steps) && Recovers(w, out, i, v, steps)
    ensures Sweeps.Worklist(w, steps + [L.DoRecover(out[i].0)])
    ensures Recovers(w, out, i + 1, v, steps + [L.DoRecover(out[i].0)])
  {
    var all := steps + [L.DoRecover(out[i].0)];
    assert all[|steps|] == L.DoRecover(out[i].0);
    forall n | 0 <= n < |steps| ensures all[n] == steps[n] && steps[n].id != out[i].0 {
      assert steps[n] in steps;
    }
  }

  /** A complete listing makes the recovery cover the worker. */
  lemma Covers(w: L.World, out: seq<Entry>, steps: seq<L.Step>, v: Id)
    requires Sweeps.Worklist(w, steps) && Recovers(w, out, |out|, v, steps)
    requires ListsAll(w.core.jobs, w.core.jobs.Keys, out, (j: Job) => Active(j.state))
    ensures Sweeps.RecoversAll(w, steps, v)
  {
    forall id | id in Sweeps.OutOn(w.core, v) ensures L.DoRecover(id) in steps {
      var k :| 0 <= k < |out| && out[k] == (id, w.core.jobs[id]);
    }
    forall i | 0 <= i < |steps| ensures steps[i].DoRecover? {
      assert steps[i] in steps;
    }
  }
}
