/** The loops of the scheduler's poll: each lists jobs and then acts on them one after the other. What
    was listed stays true while the loop works through it, so a sweep is a legal run. */
module Sweeps {
  import opened Domain
  import opened Lifecycle
  import opened Views

  /** Steps on one listed job. */
  predicate Local(s: Step) {
    s.DoPromote? || s.DoPushCancel? || s.DoRecover? || s.DoWatchdog?
  }

  /** The work a sweep finds when it lists: steps on different jobs, each possible now. */
  ghost predicate Worklist(w: World, steps: seq<Step>) {
    && (forall i :: 0 <= i < |steps| ==> Local(steps[i]) && Enabled(Strict, w, steps[i]))
    && (forall i, k :: 0 <= i < k < |steps| ==> steps[i].id != steps[k].id)
  }

  /** Working through the list front to back. */
  function Sweep(w: World, steps: seq<Step>): World {
    if steps == [] then w else Apply(Sweep(w, steps[..|steps| - 1]), steps[|steps| - 1])
  }

  lemma LocalStep(w: World, s: Step, k: Id)
    requires Local(s) && Enabled(Strict, w, s) && k != s.id
    ensures Apply(w, s).now == w.now
    ensures k in Apply(w, s).core.jobs <==> k in w.core.jobs
    ensures k in w.core.jobs ==> Apply(w, s).core.jobs[k] == w.core.jobs[k]
  {
    assert Enabled(Wild, w, s);
    if k in w.core.jobs { View(w, s, k); }
    else if k in Apply(w, s).core.jobs { NewView(w, s, k); }
  }

  /** A local step leaves the rest of the list possible. */
  lemma StaysEnabled(w: World, s: Step, t: Step)
    requires Local(s) && Local(t) && s.id != t.id && Enabled(Strict, w, s) && Enabled(Strict, w, t)
    ensures Enabled(Strict, Apply(w, s), t)
  {
    LocalStep(w, s, t.id);
    if t.DoWatchdog? { LocalStep(w, s, t.draw.childId); }
  }

  /** The listing is still good when its turn comes. */
  lemma {:induction false} SweepStaysEnabled(w: World, steps: seq<Step>, t: Step)
    requires Worklist(w, steps + [t])
    ensures Enabled(Strict, Sweep(w, steps), t)
    decreases steps
  {
    var all := steps + [t];
    assert all[|steps|] == t;
    if steps != [] {
      var n := |steps| - 1;
      assert Worklist(w, steps[..n] + [t]) by {
        assert forall i :: 0 <= i < n ==> (steps[..n] + [t])[i] == all[i];
      }
      assert Worklist(w, steps[..n] + [steps[n]]) by {
        assert forall i :: 0 <= i <= n ==> (steps[..n] + [steps[n]])[i] == all[i];
      }
      SweepStaysEnabled(w, steps[..n], t);
      SweepStaysEnabled(w, steps[..n], steps[n]);
      assert all[n].id != all[n + 1].id;
      StaysEnabled(Sweep(w, steps[..n]), steps[n], t);
    }
  }

  /** A sweep is a legal strict run. */
  lemma {:induction false} SweepRuns(w: World, steps: seq<Step>)
    requires Worklist(w, steps)
    ensures Legal(Strict, w, steps) && Run(w, steps) == Sweep(w, steps)
    decreases steps
  {
    if steps != [] {
      var n := |steps| - 1;
      SweepRuns(w, steps[..n]);
      assert steps == steps[..n] + [steps[n]];
      SweepStaysEnabled(w, steps[..n], steps[n]);
      Extend(Strict, w, steps[..n], steps[n]);
    }
  }

  /** A job a sweep does not list is left as it was. */
  lemma {:induction false} SweepFrames(w: World, steps: seq<Step>, k: Id)
    requires Worklist(w, steps) && forall i :: 0 <= i < |steps| ==> steps[i].id != k
    ensures Sweep(w, steps).now == w.now
    ensures k in Sweep(w, steps).core.jobs <==> k in w.core.jobs
    ensures k in w.core.jobs ==> Sweep(w, steps).core.jobs[k] == w.core.jobs[k]
    decreases steps
  {
    if steps != [] {
      var n := |steps| - 1;
      SweepFrames(w, steps[..n], k);
      assert steps == steps[..n] + [steps[n]];
      SweepStaysEnabled(w, steps[..n], steps[n]);
      LocalStep(Sweep(w, steps[..n]), steps[n], k);
    }
  }

  lemma {:induction false} SweepNow(w: World, steps: seq<Step>)
    requires forall i :: 0 <= i < |steps| ==> Local(steps[i])
    ensures Sweep(w, steps).now == w.now
    decreases steps
  {
    if steps != [] { SweepNow(w, steps[..|steps| - 1]); }
  }

  /** A listed job ends up as its own step makes it from the listed record. */
  lemma {:induction false} SweepTouches(w: World, steps: seq<Step>, i: nat)
    requires Worklist(w, steps) && i < |steps|
    ensures steps[i].id in w.core.jobs && steps[i].id in Sweep(w, steps).core.jobs
    ensures Sweep(w, steps).core.jobs[steps[i].id] == After(w, steps[i], steps[i].id)
    decreases steps
  {
    var n := |steps| - 1;
    var id := steps[i].id;
    var before := Sweep(w, steps[..n]);
    assert steps == steps[..n] + [steps[n]];
    SweepStaysEnabled(w, steps[..n], steps[n]);
    if i == n {
      SweepFrames(w, steps[..n], id);
      assert Enabled(Wild, before, steps[n]);
      View(before, steps[n], id);
    } else {
      SweepTouches(w, steps[..n], i);
      LocalStep(before, steps[n], id);
    }
  }

  // ----- timeouts and cancel pushes

  /** Every overdue job has its timeout in the sweep. */
  ghost predicate TimesOutAll(w: World, steps: seq<Step>) {
    forall id :: id in w.core.jobs && Overdue(w.core.jobs[id], w.now) ==>
      exists i :: 0 <= i < |steps| && steps[i].DoWatchdog? && steps[i].id == id
  }

  lemma TimedOutIsNotOverdue(w: World, s: Step)
    requires s.DoWatchdog? && s.id in w.core.jobs && Overdue(w.core.jobs[s.id], w.now)
    ensures !Overdue(After(w, s, s.id), w.now)
  {
  }

  lemma NotOverdue(w: World, steps: seq<Step>, id: Id)
    requires Worklist(w, steps) && (forall i :: 0 <= i < |steps| ==> steps[i].DoWatchdog?) && TimesOutAll(w, steps)
    requires id in Sweep(w, steps).core.jobs
    ensures !Overdue(Sweep(w, steps).core.jobs[id], w.now)
  {
    if i :| 0 <= i < |steps| && steps[i].id == id {
      SweepTouches(w, steps, i);
      TimedOutIsNotOverdue(w, steps[i]);
    } else {
      SweepFrames(w, steps, id);
    }
  }

  /** After a sweep of timeouts over all overdue jobs, none is overdue. */
  lemma NoneOverdue(w: World, steps: seq<Step>)
    requires Worklist(w, steps) && (forall i :: 0 <= i < |steps| ==> steps[i].DoWatchdog?) && TimesOutAll(w, steps)
    ensures forall id :: id in Sweep(w, steps).core.jobs ==> !Overdue(Sweep(w, steps).core.jobs[id], w.now)
  {
    forall id | id in Sweep(w, steps).core.jobs ensures !Overdue(Sweep(w, steps).core.jobs[id], w.now) {
      NotOverdue(w, steps, id);
    }
  }

  /** The cancellation of the job is pending for its worker, or confirmed if it names none. */
  ghost predicate Told(w: World, c: Core, id: Id)
    requires id in w.core.jobs
  {
    var v := w.core.jobs[id].workerId;
    if v == NO_ID then id in c.jobs && c.jobs[id].state.Cancelled? else PendingFor(c, v, id)
  }

  /** The cancellation is pending for the worker. */
  predicate PendingFor(c: Core, v: Id, id: Id) {
    v in c.cancels && id in c.cancels[v]
  }

  lemma PushKeepsPending(c: Core, now: Time, k: Id, v: Id, id: Id)
    ensures PendingFor(c, v, id) ==> PendingFor(PushCancel(c, now, k), v, id)
    ensures id in c.jobs && c.jobs[id].workerId != NO_ID ==>
      PendingFor(PushCancel(c, now, id), c.jobs[id].workerId, id)
  {
  }

  lemma {:induction false} PushesPend(w: World, steps: seq<Step>, i: nat)
    requires Worklist(w, steps) && (forall k :: 0 <= k < |steps| ==> steps[k].DoPushCancel?) && i < |steps|
    requires w.core.jobs[steps[i].id].workerId != NO_ID
    ensures PendingFor(Sweep(w, steps).core, w.core.jobs[steps[i].id].workerId, steps[i].id)
    decreases steps
  {
    var n := |steps| - 1;
    var before, last, id := Sweep(w, steps[..n]), steps[n].id, steps[i].id;
    var v := w.core.jobs[id].workerId;
    assert Worklist(w, steps[..n]) && steps[n] == DoPushCancel(last);
    assert Sweep(w, steps).core == PushCancel(before.core, before.now, last);
    PushKeepsPending(before.core, before.now, last, v, id);
    if i < n { PushesPend(w, steps[..n], i); } else { SweepFrames(w, steps[..n], last); }
  }

  /** A sweep of cancel pushes tells the worker of every job it lists. */
  lemma PushesTell(w: World, steps: seq<Step>, i: nat)
    requires Worklist(w, steps) && (forall k :: 0 <= k < |steps| ==> steps[k].DoPushCancel?) && i < |steps|
    ensures steps[i].id in w.core.jobs && Told(w, Sweep(w, steps).core, steps[i].id)
  {
    SweepTouches(w, steps, i);
    if w.core.jobs[steps[i].id].workerId != NO_ID { PushesPend(w, steps, i); }
  }

  // ----- recovery from the loss of a worker

  /** The jobs out on the worker. */
  function OutOn(c: Core, v: Id): set<Id> {
    set id | id in c.jobs && Active(c.jobs[id].state) && c.jobs[id].workerId == v
  }

  /** The recovery of exactly the jobs out on the worker. */
  ghost predicate RecoversAll(w: World, steps: seq<Step>, v: Id) {
    && Worklist(w, steps)
    && (forall i :: 0 <= i < |steps| ==> steps[i].DoRecover?)
    && (forall id :: id in OutOn(w.core, v) <==> DoRecover(id) in steps)
  }

  /** Whether the sweep recovers a job that names the execution. */
  ghost predicate Names(w: World, steps: seq<Step>, e: Id) {
    exists i ::
      && 0 <= i < |steps| && steps[i].DoRecover?
      && steps[i].id in w.core.jobs && w.core.jobs[steps[i].id].execId == e
  }

  lemma NamesLast(w: World, steps: seq<Step>, e: Id)
    requires steps != [] && steps[|steps| - 1].DoRecover? && steps[|steps| - 1].id in w.core.jobs
    ensures var n := |steps| - 1;
      Names(w, steps, e) <==> Names(w, steps[..n], e) || w.core.jobs[steps[n].id].execId == e
  {
    var n := |steps| - 1;
    assert forall i :: 0 <= i < n ==> steps[..n][i] == steps[i];
    if Names(w, steps[..n], e) {
      var i :| 0 <= i < n && steps[..n][i].DoRecover? && steps[..n][i].id in w.core.jobs
        && w.core.jobs[steps[..n][i].id].execId == e;
      assert steps[i].DoRecover?;
    }
  }

  /** The executions named by recovered jobs are FAILED; no other is touched. */
  lemma {:induction false} RecoveryCloses(w: World, steps: seq<Step>, e: Id)
    requires Worklist(w, steps) && forall i :: 0 <= i < |steps| ==> steps[i].DoRecover?
    ensures e in Sweep(w, steps).core.execs <==> e in w.core.execs
    ensures e in w.core.execs ==>
      Sweep(w, steps).core.execs[e] ==
        if e != NO_ID && Names(w, steps, e) then w.core.execs[e].(state := ExecFailed) else w.core.execs[e]
    decreases steps
  {
    if steps != [] {
      var n := |steps| - 1;
      assert steps == steps[..n] + [steps[n]];
      RecoveryCloses(w, steps[..n], e);
      SweepStaysEnabled(w, steps[..n], steps[n]);
      SweepFrames(w, steps[..n], steps[n].id);
      NamesLast(w, steps, e);
    }
  }

  lemma RecoveredOne(w: World, steps: seq<Step>, id: Id)
    requires Worklist(w, steps) && (forall i :: 0 <= i < |steps| ==> steps[i].DoRecover?) && DoRecover(id) in steps
    ensures id in w.core.jobs && id in Sweep(w, steps).core.jobs
    ensures Sweep(w, steps).core.jobs[id] == Recovered(w.core.jobs[id], w.now)
    ensures w.core.jobs[id].execId != NO_ID ==> !Open(Sweep(w, steps).core, w.core.jobs[id].execId)
  {
    var i :| 0 <= i < |steps| && steps[i] == DoRecover(id);
    SweepTouches(w, steps, i);
    RecoveryCloses(w, steps, w.core.jobs[id].execId);
    assert Names(w, steps, w.core.jobs[id].execId);
  }

  /** Recovery is complete and framed: afterwards no job is out on the lost worker; each job that was
      is CANCELLED if its cancellation was requested, else RETRYING at once if attempts are left, else
      FAILED; its execution is closed; every other job is as it was. */
  lemma RecoveryComplete(w: World, steps: seq<Step>, v: Id)
    requires RecoversAll(w, steps, v)
    ensures OutOn(Sweep(w, steps).core, v) == {}
    ensures forall id :: id in OutOn(w.core, v) ==>
      && id in Sweep(w, steps).core.jobs
      && var j, j' := w.core.jobs[id], Sweep(w, steps).core.jobs[id];
      && (j'.state.Cancelled? <==> j.state.CancelRequested?)
      && (j'.state.Retrying? <==> !j.state.CancelRequested? && j.attempt < j.maxAttempts)
      && (j'.state.Failed? <==> !j.state.CancelRequested? && j.attempt >= j.maxAttempts)
      && (j'.state.Retrying? ==> Due(j', w.now) && j'.workerId == NO_ID && j'.execId == NO_ID)
      && j'.attempt == j.attempt
    ensures forall id :: id in w.core.jobs && id !in OutOn(w.core, v) ==>
      id in Sweep(w, steps).core.jobs && Sweep(w, steps).core.jobs[id] == w.core.jobs[id]
    ensures forall id :: id in OutOn(w.core, v) && w.core.jobs[id].execId != NO_ID ==>
      !Open(Sweep(w, steps).core, w.core.jobs[id].execId)
  {
    forall id | id in OutOn(w.core, v)
      ensures id in Sweep(w, steps).core.jobs && Sweep(w, steps).core.jobs[id] == Recovered(w.core.jobs[id], w.now)
      ensures w.core.jobs[id].execId != NO_ID ==> !Open(Sweep(w, steps).core, w.core.jobs[id].execId)
    {
      assert DoRecover(id) in steps;
      RecoveredOne(w, steps, id);
    }
    forall id | id !in OutOn(w.core, v)
      ensures id in Sweep(w, steps).core.jobs <==> id in w.core.jobs
      ensures id in w.core.jobs ==> Sweep(w, steps).core.jobs[id] == w.core.jobs[id]
    {
      assert DoRecover(id) !in steps;
      SweepFrames(w, steps, id);
    }
  }

  /** Giving up a worker, recovering its jobs and dropping its pending cancellations, as steps. */
  function LossOf(v: Id, sweep: seq<Step>): seq<Step> {
    [DoDeregister(v)] + sweep + [DoDropPending(v)]
  }

  lemma LossRuns(w: World, v: Id, sweep: seq<Step>)
    requires Worklist(Apply(w, DoDeregister(v)), sweep)
    ensures Legal(Strict, w, LossOf(v, sweep)) && Run(w, LossOf(v, sweep)).now == w.now
    ensures Run(w, LossOf(v, sweep)).core == DropPending(Sweep(Apply(w, DoDeregister(v)), sweep).core, v)
  {
    var gone := [DoDeregister(v)];
    assert gone[1..] == [];
    SweepRuns(Apply(w, DoDeregister(v)), sweep);
    SweepNow(Apply(w, DoDeregister(v)), sweep);
    Concat(Strict, w, gone, sweep);
    Extend(Strict, w, gone + sweep, DoDropPending(v));
  }

  /** Recovering the same worker again finds nothing to do. */
  lemma RecoveryIdempotent(w: World, steps: seq<Step>, again: seq<Step>, v: Id)
    requires RecoversAll(w, steps, v) && RecoversAll(Sweep(w, steps), again, v)
    ensures again == [] && Sweep(Sweep(w, steps), again) == Sweep(w, steps)
  {
    assert again != [] ==> DoRecover(again[0].id) in again && again[0].id in OutOn(Sweep(w, steps).core, v);
    RecoveryComplete(w, steps, v);
  }

  /** Jobs change only by leaving the active states, and only if they were out on one of the workers. */
  ghost predicate Settles(jobs: map<Id, Job>, jobs': map<Id, Job>, lost: set<Id>) {
    jobs'.Keys == jobs.Keys && forall id :: id in jobs ==>
      jobs'[id] == jobs[id] || (Active(jobs[id].state) && jobs[id].workerId in lost && !Active(jobs'[id].state))
  }

  lemma RecoverySettlesOne(w: World, steps: seq<Step>, id: Id)
    requires Worklist(w, steps) && forall i :: 0 <= i < |steps| ==> steps[i].DoRecover?
    ensures id in Sweep(w, steps).core.jobs <==> id in w.core.jobs
    ensures id in w.core.jobs ==>
      Sweep(w, steps).core.jobs[id] ==
        if DoRecover(id) in steps then Recovered(w.core.jobs[id], w.now) else w.core.jobs[id]
  {
    if i :| 0 <= i < |steps| && steps[i].id == id {
      assert steps[i] == DoRecover(id);
      SweepTouches(w, steps, i);
    } else {
      SweepFrames(w, steps, id);
    }
  }

  /** However many of the worker's jobs a recovery lists, it only settles jobs of that worker. */
  lemma RecoverySettles(w: World, steps: seq<Step>, v: Id)
    requires Worklist(w, steps) && forall s :: s in steps ==> s.DoRecover? && s.id in OutOn(w.core, v)
    ensures Settles(w.core.jobs, Sweep(w, steps).core.jobs, {v})
  {
    forall id
      ensures id in Sweep(w, steps).core.jobs <==> id in w.core.jobs
      ensures id in w.core.jobs ==>
        Sweep(w, steps).core.jobs[id] ==
          if DoRecover(id) in steps then Recovered(w.core.jobs[id], w.now) else w.core.jobs[id]
    {
      RecoverySettlesOne(w, steps, id);
    }
  }

  lemma SettlesTwice(a: map<Id, Job>, b: map<Id, Job>, c: map<Id, Job>, lost: set<Id>, v: Id)
    requires Settles(a, b, lost) && Settles(b, c, {v})
    ensures Settles(a, c, lost + {v})
  {
    forall id | id in a
      ensures c[id] == a[id] || (Active(a[id].state) && a[id].workerId in lost + {v} && !Active(c[id].state))
    {
      assert id in b && id in c;
    }
  }
}
