/** Runs that could happen as timed: retry delays are those of the backoff, and a worker is given up only
    after its heartbeat has been missing for longer than the health check's patience. */
module PlausibleRuns {
  import opened Domain
  import opened Lifecycle
  import RetryDelays

  ghost predicate Timely(w: World, s: Step, patience: Time) {
    && RetryDelays.DelaysDrawn(w, s)
    && (s.DoDeregister? && s.worker in w.core.workers ==>
          w.core.workers[s.worker].lastHeartbeat < w.now - patience)
  }

  ghost predicate Plausible(reg: Regime, w: World, steps: seq<Step>, patience: Time)
    decreases steps
  {
    steps != [] ==>
      && Enabled(reg, w, steps[0]) && Timely(w, steps[0], patience)
      && Plausible(reg, Apply(w, steps[0]), steps[1..], patience)
  }

  lemma {:induction false} PlausibleIsLegal(reg: Regime, w: World, steps: seq<Step>, patience: Time)
    requires Plausible(reg, w, steps, patience)
    ensures Legal(reg, w, steps) && RetryDelays.AllDrawn(w, steps)
    decreases steps
  {
    if steps != [] { PlausibleIsLegal(reg, Apply(w, steps[0]), steps[1..], patience); }
  }

  lemma Single(reg: Regime, w: World, s: Step, patience: Time)
    requires Enabled(reg, w, s) && Timely(w, s, patience)
    ensures Plausible(reg, w, [s], patience) && Run(w, [s]) == Apply(w, s)
  {
    assert [s][1..] == [];
  }

  lemma {:induction false} Then(reg: Regime, w: World, a: seq<Step>, b: seq<Step>, patience: Time)
    requires Plausible(reg, w, a, patience) && Plausible(reg, Run(w, a), b, patience)
    ensures Plausible(reg, w, a + b, patience) && Run(w, a + b) == Run(Run(w, a), b)
    decreases a
  {
    if a == [] {
      assert a + b == b;
    } else {
      assert (a + b)[1..] == a[1..] + b;
      Then(reg, Apply(w, a[0]), a[1..], b, patience);
    }
  }

  lemma Two(reg: Regime, w: World, s: Step, t: Step, patience: Time)
    requires Enabled(reg, w, s) && Timely(w, s, patience)
    requires Enabled(reg, Apply(w, s), t) && Timely(Apply(w, s), t, patience)
    ensures Plausible(reg, w, [s] + [t], patience) && Run(w, [s] + [t]) == Apply(Apply(w, s), t)
  {
    Single(reg, w, s, patience);
    Single(reg, Apply(w, s), t, patience);
    Then(reg, w, [s], [t], patience);
  }
}
