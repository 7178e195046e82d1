/** Runs of the in-memory work queue with its consumers: arrivals, delayed release, pops, and handlers
    that acknowledge or fail. */
module QueueRuns {
  import opened Domain
  import opened QueueOrder

  function Stamped(job: QueuedJob, now: Time): QueuedJob {
    if job.enqueuedAt == ZERO_TIME then job.(enqueuedAt := now) else job
  }

  // ----- delayed release

  /** The items after one pass over the delayed ones: those whose time has come, inserted in turn. */
  function Released(items: seq<QueuedJob>, delayed: seq<Delayed>, now: Time): seq<QueuedJob> {
    if delayed == [] then items else
    var n := |delayed| - 1;
    var r := Released(items, delayed[..n], now);
    if delayed[n].available <= now then Insert(r, delayed[n].job) else r
  }

  /** The delayed items that stay, in order. */
  function Kept(delayed: seq<Delayed>, now: Time): (r: seq<Delayed>)
    ensures |r| <= |delayed|
  {
    if delayed == [] then [] else
    var n := |delayed| - 1;
    Kept(delayed[..n], now) + if delayed[n].available <= now then [] else [delayed[n]]
  }

  // ----- bags of jobs

  type Lot = multiset<QueuedJob>

  /** The job as it is. */
  function Whole(x: QueuedJob): QueuedJob {
    x
  }

  /** The job without its enqueue stamp: a stamp may be filled in when a job comes back. */
  function Unstamped(x: QueuedJob): QueuedJob {
    x.(enqueuedAt := ZERO_TIME)
  }

  function AllSeen<T>(s: seq<QueuedJob>, f: QueuedJob -> T): (r: seq<T>)
    ensures |r| == |s| && forall i :: 0 <= i < |s| ==> r[i] == f(s[i])
  {
    seq(|s|, i requires 0 <= i < |s| => f(s[i]))
  }

  function DelayedJobs(s: seq<Delayed>): (r: seq<QueuedJob>)
    ensures |r| == |s| && forall i :: 0 <= i < |s| ==> r[i] == s[i].job
  {
    seq(|s|, i requires 0 <= i < |s| => s[i].job)
  }

  function Bag<T>(s: seq<QueuedJob>, f: QueuedJob -> T): multiset<T> {
    multiset(AllSeen(s, f))
  }

  lemma BagSplit<T>(a: seq<QueuedJob>, x: QueuedJob, b: seq<QueuedJob>, f: QueuedJob -> T)
    ensures Bag(a + [x] + b, f) == Bag(a + b, f) + multiset{f(x)}
  {
    assert AllSeen(a + [x] + b, f) == AllSeen(a, f) + [f(x)] + AllSeen(b, f);
    assert AllSeen(a + b, f) == AllSeen(a, f) + AllSeen(b, f);
  }

  lemma BagInsert<T>(items: seq<QueuedJob>, job: QueuedJob, f: QueuedJob -> T)
    ensures Bag(Insert(items, job), f) == Bag(items, f) + multiset{f(job)}
  {
    var i := InsertionPoint(items, job);
    InsertSplits(items, job, i);
    BagSplit(items[..i], job, items[i..], f);
    assert items[..i] + items[i..] == items;
  }

  lemma DelayedBagLast<T>(s: seq<Delayed>, d: Delayed, f: QueuedJob -> T)
    ensures Bag(DelayedJobs(s + [d]), f) == Bag(DelayedJobs(s), f) + multiset{f(d.job)}
  {
    assert AllSeen(DelayedJobs(s + [d]), f) == AllSeen(DelayedJobs(s), f) + [f(d.job)];
  }

  lemma MoveOne<T>(r: multiset<T>, k: multiset<T>, i: multiset<T>, d: multiset<T>, j: T)
    requires r + k == i + d
    ensures (r + multiset{j}) + k == i + (d + multiset{j})
    ensures r + (k + multiset{j}) == i + (d + multiset{j})
  {
    assert (r + multiset{j}) + k == (r + k) + multiset{j};
    assert r + (k + multiset{j}) == (r + k) + multiset{j};
    assert i + (d + multiset{j}) == (i + d) + multiset{j};
  }

  ghost predicate ReleaseBalances<T>(items: seq<QueuedJob>, delayed: seq<Delayed>, now: Time, f: QueuedJob -> T) {
    Bag(Released(items, delayed, now), f) + Bag(DelayedJobs(Kept(delayed, now)), f)
      == Bag(items, f) + Bag(DelayedJobs(delayed), f)
  }

  /** One more delayed item keeps the balance of a release pass. */
  lemma ReleaseOne<T>(items: seq<QueuedJob>, before: seq<Delayed>, d: Delayed, now: Time, f: QueuedJob -> T)
    requires ReleaseBalances(items, before, now, f)
    ensures ReleaseBalances(items, before + [d], now, f)
  {
    var ready, kept := Released(items, before, now), Kept(before, now);
    assert (before + [d])[..|before|] == before;
    DelayedBagLast(before, d, f);
    MoveOne(Bag(ready, f), Bag(DelayedJobs(kept), f), Bag(items, f), Bag(DelayedJobs(before), f),
            f(d.job));
    if d.available <= now {
      BagInsert(ready, d.job, f);
      assert Released(items, before + [d], now) == Insert(ready, d.job) && Kept(before + [d], now) == kept;
    } else {
      DelayedBagLast(kept, d, f);
      assert Released(items, before + [d], now) == ready && Kept(before + [d], now) == kept + [d];
    }
  }

  lemma {:induction false} ReleaseMoves<T>(items: seq<QueuedJob>, delayed: seq<Delayed>, now: Time, f: QueuedJob -> T)
    ensures ReleaseBalances(items, delayed, now, f)
    decreases delayed
  {
    if delayed != [] {
      var n := |delayed| - 1;
      ReleaseMoves(items, delayed[..n], now, f);
      ReleaseOne(items, delayed[..n], delayed[n], now, f);
      assert delayed == delayed[..n] + [delayed[n]];
    }
  }

  /** A release pass loses, invents and alters nothing: the jobs that leave the delayed items enter the
      queue, as they are. */
  lemma ReleaseConserves(items: seq<QueuedJob>, delayed: seq<Delayed>, now: Time)
    ensures multiset(Released(items, delayed, now)) + multiset(DelayedJobs(Kept(delayed, now)))
         == multiset(items) + multiset(DelayedJobs(delayed))
  {
    ReleaseMoves(items, delayed, now, Whole);
    assert forall s: seq<QueuedJob> :: AllSeen(s, Whole) == s;
  }

  lemma CountLast(s: seq<Delayed>, x: Delayed, d: Delayed)
    ensures multiset(s + [x])[d] == multiset(s)[d] + if x == d then 1 else 0
  {
    assert multiset(s + [x]) == multiset(s) + multiset{x};
  }

  lemma KeptLast(s: seq<Delayed>, x: Delayed, now: Time)
    ensures Kept(s + [x], now) == if x.available <= now then Kept(s, now) else Kept(s, now) + [x]
  {
    assert (s + [x])[..|s|] == s;
  }

  lemma {:induction false} KeptCount(delayed: seq<Delayed>, now: Time, d: Delayed)
    ensures multiset(Kept(delayed, now))[d] == if d.available <= now then 0 else multiset(delayed)[d]
    decreases delayed
  {
    if delayed != [] {
      var before, last := delayed[..|delayed| - 1], delayed[|delayed| - 1];
      assert delayed == before + [last];
      KeptCount(before, now, d);
      KeptLast(before, last, now);
      CountLast(before, last, d);
      CountLast(Kept(before, now), last, d);
    }
  }

  /** The pass splits the delayed items by time: exactly the ones not yet due stay, with order and
      multiplicity, so nothing is released early and nothing due is held back. */
  lemma KeptIsPartition(delayed: seq<Delayed>, now: Time)
    ensures forall d :: multiset(Kept(delayed, now))[d] == if d.available <= now then 0 else multiset(delayed)[d]
  {
    forall d ensures multiset(Kept(delayed, now))[d] == if d.available <= now then 0 else multiset(delayed)[d] {
      KeptCount(delayed, now, d);
    }
  }

  // ----- the queue and its consumers

  /** `items`, `delayed` and `closed` are the queue; `inflight` is with handlers; `acked` and `dropped`
      are done with; `accepted` is everything ever taken in. `out` and `next` are the reference: the
      arrivals outstanding in the ready queue, and the next arrival number. */
  datatype Sys = Sys(
    items: seq<QueuedJob>,
    delayed: seq<Delayed>,
    closed: bool,
    inflight: seq<QueuedJob>,
    acked: Lot,
    dropped: Lot,
    accepted: Lot,
    out: set<Arrival>,
    next: nat)

  const EMPTY := Sys([], [], false, [], multiset{}, multiset{}, multiset{}, {}, 0)

  datatype Op =
    | Enqueue(job: QueuedJob, now: Time)
    | EnqueueDelay(job: QueuedJob, delay: Time, now: Time)
    | Release(now: Time)
    | Pop
    | Done(i: nat)
    | Fail(i: nat, now: Time)
    | Close

  /** A job enters the ready queue. */
  function Arrive(s: Sys, job: QueuedJob): Sys {
    s.(items := Insert(s.items, job), out := s.out + {Arrival(job, s.next)}, next := s.next + 1)
  }

  /** One release pass, one delayed item after the other. */
  function ReleaseAll(s: Sys, delayed: seq<Delayed>, now: Time): Sys {
    if delayed == [] then s else
    var n := |delayed| - 1;
    var r := ReleaseAll(s, delayed[..n], now);
    if delayed[n].available <= now then Arrive(r, delayed[n].job) else r
  }

  ghost predicate RefOk(s: Sys) {
    Distinct(s.out) && forall x :: x in s.out ==> x.no < s.next
  }

  ghost function Apply(s: Sys, op: Op): Sys
    requires RefOk(s)
  {
    match op
    case Enqueue(job, now) =>
      if s.closed then s else Arrive(s.(accepted := s.accepted + multiset{Unstamped(job)}), Stamped(job, now))
    case EnqueueDelay(job, delay, now) =>
      if s.closed then s
      else if delay <= 0 then Arrive(s.(accepted := s.accepted + multiset{Unstamped(job)}), job)
      else s.(accepted := s.accepted + multiset{Unstamped(job)}, delayed := s.delayed + [Delayed(job, now + delay)])
    case Release(now) =>
      if s.closed then s else ReleaseAll(s, s.delayed, now).(delayed := Kept(s.delayed, now))
    case Pop =>
      if s.closed || s.items == [] then s
      else s.(items := s.items[1..], inflight := s.inflight + [s.items[0]],
              out := if s.out == {} then {} else s.out - {First(s.out)})
    case Done(i) =>
      if i >= |s.inflight| then s
      else s.(inflight := s.inflight[..i] + s.inflight[i + 1..],
              acked := s.acked + multiset{Unstamped(s.inflight[i])})
    case Fail(i, now) =>
      if i >= |s.inflight| then s
      else
        var t := s.(inflight := s.inflight[..i] + s.inflight[i + 1..]);
        if s.closed then t.(dropped := t.dropped + multiset{Unstamped(s.inflight[i])})
        else Arrive(t, Stamped(s.inflight[i], now))
    case Close => s.(closed := true)
  }

  ghost predicate Inv(s: Sys) {
    && RefOk(s)
    && s.items == Jobs(StableSort(s.out))
    && s.accepted == Held(s)
    && (!s.closed ==> s.dropped == multiset{})
  }

  lemma ArriveSorts(s: Sys, job: QueuedJob)
    requires RefOk(s) && s.items == Jobs(StableSort(s.out))
    ensures RefOk(Arrive(s, job)) && Arrive(s, job).items == Jobs(StableSort(Arrive(s, job).out))
    ensures Bag(Arrive(s, job).items, Unstamped) == Bag(s.items, Unstamped) + multiset{Unstamped(job)}
  {
    InsertIsSort(s.out, Arrival(job, s.next));
    BagInsert(s.items, job, Unstamped);
  }

  lemma {:induction false} ReleaseSorts(s: Sys, delayed: seq<Delayed>, now: Time)
    requires RefOk(s) && s.items == Jobs(StableSort(s.out))
    ensures var r := ReleaseAll(s, delayed, now);
      && RefOk(r) && r.items == Jobs(StableSort(r.out)) && r.items == Released(s.items, delayed, now)
      && r.(items := s.items, out := s.out, next := s.next) == s
    decreases delayed
  {
    if delayed != [] {
      var n := |delayed| - 1;
      ReleaseSorts(s, delayed[..n], now);
      ArriveSorts(ReleaseAll(s, delayed[..n], now), delayed[n].job);
    }
  }

  /** Popping takes the first of the outstanding arrivals. */
  lemma PopTakesFirst(s: Sys)
    requires RefOk(s) && s.items == Jobs(StableSort(s.out)) && s.items != []
    ensures s.out != {} && s.items[0] == First(s.out).job
    ensures s.items[1..] == Jobs(StableSort(s.out - {First(s.out)}))
  {
    JobsCons(First(s.out), StableSort(s.out - {First(s.out)}));
  }

  lemma BagTake(s: seq<QueuedJob>, i: nat)
    requires i < |s|
    ensures Bag(s, Unstamped) == Bag(s[..i] + s[i + 1..], Unstamped) + multiset{Unstamped(s[i])}
  {
    BagSplit(s[..i], s[i], s[i + 1..], Unstamped);
    assert s == s[..i] + [s[i]] + s[i + 1..];
  }

  /** The order: the ready queue stays the stable sort of its arrivals. */
  lemma StepSorts(s: Sys, op: Op)
    requires RefOk(s) && s.items == Jobs(StableSort(s.out))
    ensures RefOk(Apply(s, op)) && Apply(s, op).items == Jobs(StableSort(Apply(s, op).out))
  {
    match op
    case Enqueue(job, now) => ArriveSorts(s, Stamped(job, now));
    case EnqueueDelay(job, delay, now) => ArriveSorts(s, job);
    case Release(now) => ReleaseSorts(s, s.delayed, now);
    case Pop => if !s.closed && s.items != [] { PopTakesFirst(s); }
    case Done(i) =>
    case Fail(i, now) => if i < |s.inflight| { ArriveSorts(s, Stamped(s.inflight[i], now)); }
    case Close =>
  }

  /** Where the jobs are. */
  ghost function Held(s: Sys): Lot {
    Sum(Bag(s.items, Unstamped), Bag(DelayedJobs(s.delayed), Unstamped), Bag(s.inflight, Unstamped), s.acked, s.dropped)
  }

  lemma BagHead(s: seq<QueuedJob>)
    requires s != []
    ensures Bag(s, Unstamped) == Bag(s[1..], Unstamped) + multiset{Unstamped(s[0])}
  {
    assert AllSeen(s, Unstamped) == [Unstamped(s[0])] + AllSeen(s[1..], Unstamped);
  }

  lemma BagLast(s: seq<QueuedJob>, x: QueuedJob)
    ensures Bag(s + [x], Unstamped) == Bag(s, Unstamped) + multiset{Unstamped(x)}
  {
    assert AllSeen(s + [x], Unstamped) == AllSeen(s, Unstamped) + [Unstamped(x)];
  }

  function Sum(a: Lot, b: Lot, c: Lot, d: Lot, e: Lot): Lot {
    a + b + c + d + e
  }

  lemma SumAdds(a: Lot, b: Lot, c: Lot, d: Lot, e: Lot, x: Lot)
    ensures Sum(a + x, b, c, d, e) == Sum(a, b, c, d, e) + x
    ensures Sum(a, b + x, c, d, e) == Sum(a, b, c, d, e) + x
    ensures Sum(a, b, c + x, d, e) == Sum(a, b, c, d, e) + x
    ensures Sum(a, b, c, d + x, e) == Sum(a, b, c, d, e) + x
    ensures Sum(a, b, c, d, e + x) == Sum(a, b, c, d, e) + x
  {
  }

  lemma SumPair(a: Lot, b: Lot, a': Lot, b': Lot, c: Lot, d: Lot, e: Lot)
    requires a + b == a' + b'
    ensures Sum(a, b, c, d, e) == Sum(a', b', c, d, e)
  {
  }

  /** What a step takes in. */
  function Taken(s: Sys, op: Op): Lot {
    if !s.closed && (op.Enqueue? || op.EnqueueDelay?) then multiset{Unstamped(op.job)} else multiset{}
  }

  ghost predicate Conserves(s: Sys, op: Op)
    requires RefOk(s)
  {
    Apply(s, op).accepted == s.accepted + Taken(s, op) && Held(Apply(s, op)) == Held(s) + Taken(s, op)
  }

  lemma EnqueueConserves(s: Sys, job: QueuedJob, now: Time)
    requires RefOk(s)
    ensures Conserves(s, Enqueue(job, now))
  {
    BagInsert(s.items, Stamped(job, now), Unstamped);
    SumAdds(Bag(s.items, Unstamped), Bag(DelayedJobs(s.delayed), Unstamped), Bag(s.inflight, Unstamped),
            s.acked, s.dropped, multiset{Unstamped(job)});
  }

  lemma NoDelayConserves(s: Sys, job: QueuedJob, delay: Time, now: Time)
    requires RefOk(s) && delay <= 0
    ensures Conserves(s, EnqueueDelay(job, delay, now))
  {
    BagInsert(s.items, job, Unstamped);
    SumAdds(Bag(s.items, Unstamped), Bag(DelayedJobs(s.delayed), Unstamped), Bag(s.inflight, Unstamped),
            s.acked, s.dropped, multiset{Unstamped(job)});
  }

  lemma LaterOnConserves(s: Sys, job: QueuedJob, delay: Time, now: Time)
    requires RefOk(s) && delay > 0 && !s.closed
    ensures Conserves(s, EnqueueDelay(job, delay, now))
  {
    var one, d := multiset{Unstamped(job)}, Delayed(job, now + delay);
    assert Taken(s, EnqueueDelay(job, delay, now)) == one;
    assert Apply(s, EnqueueDelay(job, delay, now)) == s.(accepted := s.accepted + one, delayed := s.delayed + [d]);
    LaterConserves(s, d, s.accepted + one);
  }

  lemma ClosedConserves(s: Sys, job: QueuedJob, delay: Time, now: Time)
    requires RefOk(s) && s.closed
    ensures Conserves(s, EnqueueDelay(job, delay, now))
  {
    assert Apply(s, EnqueueDelay(job, delay, now)) == s;
  }

  lemma DelayConserves(s: Sys, job: QueuedJob, delay: Time, now: Time)
    requires RefOk(s)
    ensures Conserves(s, EnqueueDelay(job, delay, now))
  {
    if s.closed { ClosedConserves(s, job, delay, now); }
    else if delay <= 0 { NoDelayConserves(s, job, delay, now); }
    else { LaterOnConserves(s, job, delay, now); }
  }

  lemma LaterConserves(s: Sys, d: Delayed, accepted: Lot)
    ensures Held(s.(accepted := accepted, delayed := s.delayed + [d])) == Held(s) + multiset{Unstamped(d.job)}
  {
    DelayedBagLast(s.delayed, d, Unstamped);
    SumAdds(Bag(s.items, Unstamped), Bag(DelayedJobs(s.delayed), Unstamped), Bag(s.inflight, Unstamped),
            s.acked, s.dropped, multiset{Unstamped(d.job)});
  }

  lemma ReleaseHolds(s: Sys, now: Time)
    requires RefOk(s) && s.items == Jobs(StableSort(s.out))
    ensures Conserves(s, Release(now))
  {
    ReleaseSorts(s, s.delayed, now);
    ReleaseMoves(s.items, s.delayed, now, Unstamped);
    SumPair(Bag(s.items, Unstamped), Bag(DelayedJobs(s.delayed), Unstamped),
            Bag(Released(s.items, s.delayed, now), Unstamped),
            Bag(DelayedJobs(Kept(s.delayed, now)), Unstamped), Bag(s.inflight, Unstamped), s.acked, s.dropped);
  }

  lemma PopConserves(s: Sys)
    requires RefOk(s)
    ensures Conserves(s, Pop)
  {
    if s.items != [] {
      BagHead(s.items);
      BagLast(s.inflight, s.items[0]);
      SumAdds(Bag(s.items[1..], Unstamped), Bag(DelayedJobs(s.delayed), Unstamped), Bag(s.inflight, Unstamped),
              s.acked, s.dropped, multiset{Unstamped(s.items[0])});
    }
  }

  /** Whatever a handler says, its job goes somewhere. */
  lemma DoneConserves(s: Sys, i: nat)
    requires RefOk(s)
    ensures Conserves(s, Done(i))
  {
    if i < |s.inflight| {
      BagTake(s.inflight, i);
      SumAdds(Bag(s.items, Unstamped), Bag(DelayedJobs(s.delayed), Unstamped),
              Bag(s.inflight[..i] + s.inflight[i + 1..], Unstamped),
              s.acked, s.dropped, multiset{Unstamped(s.inflight[i])});
    }
  }

  lemma FailConserves(s: Sys, i: nat, now: Time)
    requires RefOk(s)
    ensures Conserves(s, Fail(i, now))
  {
    if i < |s.inflight| {
      BagTake(s.inflight, i);
      BagInsert(s.items, Stamped(s.inflight[i], now), Unstamped);
      SumAdds(Bag(s.items, Unstamped), Bag(DelayedJobs(s.delayed), Unstamped),
              Bag(s.inflight[..i] + s.inflight[i + 1..], Unstamped),
              s.acked, s.dropped, multiset{Unstamped(s.inflight[i])});
    }
  }

  /** The jobs: a step moves them around, or takes one in. */
  lemma StepConserves(s: Sys, op: Op)
    requires RefOk(s) && s.items == Jobs(StableSort(s.out))
    ensures Conserves(s, op)
  {
    match op
    case Enqueue(job, now) => EnqueueConserves(s, job, now);
    case EnqueueDelay(job, delay, now) => DelayConserves(s, job, delay, now);
    case Release(now) => ReleaseHolds(s, now);
    case Pop => PopConserves(s);
    case Done(i) => DoneConserves(s, i);
    case Fail(i, now) => FailConserves(s, i, now);
    case Close =>
  }

  lemma StepKeeps(s: Sys, op: Op)
    requires Inv(s)
    ensures Inv(Apply(s, op))
  {
    StepSorts(s, op);
    StepBalances(s, op);
    DropsNothing(s, op);
  }

  lemma StepBalances(s: Sys, op: Op)
    requires RefOk(s) && s.items == Jobs(StableSort(s.out)) && s.accepted == Held(s)
    ensures Apply(s, op).accepted == Held(Apply(s, op))
  {
    StepConserves(s, op);
  }

  lemma DropsNothing(s: Sys, op: Op)
    requires RefOk(s) && s.items == Jobs(StableSort(s.out)) && (!s.closed ==> s.dropped == multiset{})
    ensures !Apply(s, op).closed ==> Apply(s, op).dropped == multiset{}
  {
    if op.Release? { ReleaseSorts(s, s.delayed, op.now); }
  }

  /** Every state of every run, from an empty queue. */
  ghost function Run(ops: seq<Op>): (s: Sys)
    ensures RefOk(s)
    ensures Inv(s)
  {
    if ops == [] then EMPTY else
    var s := Run(ops[..|ops| - 1]);
    StepKeeps(s, ops[|ops| - 1]);
    Apply(s, ops[|ops| - 1])
  }

  // ----- main results

  /** After any sequence of enqueues, releases, pops, acknowledgements and failed handlers, the ready
      queue is the stable sort of the outstanding arrivals; no job is lost or invented, and none is
      dropped while the queue is open. */
  lemma QueueRefinesSort(ops: seq<Op>)
    ensures var s := Run(ops);
      && s.items == Jobs(StableSort(s.out))
      && s.accepted
         == Bag(s.items, Unstamped) + Bag(DelayedJobs(s.delayed), Unstamped) + Bag(s.inflight, Unstamped)
            + s.acked + s.dropped
      && (!s.closed ==> s.dropped == multiset{})
  {
    assert Inv(Run(ops));
  }

  /** So the next job to be popped is ahead of, or level with and no later an arrival than, every other
      outstanding one. */
  lemma PopIsBest(ops: seq<Op>)
    ensures var s := Run(ops);
      s.items != [] ==>
        exists x :: x in s.out && s.items[0] == x.job && forall y :: y in s.out && y != x ==>
          || x.job.priority > y.job.priority
          || (x.job.priority == y.job.priority && x.job.enqueuedAt < y.job.enqueuedAt)
          || (x.job.priority == y.job.priority && x.job.enqueuedAt == y.job.enqueuedAt && x.no < y.no)
  {
    if Run(ops).items != [] {
      PopTakesFirst(Run(ops));
      assert IsFirst(Run(ops).out, First(Run(ops).out));
      assert forall y :: y in Run(ops).out && y != First(Run(ops).out) ==> Precedes(First(Run(ops).out), y);
    }
  }

  /** And a job precedes every later-stamped job of its priority and every job of lower priority,
      whether it arrived first, was released late or was put back by a failed handler. */
  lemma EarlierStampFirst(ops: seq<Op>)
    ensures InOrder(Run(ops).items)
  {
    SortIsSort(Run(ops).out);
  }

  // ----- the order and the times, by the fields of the jobs

  /** Over every run the ready queue is ordered by priority, the highest first, then by enqueue time, the
      earliest first, then by arrival. */
  lemma OrderOfService(ops: seq<Op>, i: nat, k: nat) returns (x: Arrival, y: Arrival)
    requires i < k < |Run(ops).items|
    ensures var s := Run(ops); x in s.out && y in s.out && s.items[i] == x.job && s.items[k] == y.job
    ensures var a, b := Run(ops).items[i], Run(ops).items[k];
      || a.priority > b.priority
      || (a.priority == b.priority && a.enqueuedAt < b.enqueuedAt)
      || (a.priority == b.priority && a.enqueuedAt == b.enqueuedAt && x.no < y.no)
  {
    var t := StableSort(Run(ops).out);
    SortIsSort(Run(ops).out);
    x, y := t[i], t[k];
    assert x in t && y in t && Precedes(x, y);
  }

  /** A pop of an open queue hands out its first job, which no other outstanding one exceeds in priority and
      no other of its priority precedes in time. */
  lemma PopServes(ops: seq<Op>)
    requires !Run(ops).closed && Run(ops).items != []
    ensures var s, t := Run(ops), Apply(Run(ops), Pop);
      && |t.inflight| == |s.inflight| + 1 && t.inflight[..|s.inflight|] == s.inflight
      && var best := t.inflight[|s.inflight|];
      && s.items == [best] + t.items
      && forall k :: 0 <= k < |t.items| ==>
           || best.priority > t.items[k].priority
           || (best.priority == t.items[k].priority && best.enqueuedAt <= t.items[k].enqueuedAt)
  {
    forall k | 0 < k < |Run(ops).items| ensures NoLater(Run(ops).items[0], Run(ops).items[k]) {
      var x, y := OrderOfService(ops, 0, k);
    }
    Serves(Run(ops));
  }

  lemma Serves(s: Sys)
    requires RefOk(s) && !s.closed && s.items != []
    requires forall k :: 0 < k < |s.items| ==> NoLater(s.items[0], s.items[k])
    ensures var t := Apply(s, Pop);
      && |t.inflight| == |s.inflight| + 1 && t.inflight[..|s.inflight|] == s.inflight
      && t.inflight[|s.inflight|] == s.items[0] && s.items == [s.items[0]] + t.items
      && forall k :: 0 <= k < |t.items| ==> NoLater(s.items[0], t.items[k])
  {
  }

  /** A job that comes in is stamped with the time if it has no stamp. A delayed one is not; it is held for
      its delay. */
  lemma Admission(ops: seq<Op>, job: QueuedJob, delay: Time, now: Time)
    requires !Run(ops).closed
    ensures multiset(Apply(Run(ops), Enqueue(job, now)).items) == multiset(Run(ops).items)
      + multiset{if job.enqueuedAt == 0 then job.(enqueuedAt := now) else job}
    ensures var s, t := Run(ops), Apply(Run(ops), EnqueueDelay(job, delay, now));
      if delay > 0 then t.items == s.items && t.delayed == s.delayed + [Delayed(job, now + delay)]
      else multiset(t.items) == multiset(s.items) + multiset{job} && t.delayed == s.delayed
  {
    Admits(Run(ops), job, delay, now);
  }

  lemma Admits(s: Sys, job: QueuedJob, delay: Time, now: Time)
    requires RefOk(s) && !s.closed
    ensures multiset(Apply(s, Enqueue(job, now)).items) == multiset(s.items) + multiset{Stamped(job, now)}
    ensures var t := Apply(s, EnqueueDelay(job, delay, now));
      if delay > 0 then t.items == s.items && t.delayed == s.delayed + [Delayed(job, now + delay)]
      else multiset(t.items) == multiset(s.items) + multiset{job} && t.delayed == s.delayed
  {
    InsertAdds(s.items, job);
    InsertAdds(s.items, Stamped(job, now));
  }

  lemma InsertAdds(items: seq<QueuedJob>, job: QueuedJob)
    ensures multiset(Insert(items, job)) == multiset(items) + multiset{job}
  {
    BagInsert(items, job, Whole);
    assert AllSeen(items, Whole) == items && AllSeen(Insert(items, job), Whole) == Insert(items, job);
  }

  /** The job is one that came in, with its stamp, unless it came without one. */
  ghost predicate CameIn(ops: seq<Op>, x: QueuedJob) {
    exists i :: 0 <= i < |ops| && (ops[i].Enqueue? || ops[i].EnqueueDelay?) && IsStill(ops[i].job, x)
  }

  predicate IsStill(y: QueuedJob, x: QueuedJob) {
    x == y || (y.enqueuedAt == 0 && x.(enqueuedAt := 0) == y)
  }

  lemma CameInBefore(ops: seq<Op>, x: QueuedJob, now: Time)
    requires ops != [] && CameIn(ops[..|ops| - 1], x)
    ensures CameIn(ops, x) && CameIn(ops, Stamped(x, now))
  {
    var i :| 0 <= i < |ops| - 1 && (ops[i].Enqueue? || ops[i].EnqueueDelay?) && IsStill(ops[i].job, x);
    assert IsStill(ops[i].job, Stamped(x, now));
  }

  ghost predicate AllCameIn(ops: seq<Op>, s: Sys) {
    && (forall x :: x in s.items ==> CameIn(ops, x))
    && (forall d :: d in s.delayed ==> CameIn(ops, d.job))
    && (forall x :: x in s.inflight ==> CameIn(ops, x))
  }

  lemma InsertMembers(items: seq<QueuedJob>, job: QueuedJob)
    ensures forall x :: x in Insert(items, job) <==> x in items || x == job
  {
    var i := InsertionPoint(items, job);
    InsertSplits(items, job, i);
    assert items == items[..i] + items[i..];
  }

  lemma {:induction false} ReleasedMembers(items: seq<QueuedJob>, delayed: seq<Delayed>, now: Time)
    ensures forall x :: x in Released(items, delayed, now) ==> x in items || exists d :: d in delayed && d.job == x
    ensures forall d :: d in Kept(delayed, now) <==> d in delayed && now < d.available
    decreases delayed
  {
    if delayed != [] {
      var n := |delayed| - 1;
      ReleasedMembers(items, delayed[..n], now);
      assert delayed == delayed[..n] + [delayed[n]];
      InsertMembers(Released(items, delayed[..n], now), delayed[n].job);
      assert delayed[n] in delayed;
    }
  }

  lemma ComesIn(ops: seq<Op>, job: QueuedJob, now: Time)
    requires ops != [] && (ops[|ops| - 1].Enqueue? || ops[|ops| - 1].EnqueueDelay?) && ops[|ops| - 1].job == job
    ensures CameIn(ops, job) && CameIn(ops, Stamped(job, now))
  {
    assert IsStill(ops[|ops| - 1].job, job) && IsStill(ops[|ops| - 1].job, Stamped(job, now));
  }

  lemma CameInStep(ops: seq<Op>, s: Sys)
    requires ops != [] && RefOk(s) && s.items == Jobs(StableSort(s.out)) && AllCameIn(ops[..|ops| - 1], s)
    ensures AllCameIn(ops, Apply(s, ops[|ops| - 1]))
  {
    var before, op := ops[..|ops| - 1], ops[|ops| - 1];
    forall x | CameIn(before, x) ensures CameIn(ops, x) { CameInBefore(ops, x, 0); }
    match op
    case Enqueue(job, now) =>
      ComesIn(ops, job, now);
      InsertMembers(s.items, Stamped(job, now));
    case EnqueueDelay(job, delay, now) =>
      ComesIn(ops, job, now);
      InsertMembers(s.items, job);
    case Release(now) =>
      ReleaseSorts(s, s.delayed, now);
      ReleasedMembers(s.items, s.delayed, now);
    case Pop => if s.items != [] { assert s.items == [s.items[0]] + s.items[1..]; }
    case Done(i) =>
    case Fail(i, now) =>
      if i < |s.inflight| {
        CameInBefore(ops, s.inflight[i], now);
        InsertMembers(s.items, Stamped(s.inflight[i], now));
      }
    case Close =>
  }

  /** Over every run each job that is ready, delayed or with a handler is one that came in, as it came in: a
      stamp is filled in where there was none and never changed, so a job put back by a failed handler
      keeps its place in time. */
  lemma {:induction false} StampsAreKept(ops: seq<Op>)
    ensures AllCameIn(ops, Run(ops))
    decreases ops
  {
    if ops != [] {
      StampsAreKept(ops[..|ops| - 1]);
      CameInStep(ops, Run(ops[..|ops| - 1]));
    }
  }

  predicate Delays(op: Op, d: Delayed) {
    op.EnqueueDelay? && op.delay > 0 && d == Delayed(op.job, op.now + op.delay)
  }

  /** Operation `i` delayed the job, and no release pass has come at or after its time since. */
  ghost predicate WaitsSince(ops: seq<Op>, d: Delayed, i: nat) {
    && i < |ops| && Delays(ops[i], d)
    && forall k :: i < k < |ops| && ops[k].Release? && Close !in ops[..k] ==> ops[k].now < d.available
  }

  /** The queue is closed once it has been. */
  lemma {:induction false} ClosedOnce(ops: seq<Op>)
    ensures Run(ops).closed <==> Close in ops
    decreases ops
  {
    if ops != [] {
      var n := |ops| - 1;
      ClosedOnce(ops[..n]);
      CloseLast(ops);
      ClosedStep(Run(ops[..n]), ops[n]);
    }
  }

  lemma CloseLast(ops: seq<Op>)
    requires ops != []
    ensures Close in ops <==> Close in ops[..|ops| - 1] || ops[|ops| - 1] == Close
  {
    assert ops == ops[..|ops| - 1] + [ops[|ops| - 1]];
  }

  lemma ClosedStep(s: Sys, op: Op)
    requires RefOk(s) && s.items == Jobs(StableSort(s.out))
    ensures Apply(s, op).closed <==> s.closed || op == Close
  {
    if op.Release? { ReleaseSorts(s, s.delayed, op.now); }
  }

  lemma DelayedStep(s: Sys, op: Op, d: Delayed)
    requires RefOk(s) && s.items == Jobs(StableSort(s.out)) && d in Apply(s, op).delayed
    ensures
      || (d in s.delayed && (op.Release? && !s.closed ==> op.now < d.available))
      || Delays(op, d)
  {
    if op.Release? && !s.closed {
      ReleaseSorts(s, s.delayed, op.now);
      ReleasedMembers(s.items, s.delayed, op.now);
    }
  }

  /** Over every run no job is held back beyond its delay: what is still held was delayed to a time that
      no release pass of the open queue has reached since. */
  lemma {:induction false} HeldUntilDue(ops: seq<Op>, d: Delayed) returns (i: nat)
    requires d in Run(ops).delayed
    ensures WaitsSince(ops, d, i)
    decreases ops
  {
    StartsEmpty(ops, d);
    DelayedLast(ops, d);
    var n := |ops| - 1;
    if Delays(ops[n], d) {
      i := n;
    } else {
      i := HeldUntilDue(ops[..n], d);
      WaitsOn(ops, d, i);
    }
  }

  lemma StartsEmpty(ops: seq<Op>, d: Delayed)
    requires d in Run(ops).delayed
    ensures ops != []
  {
  }

  /** The last operation held the job back, or left it held. */
  ghost predicate HoldsOn(ops: seq<Op>, d: Delayed, held: bool, closed: bool)
    requires ops != []
  {
    var op := ops[|ops| - 1];
    Delays(op, d) || (held && (op.Release? && !closed ==> op.now < d.available))
  }

  lemma DelayedLast(ops: seq<Op>, d: Delayed)
    requires ops != [] && d in Run(ops).delayed
    ensures HoldsOn(ops, d, d in Run(ops[..|ops| - 1]).delayed, Close in ops[..|ops| - 1])
  {
    ClosedOnce(ops[..|ops| - 1]);
    DelayedOnce(ops, d);
  }

  lemma DelayedOnce(ops: seq<Op>, d: Delayed)
    requires ops != [] && d in Run(ops).delayed
    ensures HoldsOn(ops, d, d in Run(ops[..|ops| - 1]).delayed, Run(ops[..|ops| - 1]).closed)
  {
    DelayedStep(Run(ops[..|ops| - 1]), ops[|ops| - 1], d);
  }

  lemma WaitsOn(ops: seq<Op>, d: Delayed, i: nat)
    requires ops != [] && WaitsSince(ops[..|ops| - 1], d, i)
    requires ops[|ops| - 1].Release? && Close !in ops[..|ops| - 1] ==> ops[|ops| - 1].now < d.available
    ensures WaitsSince(ops, d, i)
  {
    assert forall k :: 0 <= k < |ops| ==> ops[..|ops| - 1][..k] == ops[..k];
  }
}
