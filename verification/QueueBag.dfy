/** The in-memory queue as the lifecycle sees it: a bag of messages. Ready, delayed and in-flight jobs
    together change exactly as the lifecycle's queue does, so the scheduler runs on this queue. */
module QueueBag {
  import opened Domain
  import opened QueueOrder
  import opened QueueRuns
  import L = Lifecycle

  function ToMsg(x: QueuedJob): Msg {
    Msg(x.id, x.attempt)
  }

  /** What is queued: a job stays so while a handler works on it. */
  function Bagged(s: Sys): multiset<Msg> {
    Three(Bag(s.items, ToMsg), Bag(DelayedJobs(s.delayed), ToMsg), Bag(s.inflight, ToMsg))
  }

  lemma BaggedLast(s: seq<QueuedJob>, x: QueuedJob)
    ensures Bag(s + [x], ToMsg) == Bag(s, ToMsg) + multiset{ToMsg(x)}
  {
    BagSplit(s, x, [], ToMsg);
    assert s + [x] + [] == s + [x] && s + [] == s;
  }

  lemma BaggedFirst(s: seq<QueuedJob>)
    requires s != []
    ensures Bag(s, ToMsg) == Bag(s[1..], ToMsg) + multiset{ToMsg(s[0])}
  {
    BagSplit([], s[0], s[1..], ToMsg);
    assert [] + [s[0]] + s[1..] == s && [] + s[1..] == s[1..];
  }

  lemma BaggedAt(s: seq<QueuedJob>, i: nat)
    requires i < |s|
    ensures Bag(s, ToMsg) == Bag(s[..i] + s[i + 1..], ToMsg) + multiset{ToMsg(s[i])}
  {
    BagSplit(s[..i], s[i], s[i + 1..], ToMsg);
    assert s[..i] + [s[i]] + s[i + 1..] == s;
  }

  type Msgs = multiset<Msg>

  function Three(a: Msgs, b: Msgs, c: Msgs): Msgs {
    a + b + c
  }

  lemma OneIn(a: Msgs, b: Msgs, c: Msgs, x: Msg)
    ensures Three(a + multiset{x}, b, c) == Three(a, b, c) + multiset{x}
    ensures Three(a, b + multiset{x}, c) == Three(a, b, c) + multiset{x}
    ensures Three(a, b, c + multiset{x}) == Three(a, b, c) + multiset{x}
    ensures Three(a, b, c) == Three(a, b, c) + multiset{x} - multiset{x}
  {
  }

  lemma PairMoves(a: Msgs, b: Msgs, a': Msgs, b': Msgs, c: Msgs)
    requires a + b == a' + b'
    ensures Three(a, b, c) == Three(a', b', c)
  {
  }

  // ----- one operation

  /** Taking a job in adds its message. */
  lemma TakesIn(s: Sys, job: QueuedJob, now: Time)
    requires RefOk(s) && !s.closed
    ensures Bagged(Apply(s, Enqueue(job, now))) == Bagged(s) + multiset{ToMsg(job)}
  {
    BagInsert(s.items, Stamped(job, now), ToMsg);
    OneIn(Bag(s.items, ToMsg), Bag(DelayedJobs(s.delayed), ToMsg), Bag(s.inflight, ToMsg), ToMsg(job));
  }

  lemma DelaysOne(s: Sys, d: Delayed, accepted: Lot)
    ensures Bagged(s.(accepted := accepted, delayed := s.delayed + [d])) == Bagged(s) + multiset{ToMsg(d.job)}
  {
    DelayedBagLast(s.delayed, d, ToMsg);
    OneIn(Bag(s.items, ToMsg), Bag(DelayedJobs(s.delayed), ToMsg), Bag(s.inflight, ToMsg), ToMsg(d.job));
  }

  lemma InsertsOne(s: Sys, job: QueuedJob, accepted: Lot)
    ensures Bagged(Arrive(s.(accepted := accepted), job)) == Bagged(s) + multiset{ToMsg(job)}
  {
    BagInsert(s.items, job, ToMsg);
    OneIn(Bag(s.items, ToMsg), Bag(DelayedJobs(s.delayed), ToMsg), Bag(s.inflight, ToMsg), ToMsg(job));
  }

  /** At once or delayed. */
  lemma TakesInDelayed(s: Sys, job: QueuedJob, delay: Time, now: Time)
    requires RefOk(s) && !s.closed
    ensures Bagged(Apply(s, EnqueueDelay(job, delay, now))) == Bagged(s) + multiset{ToMsg(job)}
  {
    var accepted := s.accepted + multiset{Unstamped(job)};
    if delay <= 0 {
      InsertsOne(s, job, accepted);
    } else {
      DelaysOne(s, Delayed(job, now + delay), accepted);
    }
  }

  /** A closed queue takes nothing in. */
  lemma ClosedTakesNothing(s: Sys, job: QueuedJob, delay: Time, now: Time)
    requires RefOk(s) && s.closed
    ensures Apply(s, Enqueue(job, now)) == s && Apply(s, EnqueueDelay(job, delay, now)) == s
  {
  }

  /** Releasing changes nothing. */
  lemma Releases(s: Sys, now: Time)
    requires RefOk(s) && s.items == Jobs(StableSort(s.out))
    ensures Bagged(Apply(s, Release(now))) == Bagged(s)
  {
    ReleaseSorts(s, s.delayed, now);
    ReleaseMoves(s.items, s.delayed, now, ToMsg);
    PairMoves(Bag(Released(s.items, s.delayed, now), ToMsg), Bag(DelayedJobs(Kept(s.delayed, now)), ToMsg),
              Bag(s.items, ToMsg), Bag(DelayedJobs(s.delayed), ToMsg), Bag(s.inflight, ToMsg));
  }

  /** A popped job stays in the bag. */
  lemma Pops(s: Sys)
    requires RefOk(s)
    ensures Bagged(Apply(s, Pop)) == Bagged(s)
  {
    if !s.closed && s.items != [] {
      var x := s.items[0];
      BaggedFirst(s.items);
      BaggedLast(s.inflight, x);
      OneIn(Bag(s.items[1..], ToMsg), Bag(DelayedJobs(s.delayed), ToMsg), Bag(s.inflight, ToMsg), ToMsg(x));
    }
  }

  /** The state without an in-flight job. */
  function Without(s: Sys, i: nat): Sys
    requires i < |s.inflight|
  {
    s.(inflight := s.inflight[..i] + s.inflight[i + 1..])
  }

  lemma TakesOut(s: Sys, i: nat)
    requires i < |s.inflight|
    ensures Bagged(s) == Bagged(Without(s, i)) + multiset{ToMsg(s.inflight[i])}
  {
    BaggedAt(s.inflight, i);
    OneIn(Bag(s.items, ToMsg), Bag(DelayedJobs(s.delayed), ToMsg), Bag(Without(s, i).inflight, ToMsg),
          ToMsg(s.inflight[i]));
  }

  /** An acknowledged job is gone. */
  lemma Acknowledges(s: Sys, i: nat)
    requires RefOk(s) && i < |s.inflight|
    ensures Bagged(Apply(s, Done(i))) == Bagged(s) - multiset{ToMsg(s.inflight[i])}
  {
    TakesOut(s, i);
    assert Bagged(Apply(s, Done(i))) == Bagged(Without(s, i));
  }

  lemma FailsClosed(s: Sys, i: nat, now: Time)
    requires RefOk(s) && i < |s.inflight| && s.closed
    ensures Bagged(Apply(s, Fail(i, now))) == Bagged(s) - multiset{ToMsg(s.inflight[i])}
  {
    TakesOut(s, i);
    assert Bagged(Apply(s, Fail(i, now))) == Bagged(Without(s, i));
  }

  lemma FailsOpen(s: Sys, i: nat, now: Time)
    requires RefOk(s) && i < |s.inflight| && !s.closed
    ensures Bagged(Apply(s, Fail(i, now))) == Bagged(s)
  {
    var t, back := Without(s, i), Stamped(s.inflight[i], now);
    TakesOut(s, i);
    InsertsOne(t, back, t.accepted);
    assert t.(accepted := t.accepted) == t;
    assert Apply(s, Fail(i, now)) == Arrive(t, back);
  }

  /** A failed one is back, unless the queue has closed. */
  lemma Fails(s: Sys, i: nat, now: Time)
    requires RefOk(s) && i < |s.inflight|
    ensures Bagged(Apply(s, Fail(i, now))) ==
      if s.closed then Bagged(s) - multiset{ToMsg(s.inflight[i])} else Bagged(s)
  {
    if s.closed { FailsClosed(s, i, now); } else { FailsOpen(s, i, now); }
  }

  // ----- the lifecycle's operations on it

  /** One turn of the consumer loop: pop, and then acknowledge or put back. */
  ghost function Turned(s: Sys, err: bool, now: Time): Sys
    requires Inv(s)
  {
    StepKeeps(s, Pop);
    Apply(Apply(s, Pop), if err then Fail(|s.inflight|, now) else Done(|s.inflight|))
  }

  lemma TurnBags(s: Sys, err: bool, now: Time)
    requires Inv(s) && !s.closed && s.items != []
    ensures ToMsg(s.items[0]) in Bagged(s)
    ensures Bagged(Turned(s, err, now)) == if err then Bagged(s) else Bagged(s) - multiset{ToMsg(s.items[0])}
  {
    StepKeeps(s, Pop);
    Pops(s);
    Acknowledges(Apply(s, Pop), |s.inflight|);
    Fails(Apply(s, Pop), |s.inflight|, now);
    BaggedFirst(s.items);
  }

  /** A delivery takes its message from the bag exactly as a turn of the loop with its handler does. */
  lemma DeliveryIsTurn(
    s: Sys, c: L.Core, now: Time, pick: Option<Id>, e: Id, push: L.PushOutcome)
    requires Inv(s) && !s.closed && s.items != [] && c.queue == Bagged(s)
    ensures var m := ToMsg(s.items[0]);
      && m in c.queue
      && L.Deliver(c, now, m, pick, e, push).queue
         == Bagged(Turned(s, L.Handle(c, now, m, pick, e, push).1, now))
  {
    TurnBags(s, L.Handle(c, now, ToMsg(s.items[0]), pick, e, push).1, now);
    HandleKeepsQueue(c, now, ToMsg(s.items[0]), pick, e, push);
  }

  lemma HandleKeepsQueue(c: L.Core, now: Time, m: Msg, pick: Option<Id>, e: Id, push: L.PushOutcome)
    ensures L.Handle(c, now, m, pick, e, push).0.queue == c.queue
  {
  }

  /** Promotion and the API's enqueue put in the message of the job they queue. */
  lemma QueueingIsEnqueue(s: Sys, c: L.Core, now: Time, id: Id, job: QueuedJob)
    requires RefOk(s) && !s.closed && c.queue == Bagged(s) && id in c.jobs && ToMsg(job) == Msg(id, c.jobs[id].attempt)
    ensures L.PromoteSend(c, id).queue == Bagged(Apply(s, Enqueue(job, now)))
    ensures L.ApiEnqueue(c, now, id).queue == Bagged(Apply(s, Enqueue(job, now)))
  {
    TakesIn(s, job, now);
  }
}
