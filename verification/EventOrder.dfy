/** The order in which a job's events reach the log. */
module EventOrder {
  import opened Domain
  import opened Outbox
  import opened EventPipeline

  predicate Mine(x: OutboxRow, topic: Topic, job: Id) {
    x.aggregate == job && TopicFor(x.eventType) == topic
  }

  /** The rows of one aggregate on one topic, in order. */
  function OfJob(s: Rows, topic: Topic, job: Id): Rows {
    if s == [] then [] else
    OfJob(s[..|s| - 1], topic, job) + if Mine(s[|s| - 1], topic, job) then [s[|s| - 1]] else []
  }

  lemma OfJobLast(s: Rows, x: OutboxRow, topic: Topic, job: Id)
    ensures OfJob(s + [x], topic, job) ==
      if Mine(x, topic, job) then OfJob(s, topic, job) + [x] else OfJob(s, topic, job)
  {
    assert (s + [x])[..|s|] == s;
  }

  /** A job's rows all travel one route. */
  lemma {:induction false} OneRoute(s: Rows, topic: Topic, job: Id)
    requires job != NO_ID
    ensures OfJob(Along(s, Route(topic, job)), topic, job) == OfJob(s, topic, job)
    decreases s
  {
    if s != [] {
      var n, r := |s| - 1, Route(topic, job);
      OneRoute(s[..n], topic, job);
      OfJobLast(Along(s[..n], r), s[n], topic, job);
      OfJobLast(s[..n], s[n], topic, job);
      assert s == s[..n] + [s[n]];
      assert Along(s, r) == if RouteOf(s[n]) == r then Along(s[..n], r) + [s[n]] else Along(s[..n], r);
      assert Mine(s[n], topic, job) ==> RouteOf(s[n]) == r;
    }
  }

  lemma {:induction false} OfJobConcat(s: Rows, t: Rows, topic: Topic, job: Id)
    ensures OfJob(s + t, topic, job) == OfJob(s, topic, job) + OfJob(t, topic, job)
    decreases t
  {
    if t == [] {
      assert s + t == s;
    } else {
      assert (s + t)[..|s + t| - 1] == s + t[..|t| - 1];
      OfJobConcat(s, t[..|t| - 1], topic, job);
    }
  }

  lemma OfJobPrefix(s: Rows, t: Rows, topic: Topic, job: Id)
    requires s <= t
    ensures OfJob(s, topic, job) <= OfJob(t, topic, job)
  {
    assert t == s + t[|s|..];
    OfJobConcat(s, t[|s|..], topic, job);
  }

  lemma {:induction false} OfJobMembers(s: Rows, topic: Topic, job: Id)
    ensures forall x :: x in OfJob(s, topic, job) <==> x in s && Mine(x, topic, job)
    decreases s
  {
    if s != [] {
      OfJobMembers(s[..|s| - 1], topic, job);
      assert s == s[..|s| - 1] + [s[|s| - 1]];
    }
  }

  /** Dropping later duplicates and picking a job's rows commute. */
  lemma {:induction false} OfJobFirstSeen(s: Rows, topic: Topic, job: Id)
    ensures OfJob(FirstSeen(s), topic, job) == FirstSeen(OfJob(s, topic, job))
    decreases s
  {
    if s != [] {
      var n := |s| - 1;
      OfJobFirstSeen(s[..n], topic, job);
      OneMore(s[..n], s[n], topic, job);
      assert s == s[..n] + [s[n]];
    }
  }

  lemma OneMore(s: Rows, x: OutboxRow, topic: Topic, job: Id)
    requires OfJob(FirstSeen(s), topic, job) == FirstSeen(OfJob(s, topic, job))
    ensures OfJob(FirstSeen(s + [x]), topic, job) == FirstSeen(OfJob(s + [x], topic, job))
  {
    SeenLast(s, x);
    SeenLast(OfJob(s, topic, job), x);
    OfJobLast(s, x, topic, job);
    OfJobLast(FirstSeen(s), x, topic, job);
    OfJobMembers(FirstSeen(s), topic, job);
  }

  /** Along every route, over every run with failed writes and failed marks, the log with later
      duplicates dropped is a prefix of the insertion order and holds every marked row. */
  lemma RouteOrder(h: Hash, steps: seq<Step>, r: Route)
    requires Legal(h, EMPTY, steps)
    ensures var s := Run(EMPTY, steps);
      var seen := FirstSeen(Along(Goods(LogOf(s, PartOf(h, r))), r));
      && 0 <= Marked(s) && s.outbox == s.rows[Marked(s)..]
      && seen <= Along(s.rows, r) && Along(s.rows[..Marked(s)], r) <= seen
  {
    PubInvEmpty(h);
    PubRunKeeps(h, EMPTY, steps);
    assert InOrder(h, Run(EMPTY, steps), r);
  }

  /** Order along a job's route is order among its rows. */
  lemma JobWithinRoute(goods: Rows, rows: Rows, done: Rows, topic: Topic, job: Id)
    requires job != NO_ID
    requires var r := Route(topic, job);
      FirstSeen(Along(goods, r)) <= Along(rows, r) && Along(done, r) <= FirstSeen(Along(goods, r))
    ensures FirstSeen(OfJob(goods, topic, job)) <= OfJob(rows, topic, job)
    ensures OfJob(done, topic, job) <= FirstSeen(OfJob(goods, topic, job))
  {
    var r := Route(topic, job);
    OneRoute(goods, topic, job);
    OneRoute(rows, topic, job);
    OneRoute(done, topic, job);
    OfJobFirstSeen(Along(goods, r), topic, job);
    OfJobPrefix(FirstSeen(Along(goods, r)), Along(rows, r), topic, job);
    OfJobPrefix(Along(done, r), FirstSeen(Along(goods, r)), topic, job);
  }

  ghost predicate JobInOrder(h: Hash, s: Pipe, topic: Topic, job: Id) {
    var seen := FirstSeen(OfJob(Goods(LogOf(s, PartOf(h, Route(topic, job)))), topic, job));
    && 0 <= Marked(s)
    && seen <= OfJob(s.rows, topic, job) && OfJob(s.rows[..Marked(s)], topic, job) <= seen
  }

  lemma JobOrderHere(h: Hash, s: Pipe, topic: Topic, job: Id)
    requires PubInv(h, s) && job != NO_ID
    ensures JobInOrder(h, s, topic, job)
  {
    var r := Route(topic, job);
    assert InOrder(h, s, r);
    JobWithinRoute(Goods(LogOf(s, PartOf(h, r))), s.rows, s.rows[..Marked(s)], topic, job);
  }

  /** The same for the rows of one job on one topic. */
  lemma JobOrder(h: Hash, steps: seq<Step>, topic: Topic, job: Id)
    requires Legal(h, EMPTY, steps) && job != NO_ID
    ensures JobInOrder(h, Run(EMPTY, steps), topic, job)
  {
    PubInvEmpty(h);
    PubRunKeeps(h, EMPTY, steps);
    JobOrderHere(h, Run(EMPTY, steps), topic, job);
  }
}
