/** The outbox and the event log: where events are routed, and the order in which a job's events reach
    its partition. */
module Outbox {
  import opened Domain

  datatype Topic = JobEvents | WorkerEvents | SchedulerEvents

  predicate HasPrefix(s: string, p: string) {
    |s| >= |p| && s[..|p|] == p
  }

  function TopicFor(eventType: string): Topic {
    if HasPrefix(eventType, "JOB_") then JobEvents
    else if HasPrefix(eventType, "WORKER_") then WorkerEvents
    else if HasPrefix(eventType, "SCHEDULER_") then SchedulerEvents
    else JobEvents
  }

  /** Where a message goes: the topic, and the key that picks the partition. */
  datatype Route = Route(topic: Topic, key: Id)

  function RouteOf(row: OutboxRow): Route {
    Route(TopicFor(row.eventType), if row.aggregate == NO_ID then row.id else row.aggregate)
  }

  type Rows = seq<OutboxRow>

  /** The rows of one route, in order. */
  function Along(s: Rows, r: Route): Rows {
    if s == [] then [] else
    Along(s[..|s| - 1], r) + if RouteOf(s[|s| - 1]) == r then [s[|s| - 1]] else []
  }

  /** The sequence with later duplicates dropped. */
  function FirstSeen(s: Rows): (d: Rows)
    ensures forall x :: x in d <==> x in s
  {
    if s == [] then [] else
    var d := FirstSeen(s[..|s| - 1]);
    assert s == s[..|s| - 1] + [s[|s| - 1]];
    if s[|s| - 1] in d then d else d + [s[|s| - 1]]
  }

  /** `MarkOutboxPublished` of the in-memory store: the rows whose ids are not marked. */
  function Unmarked(s: Rows, ids: seq<Id>): Rows {
    if s == [] then [] else
    Unmarked(s[..|s| - 1], ids) + if s[|s| - 1].id in ids then [] else [s[|s| - 1]]
  }

  function IdsOf(s: Rows): (r: seq<Id>)
    ensures |r| == |s| && forall i :: 0 <= i < |s| ==> r[i] == s[i].id
  {
    seq(|s|, i requires 0 <= i < |s| => s[i].id)
  }

  predicate DistinctIds(s: Rows) {
    forall i, k :: 0 <= i < k < |s| ==> s[i].id != s[k].id
  }

  // ----- sequences along a route

  lemma {:induction false} AlongConcat(s: Rows, t: Rows, r: Route)
    ensures Along(s + t, r) == Along(s, r) + Along(t, r)
    decreases t
  {
    if t == [] {
      assert s + t == s;
    } else {
      assert (s + t)[..|s + t| - 1] == s + t[..|t| - 1];
      AlongConcat(s, t[..|t| - 1], r);
    }
  }

  lemma {:induction false} AlongMembers(s: Rows, r: Route)
    ensures forall x :: x in Along(s, r) <==> x in s && RouteOf(x) == r
    decreases s
  {
    if s != [] {
      AlongMembers(s[..|s| - 1], r);
      assert s == s[..|s| - 1] + [s[|s| - 1]];
    }
  }

  lemma {:induction false} AlongDistinct(s: Rows, r: Route)
    requires DistinctIds(s)
    ensures DistinctIds(Along(s, r))
    decreases s
  {
    if s != [] {
      var n := |s| - 1;
      AlongDistinct(s[..n], r);
      AlongMembers(s[..n], r);
      forall x | x in s[..n] ensures x.id != s[n].id { }
      var t := Along(s[..n], r);
      assert forall i :: 0 <= i < |t| ==> t[i] in t;
    }
  }

  /** Marking a prefix of the outbox leaves the rest of it. */
  lemma {:induction false} MarkingAPrefix(s: Rows, m: nat)
    requires DistinctIds(s) && m <= |s|
    ensures Unmarked(s, IdsOf(s[..m])) == s[m..]
    decreases s
  {
    if s != [] {
      var n := |s| - 1;
      if m == |s| {
        AllMarked(s, IdsOf(s[..m]));
      } else {
        MarkingAPrefix(s[..n], m);
        assert s[..n][..m] == s[..m];
        assert s[n].id !in IdsOf(s[..m]);
        assert s[m..] == s[..n][m..] + [s[n]];
      }
    }
  }

  lemma {:induction false} AllMarked(s: Rows, ids: seq<Id>)
    requires forall i :: 0 <= i < |s| ==> s[i].id in ids
    ensures Unmarked(s, ids) == []
    decreases s
  {
    if s != [] { AllMarked(s[..|s| - 1], ids); }
  }

  /** Marking one more id. */
  lemma {:induction false} MarkOneMore(s: Rows, ids: seq<Id>, id: Id)
    ensures Unmarked(Unmarked(s, ids), [id]) == Unmarked(s, ids + [id])
    decreases s
  {
    if s != [] {
      var n := |s| - 1;
      var t := Unmarked(s[..n], ids);
      MarkOneMore(s[..n], ids, id);
      assert Unmarked(s, ids) == if s[n].id in ids then t else t + [s[n]];
      assert (t + [s[n]])[..|t|] == t;
      assert s[n].id in ids + [id] <==> s[n].id in ids || s[n].id == id;
    }
  }

  lemma {:induction false} MarkNothing(s: Rows)
    ensures Unmarked(s, []) == s
    decreases s
  {
    if s != [] {
      var n := |s| - 1;
      MarkNothing(s[..n]);
      assert Unmarked(s, []) == Unmarked(s[..n], []) + [s[n]];
      assert s[..n] + [s[n]] == s;
    }
  }

  lemma SeenLast(s: Rows, x: OutboxRow)
    ensures FirstSeen(s + [x]) == if x in FirstSeen(s) then FirstSeen(s) else FirstSeen(s) + [x]
  {
    assert (s + [x])[..|s|] == s;
  }

  /** Exactly the first `n` rows of `k` have been written, in order but for repetitions. */
  ghost predicate SeenUpTo(k: Rows, written: Rows, n: nat) {
    n <= |k| && FirstSeen(written) == k[..n]
  }

  /** Writing row `i` of `k`, repeated or next. */
  lemma SeenNext(k: Rows, written: Rows, d: nat, i: nat)
    requires DistinctIds(k) && SeenUpTo(k, written, d) && i <= d && i < |k|
    ensures SeenUpTo(k, written + [k[i]], if d <= i then i + 1 else d)
  {
    SeenLast(written, k[i]);
    if i < d {
      assert k[..d][i] == k[i];
    } else {
      assert k[i] !in k[..d];
      assert k[..d] + [k[i]] == k[..i + 1];
    }
  }

  lemma OneFurther(k: Rows, written: Rows, b: nat, c: nat)
    requires b < c <= |k|
    ensures written + k[b..c] == (written + k[b..c - 1]) + [k[c - 1]]
  { }

  function Later(a: nat, c: nat): nat {
    if a < c then c else a
  }

  lemma RewriteOne(k: Rows, written: Rows, a: nat, b: nat, c: nat)
    requires DistinctIds(k) && b <= a && b < c <= |k|
    requires SeenUpTo(k, written + k[b..c - 1], Later(a, c - 1))
    ensures SeenUpTo(k, written + k[b..c], Later(a, c))
  {
    SeenNext(k, written + k[b..c - 1], Later(a, c - 1), c - 1);
    OneFurther(k, written, b, c);
  }

  lemma RewriteNone(k: Rows, written: Rows, a: nat, b: nat)
    requires b <= |k| && SeenUpTo(k, written, a)
    ensures SeenUpTo(k, written + k[b..b], a)
  {
    assert written + k[b..b] == written;
  }

  /** Writing a stretch of `k` that begins within what is already there extends the first sightings to
      the end of the stretch, and repeats nothing. */
  lemma {:induction false} Rewrite(k: Rows, written: Rows, a: nat, b: nat, c: nat)
    requires DistinctIds(k) && SeenUpTo(k, written, a) && b <= a && b <= c <= |k|
    ensures SeenUpTo(k, written + k[b..c], Later(a, c))
    decreases c
  {
    if b == c {
      RewriteNone(k, written, a, b);
    } else {
      Rewrite(k, written, a, b, c - 1);
      RewriteOne(k, written, a, b, c);
    }
  }

  // ----- routing

  lemma PrefixAndRest(t: string, p: string)
    ensures HasPrefix(t, p) <==> exists rest :: t == p + rest
  {
    if HasPrefix(t, p) { assert t == p + t[|p|..]; }
  }

  /** Worker and scheduler events go to their own topics and everything else to the job topic; the key is the
      aggregate, so that a job's events share a partition, or the row's own id when there is none. */
  lemma Routing(row: OutboxRow)
    ensures var t := RouteOf(row).topic;
      && (t == WorkerEvents <==> exists rest :: row.eventType == "WORKER_" + rest)
      && (t == SchedulerEvents <==> exists rest :: row.eventType == "SCHEDULER_" + rest)
      && (t == JobEvents <==> t != WorkerEvents && t != SchedulerEvents)
    ensures row.aggregate != 0 ==> RouteOf(row).key == row.aggregate
    ensures row.aggregate == 0 ==> RouteOf(row).key == row.id
  {
    var e := row.eventType;
    PrefixAndRest(e, "WORKER_");
    PrefixAndRest(e, "SCHEDULER_");
    if HasPrefix(e, "JOB_") { FirstLetter(e, "JOB_"); }
    if HasPrefix(e, "WORKER_") { FirstLetter(e, "WORKER_"); }
    if HasPrefix(e, "SCHEDULER_") { FirstLetter(e, "SCHEDULER_"); }
  }

  lemma FirstLetter(t: string, p: string)
    requires p != [] && HasPrefix(t, p)
    ensures t != [] && t[0] == p[0]
  {
    assert t[..|p|][0] == p[0];
  }
}
