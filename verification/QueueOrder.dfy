/** The order of the in-memory work queue: its slice is always the outstanding arrivals, stably sorted
    by priority (higher first) and enqueue time (earlier first). */
module QueueOrder {
  import opened Domain

  datatype QueuedJob = QueuedJob(id: Id, attempt: int, priority: int, enqueuedAt: Time)

  datatype Delayed = Delayed(job: QueuedJob, available: Time)

  /** The zero time, which `Enqueue` replaces by the current time. */
  const ZERO_TIME: Time := 0

  /** Strictly ahead: higher priority, or the same priority and an earlier stamp. */
  predicate Ahead(a: QueuedJob, b: QueuedJob) {
    a.priority > b.priority || (a.priority == b.priority && a.enqueuedAt < b.enqueuedAt)
  }

  /** Higher in priority, or of the same priority and no later. */
  predicate NoLater(a: QueuedJob, b: QueuedJob) {
    a.priority > b.priority || (a.priority == b.priority && a.enqueuedAt <= b.enqueuedAt)
  }

  /** By priority, the highest first, and then by enqueue time, the earliest first. */
  predicate InOrder(t: seq<QueuedJob>) {
    forall i, k :: 0 <= i < k < |t| ==> NoLater(t[i], t[k])
  }

  /** `insertLocked`: in front of the first item the job is ahead of. */
  function Insert(items: seq<QueuedJob>, job: QueuedJob): (r: seq<QueuedJob>)
    ensures |r| == |items| + 1
  {
    if items == [] then [job]
    else if Ahead(job, items[0]) then [job] + items
    else [items[0]] + Insert(items[1..], job)
  }

  /** How far `insertLocked` walks. */
  function InsertionPoint(items: seq<QueuedJob>, job: QueuedJob): (i: nat)
    ensures i <= |items| && (forall k :: 0 <= k < i ==> !Ahead(job, items[k])) && (i < |items| ==> Ahead(job, items[i]))
  {
    if items == [] || Ahead(job, items[0]) then 0 else 1 + InsertionPoint(items[1..], job)
  }

  lemma {:induction false} InsertSplits(items: seq<QueuedJob>, job: QueuedJob, i: nat)
    requires i <= |items| && (forall k :: 0 <= k < i ==> !Ahead(job, items[k]))
    requires i < |items| ==> Ahead(job, items[i])
    ensures Insert(items, job) == items[..i] + [job] + items[i..]
    decreases i
  {
    if i > 0 {
      InsertSplits(items[1..], job, i - 1);
      Slices(items, job, i);
    }
  }

  lemma Slices(items: seq<QueuedJob>, job: QueuedJob, i: nat)
    requires 0 < i <= |items|
    ensures [items[0]] + (items[1..][..i - 1] + [job] + items[1..][i - 1..]) == items[..i] + [job] + items[i..]
  {
    assert items[1..][..i - 1] == items[1..i] && items[1..][i - 1..] == items[i..];
    assert [items[0]] + items[1..i] == items[..i];
  }

  /** An insertion keeps the order, and puts the job behind exactly those that are no later. */
  lemma InsertKeepsOrder(items: seq<QueuedJob>, job: QueuedJob)
    requires InOrder(items)
    ensures InOrder(Insert(items, job))
    ensures var i := InsertionPoint(items, job);
      && Insert(items, job) == items[..i] + [job] + items[i..]
      && forall k :: 0 <= k < |items| ==> (k < i <==> NoLater(items[k], job))
  {
    var i := InsertionPoint(items, job);
    InsertSplits(items, job, i);
    forall k | 0 <= k < |items| ensures k < i <==> NoLater(items[k], job) { WhereTo(items, job, k); }
    var t := items[..i] + [job] + items[i..];
    forall a, b | 0 <= a < b < |t| ensures NoLater(t[a], t[b]) { PairInOrder(items, job, a, b); }
  }

  /** The items no later than the job are those before its place, and it is no later than the others. */
  lemma WhereTo(items: seq<QueuedJob>, job: QueuedJob, k: nat)
    requires InOrder(items) && k < |items|
    ensures k < InsertionPoint(items, job) <==> NoLater(items[k], job)
    ensures k >= InsertionPoint(items, job) ==> NoLater(job, items[k])
  {
    var i := InsertionPoint(items, job);
    if i < k { assert Ahead(job, items[i]) && NoLater(items[i], items[k]); }
  }

  function Joined(items: seq<QueuedJob>, job: QueuedJob, i: nat, a: nat): QueuedJob
    requires i <= |items| && a <= |items|
  {
    if a < i then items[a] else if a == i then job else items[a - 1]
  }

  lemma PairInOrder(items: seq<QueuedJob>, job: QueuedJob, a: nat, b: nat)
    requires InOrder(items) && a < b <= |items|
    ensures var i := InsertionPoint(items, job);
      var t := items[..i] + [job] + items[i..];
      NoLater(t[a], t[b])
  {
    var i := InsertionPoint(items, job);
    if a < i { WhereTo(items, job, a); }
    if i < b { WhereTo(items, job, b - 1); }
    assert NoLater(Joined(items, job, i, a), Joined(items, job, i, b));
  }

  // ----- the reference: a stable sort of what is outstanding

  /** An arrival and its number. */
  datatype Arrival = Arrival(job: QueuedJob, no: nat)

  /** First by the queue's order, then by arrival. */
  predicate Precedes(x: Arrival, y: Arrival) {
    Ahead(x.job, y.job) || (!Ahead(y.job, x.job) && x.no < y.no)
  }

  /** No two arrivals share a number. */
  ghost predicate Distinct(s: set<Arrival>) {
    forall x, y :: x in s && y in s && x.no == y.no ==> x == y
  }

  ghost predicate IsFirst(s: set<Arrival>, x: Arrival) {
    x in s && forall y :: y in s && y != x ==> Precedes(x, y)
  }

  lemma PrecedesOrders(x: Arrival, y: Arrival, z: Arrival)
    ensures x.no != y.no ==> (Precedes(x, y) <==> !Precedes(y, x))
    ensures Precedes(x, y) && Precedes(y, z) ==> Precedes(x, z)
  {
  }

  lemma {:induction false} FirstExists(s: set<Arrival>) returns (x: Arrival)
    requires s != {} && Distinct(s)
    ensures IsFirst(s, x)
    decreases |s|
  {
    var y :| y in s;
    if s == {y} {
      x := y;
    } else {
      var rest := FirstExists(s - {y});
      x := if Precedes(y, rest) then y else rest;
      forall z | z in s && z != x ensures Precedes(x, z) { PrecedesOrders(y, rest, z); }
    }
  }

  ghost function First(s: set<Arrival>): (x: Arrival)
    requires s != {} && Distinct(s)
    ensures IsFirst(s, x)
  {
    assert exists x :: IsFirst(s, x) by { var x := FirstExists(s); }
    var x :| IsFirst(s, x);
    x
  }

  lemma FirstIs(s: set<Arrival>, x: Arrival)
    requires Distinct(s) && IsFirst(s, x)
    ensures First(s) == x
  {
  }

  /** Selection sort: take the first, again and again. */
  ghost function StableSort(s: set<Arrival>): seq<Arrival>
    requires Distinct(s)
    decreases |s|
  {
    if s == {} then [] else [First(s)] + StableSort(s - {First(s)})
  }

  ghost function Jobs(s: seq<Arrival>): (r: seq<QueuedJob>)
    ensures |r| == |s| && forall i :: 0 <= i < |s| ==> r[i] == s[i].job
  {
    seq(|s|, i requires 0 <= i < |s| => s[i].job)
  }

  lemma JobsCons(x: Arrival, s: seq<Arrival>)
    ensures Jobs([x] + s) == [x.job] + Jobs(s)
  {
  }

  lemma {:induction false} SortHolds(s: set<Arrival>)
    requires Distinct(s)
    ensures forall x :: x in StableSort(s) <==> x in s
    ensures forall i, k :: 0 <= i < k < |StableSort(s)| ==> Precedes(StableSort(s)[i], StableSort(s)[k])
    decreases |s|
  {
    if s != {} {
      var f, t := First(s), StableSort(s - {First(s)});
      SortHolds(s - {f});
      assert StableSort(s) == [f] + t;
      assert forall x :: x in [f] + t <==> x == f || x in t;
      forall i, k | 0 <= i < k < |[f] + t| ensures Precedes(([f] + t)[i], ([f] + t)[k]) {
        assert ([f] + t)[k] == t[k - 1] && t[k - 1] in t;
      }
    }
  }

  /** The reference is a sort: it holds exactly the arrivals, each once, by priority, then by enqueue time,
      then by arrival. */
  lemma SortIsSort(s: set<Arrival>)
    requires Distinct(s)
    ensures forall x :: x in StableSort(s) <==> x in s
    ensures forall i, k :: 0 <= i < k < |StableSort(s)| ==> Precedes(StableSort(s)[i], StableSort(s)[k])
    ensures InOrder(Jobs(StableSort(s)))
    ensures forall i, k :: 0 <= i < k < |StableSort(s)| ==>
      var x, y := StableSort(s)[i], StableSort(s)[k];
      NoLater(x.job, y.job) && (NoLater(y.job, x.job) ==> x.no < y.no)
  {
    SortHolds(s);
    forall i, k | 0 <= i < k < |StableSort(s)| ensures var x, y := StableSort(s)[i], StableSort(s)[k];
      NoLater(x.job, y.job) && (NoLater(y.job, x.job) ==> x.no < y.no)
    {
      assert Precedes(StableSort(s)[i], StableSort(s)[k]);
    }
  }

  /** The newest arrival joins in front when it is ahead of the first. */
  lemma NewFirst(s: set<Arrival>, x: Arrival)
    requires s != {} && Distinct(s) && Distinct(s + {x}) && x !in s && Ahead(x.job, First(s).job)
    ensures Jobs(StableSort(s + {x})) == [x.job] + Jobs(StableSort(s))
  {
    var u := s + {x};
    forall y | y in u && y != x ensures Precedes(x, y) {
      assert y == First(s) || Precedes(First(s), y);
    }
    FirstIs(u, x);
    assert u - {x} == s;
    JobsCons(x, StableSort(s));
  }

  /** Otherwise the first stays first. */
  lemma OldFirst(s: set<Arrival>, x: Arrival)
    requires s != {} && Distinct(s) && Distinct(s + {x}) && x !in s
    requires Precedes(First(s), x)
    ensures Distinct(s - {First(s)} + {x})
    ensures Jobs(StableSort(s + {x})) == [First(s).job] + Jobs(StableSort(s - {First(s)} + {x}))
  {
    var u, b := s + {x}, First(s);
    FirstIs(u, b);
    assert u - {b} == s - {b} + {x};
    JobsCons(b, StableSort(u - {b}));
  }

  /** Adding the newest arrival to the sort is inserting its job into the queue. */
  lemma {:induction false} InsertIsSort(s: set<Arrival>, x: Arrival)
    requires Distinct(s) && forall y :: y in s ==> y.no < x.no
    ensures Distinct(s + {x})
    ensures Jobs(StableSort(s + {x})) == Insert(Jobs(StableSort(s)), x.job)
    decreases |s|
  {
    if s == {} {
      FirstIs(s + {x}, x);
      assert s + {x} - {x} == {};
    } else {
      var b := First(s);
      var rest := StableSort(s - {b});
      JobsCons(b, rest);
      assert ([b.job] + Jobs(rest))[1..] == Jobs(rest);
      if Ahead(x.job, b.job) {
        NewFirst(s, x);
      } else {
        OldFirst(s, x);
        InsertIsSort(s - {b}, x);
      }
    }
  }
}
