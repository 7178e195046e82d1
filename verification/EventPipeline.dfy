/** The event pipeline as a state machine: outbox, publisher, partitioned log, analytics consumers and
    the deduplicated event store. Failures of writes, marks, inserts and commits, and crashes, are
    steps like any other. The publisher is a single one and reads the outbox in insertion order. */
module EventPipeline {
  import opened Domain
  import opened Outbox
  import opened Ingest

  /** A partition of a topic. */
  datatype Part = Part(topic: Topic, slot: nat)

  /** The balancer: an arbitrary hash of the key. */
  type Hash = Id -> nat

  function PartOf(h: Hash, r: Route): Part {
    Part(r.topic, h(r.key))
  }

  /** `rows` is every event ever emitted, in order; `outbox` those not yet marked published. */
  datatype Pipe = Pipe(
    rows: Rows,
    outbox: Rows,
    logs: map<Part, seq<Rec>>,
    readers: map<Part, Reader>,
    sink: set<OutboxRow>)

  const EMPTY := Pipe([], [], map[], map[], {})

  function LogOf(s: Pipe, q: Part): seq<Rec> {
    if q in s.logs then s.logs[q] else []
  }

  function ReaderOf(s: Pipe, q: Part): Reader {
    if q in s.readers then s.readers[q] else FIRST_OFFSET
  }

  function SideOf(s: Pipe, q: Part): Side {
    Side(ReaderOf(s, q), s.sink)
  }

  function Recs(rows: Rows): (r: seq<Rec>)
    ensures |r| == |rows| && forall i :: 0 <= i < |rows| ==> r[i] == Good(rows[i])
  {
    seq(|rows|, i requires 0 <= i < |rows| => Good(rows[i]))
  }

  /** The events of a log, in order. */
  function Goods(log: seq<Rec>): Rows {
    if log == [] then [] else
    Goods(log[..|log| - 1]) + if log[|log| - 1].Good? then [log[|log| - 1].row] else []
  }

  // ----- publisher

  const BATCH := 100

  function BatchOf(s: Pipe): Rows {
    s.outbox[..if |s.outbox| < BATCH then |s.outbox| else BATCH]
  }

  /** What a write delivers, by partition. */
  type Delivery = map<Part, Rows>

  function DeliveredTo(d: Delivery, q: Part): Rows {
    if q in d then d[q] else []
  }

  /** What a partition receives is of the batch and belongs there. */
  ghost predicate BelongsIn(h: Hash, batch: Rows, d: Delivery, q: Part) {
    forall x :: x in DeliveredTo(d, q) ==> x in batch && PartOf(h, RouteOf(x)) == q
  }

  /** Along the route a prefix of the batch arrives, or all of it. */
  ghost predicate ArrivesAlong(h: Hash, batch: Rows, d: Delivery, full: bool, r: Route) {
    var got := Along(DeliveredTo(d, PartOf(h, r)), r);
    got <= Along(batch, r) && (full ==> got == Along(batch, r))
  }

  /** A write delivers batch rows to their partitions, along each route a prefix of the batch; a
      successful write delivers all of it. */
  ghost predicate Delivers(h: Hash, batch: Rows, d: Delivery, full: bool) {
    && (forall q {:trigger BelongsIn(h, batch, d, q)} :: BelongsIn(h, batch, d, q))
    && (forall r {:trigger ArrivesAlong(h, batch, d, full, r)} :: ArrivesAlong(h, batch, d, full, r))
  }

  function Append(logs: map<Part, seq<Rec>>, d: Delivery): map<Part, seq<Rec>> {
    map q | q in logs.Keys + d.Keys ::
      (if q in logs then logs[q] else []) + Recs(DeliveredTo(d, q))
  }

  // ----- steps

  datatype Step =
    | Emit(row: OutboxRow)
    | Write(d: Delivery)                 // a write that returns an error
    | Flush(d: Delivery, marked: nat)    // a write that succeeds, and the ids marked before an error, if any
    | Spoil(q: Part, rec: Rec)           // a record that is no valid event
    | Fetch(q: Part, commitOk: bool)
    | Store(q: Part, o: Outcome)         // a flush of the consumer's buffer
    | Crash(q: Part)

  ghost predicate Enabled(h: Hash, s: Pipe, t: Step) {
    match t
    case Emit(row) => forall x :: x in s.rows ==> x.id != row.id
    case Write(d) => Delivers(h, BatchOf(s), d, false)
    case Flush(d, marked) => Delivers(h, BatchOf(s), d, true) && marked <= |BatchOf(s)|
    case Spoil(q, rec) => !rec.Good?
    case Fetch(q, commitOk) => ReaderOf(s, q).position < |LogOf(s, q)|
    case Store(q, o) => true
    case Crash(q) => true
  }

  function Apply(s: Pipe, t: Step): Pipe {
    match t
    case Emit(row) => s.(rows := s.rows + [row], outbox := s.outbox + [row])
    case Write(d) => s.(logs := Append(s.logs, d))
    case Flush(d, marked) =>
      s.(logs := Append(s.logs, d),
         outbox := if marked <= |BatchOf(s)| then Unmarked(s.outbox, IdsOf(BatchOf(s)[..marked])) else s.outbox)
    case Spoil(q, rec) => s.(logs := s.logs[q := LogOf(s, q) + [rec]])
    case Fetch(q, commitOk) => s.(readers := s.readers[q := Receive(LogOf(s, q), ReaderOf(s, q), commitOk)])
    case Store(q, o) =>
      var side := Ingest.Flush(LogOf(s, q), SideOf(s, q), o);
      s.(sink := side.sink, readers := s.readers[q := side.reader])
    case Crash(q) => s.(readers := s.readers[q := Restart(ReaderOf(s, q))])
  }

  function Run(s: Pipe, steps: seq<Step>): Pipe
    decreases steps
  {
    if steps == [] then s else Run(Apply(s, steps[0]), steps[1..])
  }

  ghost predicate Legal(h: Hash, s: Pipe, steps: seq<Step>)
    decreases steps
  {
    steps != [] ==> Enabled(h, s, steps[0]) && Legal(h, Apply(s, steps[0]), steps[1..])
  }

  // ----- the publisher's side

  /** How many rows are marked: they are the oldest ones. */
  function Marked(s: Pipe): int {
    |s.rows| - |s.outbox|
  }

  /** Along the route, the log with later duplicates dropped is a prefix of the insertion order, and it
      holds every marked row. */
  ghost predicate InOrder(h: Hash, s: Pipe, r: Route)
    requires 0 <= Marked(s)
  {
    var seen := FirstSeen(Along(Goods(LogOf(s, PartOf(h, r))), r));
    seen <= Along(s.rows, r) && Along(s.rows[..Marked(s)], r) <= seen
  }

  /** A record is an emitted event in its own partition. */
  ghost predicate Genuine(h: Hash, s: Pipe, q: Part) {
    forall x :: x in Goods(LogOf(s, q)) ==> x in s.rows && PartOf(h, RouteOf(x)) == q
  }

  ghost predicate PubInv(h: Hash, s: Pipe) {
    && DistinctIds(s.rows) && 0 <= Marked(s) && s.outbox == s.rows[Marked(s)..]
    && (forall r {:trigger InOrder(h, s, r)} :: InOrder(h, s, r))
    && (forall q {:trigger Genuine(h, s, q)} :: Genuine(h, s, q))
  }

  lemma {:induction false} GoodsConcat(a: seq<Rec>, b: seq<Rec>)
    ensures Goods(a + b) == Goods(a) + Goods(b)
    decreases b
  {
    if b == [] {
      assert a + b == a;
    } else {
      assert (a + b)[..|a + b| - 1] == a + b[..|b| - 1];
      GoodsConcat(a, b[..|b| - 1]);
    }
  }

  lemma {:induction false} GoodsRecs(rows: Rows)
    ensures Goods(Recs(rows)) == rows
    decreases rows
  {
    if rows != [] {
      assert Recs(rows)[..|rows| - 1] == Recs(rows[..|rows| - 1]);
      GoodsRecs(rows[..|rows| - 1]);
    }
  }

  /** The events of a partition after a write. */
  lemma AppendGoods(s: Pipe, d: Delivery, q: Part)
    ensures Goods(LogOf(s.(logs := Append(s.logs, d)), q)) == Goods(LogOf(s, q)) + DeliveredTo(d, q)
  {
    GoodsConcat(LogOf(s, q), Recs(DeliveredTo(d, q)));
    GoodsRecs(DeliveredTo(d, q));
    assert LogOf(s, q) + Recs(DeliveredTo(d, q)) == LogOf(s.(logs := Append(s.logs, d)), q);
  }

  lemma AlongPrefix(s: Rows, i: nat, j: nat, r: Route)
    requires i <= j <= |s|
    ensures Along(s[..i], r) <= Along(s[..j], r)
    ensures Along(s[..j], r) == Along(s[..i], r) + Along(s[i..j], r)
  {
    AlongConcat(s[..i], s[i..j], r);
    assert s[..j] == s[..i] + s[i..j];
  }

  lemma TakeOf(x: Rows, k: Rows)
    requires x <= k
    ensures |x| <= |k| && x == k[..|x|]
  { }

  lemma PrefixOfPrefix(x: Rows, y: Rows, z: Rows)
    requires x <= y && y <= z
    ensures x <= z
  { }

  /** Three nested beginnings of `k`. */
  lemma Beginnings(k: Rows, done: Rows, next: Rows, seen: Rows, m: nat)
    requires done + next <= k && m <= |k| && seen == k[..m] && |done| <= m
    ensures seen <= k && done <= seen
    ensures |done + next| <= m ==> done + next <= seen
  {
    assert forall i :: 0 <= i < |done| ==> done[i] == (done + next)[i];
  }

  /** Rewriting a prefix of the next batch after what is there keeps to the insertion order. */
  lemma WriteStretch(k: Rows, done: Rows, batch: Rows, had: Rows, more: Rows, seen: Rows)
    requires DistinctIds(k) && done + batch <= k && more <= batch
    requires FirstSeen(had) <= k && done <= FirstSeen(had)
    requires seen == FirstSeen(had + more)
    ensures seen <= k && done <= seen
    ensures more == batch ==> done + batch <= seen
  {
    var a, b := |FirstSeen(had)|, |done|;
    TakeOf(FirstSeen(had), k);
    Stretch(k, done, batch, more);
    var c := b + |more|;
    var m := if a < c then c else a;
    assert seen == k[..m] by {
      Rewrite(k, had, a, b, c);
      assert had + more == had + k[b..c];
    }
    Beginnings(k, done, batch, seen, m);
  }

  lemma Stretch(k: Rows, a: Rows, batch: Rows, more: Rows)
    requires a + batch <= k && more <= batch
    ensures |a| + |more| <= |k| && more == k[|a|..|a| + |more|]
  {
    forall i | 0 <= i < |more| ensures more[i] == k[|a| + i] {
      assert more[i] == batch[i] == (a + batch)[|a| + i];
    }
  }

  /** The rows as those marked, the batch, and the rest. */
  lemma BatchAlong(s: Pipe, r: Route)
    requires 0 <= Marked(s) && s.outbox == s.rows[Marked(s)..]
    ensures Marked(s) + |BatchOf(s)| <= |s.rows|
    ensures Along(s.rows[..Marked(s) + |BatchOf(s)|], r) == Along(s.rows[..Marked(s)], r) + Along(BatchOf(s), r)
    ensures Along(s.rows[..Marked(s) + |BatchOf(s)|], r) <= Along(s.rows, r)
  {
    var p, n := Marked(s), |BatchOf(s)|;
    assert BatchOf(s) == s.rows[p..p + n];
    AlongPrefix(s.rows, p, p + n, r);
    AlongPrefix(s.rows, p + n, |s.rows|, r);
    assert s.rows[..|s.rows|] == s.rows;
  }

  /** The log along a route after a write. */
  lemma LogAlong(s: Pipe, d: Delivery, q: Part, r: Route)
    ensures Along(Goods(LogOf(s.(logs := Append(s.logs, d)), q)), r)
         == Along(Goods(LogOf(s, q)), r) + Along(DeliveredTo(d, q), r)
  {
    AppendGoods(s, d, q);
    AlongConcat(Goods(LogOf(s, q)), DeliveredTo(d, q), r);
  }

  ghost predicate InOrderUpTo(h: Hash, s: Pipe, logs: map<Part, seq<Rec>>, r: Route, n: nat)
    requires n <= |s.rows|
  {
    var seen := FirstSeen(Along(Goods(LogOf(s.(logs := logs), PartOf(h, r))), r));
    seen <= Along(s.rows, r) && Along(s.rows[..n], r) <= seen
  }

  /** A write keeps the order along a route; a successful one brings in the whole batch. */
  lemma WriteInOrder(h: Hash, s: Pipe, d: Delivery, full: bool, r: Route)
    requires DistinctIds(s.rows) && 0 <= Marked(s) && s.outbox == s.rows[Marked(s)..] && InOrder(h, s, r)
    requires ArrivesAlong(h, BatchOf(s), d, full, r)
    ensures InOrderUpTo(h, s, Append(s.logs, d), r, Marked(s))
    ensures full ==>
      Marked(s) + |BatchOf(s)| <= |s.rows| && InOrderUpTo(h, s, Append(s.logs, d), r, Marked(s) + |BatchOf(s)|)
  {
    var q := PartOf(h, r);
    BatchAlong(s, r);
    LogAlong(s, d, q, r);
    AlongDistinct(s.rows, r);
    WriteStretch(Along(s.rows, r), Along(s.rows[..Marked(s)], r), Along(BatchOf(s), r),
                 Along(Goods(LogOf(s, q)), r), Along(DeliveredTo(d, q), r),
                 FirstSeen(Along(Goods(LogOf(s.(logs := Append(s.logs, d)), q)), r)));
  }

  lemma WriteGenuine(h: Hash, s: Pipe, d: Delivery, q: Part)
    requires Genuine(h, s, q) && BelongsIn(h, BatchOf(s), d, q) && 0 <= Marked(s) && s.outbox == s.rows[Marked(s)..]
    ensures Genuine(h, s.(logs := Append(s.logs, d)), q)
  {
    AppendGoods(s, d, q);
    forall x | x in DeliveredTo(d, q) ensures x in s.rows && PartOf(h, RouteOf(x)) == q {
      BatchIsEmitted(s, x);
    }
  }

  lemma BatchIsEmitted(s: Pipe, x: OutboxRow)
    requires 0 <= Marked(s) && s.outbox == s.rows[Marked(s)..]
    ensures x in BatchOf(s) ==> x in s.rows
  {
  }

  /** Marking part of the batch leaves the outbox the later end of the rows. */
  lemma FlushMarks(h: Hash, s: Pipe, d: Delivery, marked: nat)
    requires PubInv(h, s) && marked <= |BatchOf(s)|
    ensures var s' := Apply(s, Flush(d, marked));
      && s'.rows == s.rows && s'.logs == Append(s.logs, d)
      && s'.outbox == s.outbox[marked..] && Marked(s') == Marked(s) + marked
      && s'.outbox == s.rows[Marked(s')..]
  {
    assert BatchOf(s)[..marked] == s.outbox[..marked];
    assert DistinctIds(s.outbox);
    MarkingAPrefix(s.outbox, marked);
  }

  lemma FlushInOrder(h: Hash, s: Pipe, d: Delivery, marked: nat, s': Pipe, r: Route)
    requires PubInv(h, s) && Delivers(h, BatchOf(s), d, true) && marked <= |BatchOf(s)|
    requires s'.rows == s.rows && s'.logs == Append(s.logs, d) && Marked(s') == Marked(s) + marked
    ensures InOrder(h, s', r)
  {
    var seen := FirstSeen(Along(Goods(LogOf(s', PartOf(h, r))), r));
    assert LogOf(s', PartOf(h, r)) == LogOf(s.(logs := Append(s.logs, d)), PartOf(h, r));
    assert InOrder(h, s, r) && ArrivesAlong(h, BatchOf(s), d, true, r);
    WriteInOrder(h, s, d, true, r);
    AlongPrefix(s.rows, Marked(s'), Marked(s) + |BatchOf(s)|, r);
    PrefixOfPrefix(Along(s.rows[..Marked(s')], r), Along(s.rows[..Marked(s) + |BatchOf(s)|], r), seen);
  }

  lemma FlushKeeps(h: Hash, s: Pipe, d: Delivery, marked: nat)
    requires PubInv(h, s) && Delivers(h, BatchOf(s), d, true) && marked <= |BatchOf(s)|
    ensures PubInv(h, Apply(s, Flush(d, marked)))
  {
    var s' := Apply(s, Flush(d, marked));
    FlushMarks(h, s, d, marked);
    forall r ensures InOrder(h, s', r) { FlushInOrder(h, s, d, marked, s', r); }
    forall q ensures Genuine(h, s', q) {
      assert Genuine(h, s, q) && BelongsIn(h, BatchOf(s), d, q);
      WriteGenuine(h, s, d, q);
    }
  }

  lemma WriteKeeps(h: Hash, s: Pipe, d: Delivery)
    requires PubInv(h, s) && Delivers(h, BatchOf(s), d, false)
    ensures PubInv(h, Apply(s, Write(d)))
  {
    forall r ensures InOrder(h, Apply(s, Write(d)), r) {
      assert InOrder(h, s, r) && ArrivesAlong(h, BatchOf(s), d, false, r);
      WriteInOrder(h, s, d, false, r);
    }
    forall q ensures Genuine(h, Apply(s, Write(d)), q) {
      assert Genuine(h, s, q) && BelongsIn(h, BatchOf(s), d, q);
      WriteGenuine(h, s, d, q);
    }
  }

  lemma EmitKeeps(h: Hash, s: Pipe, row: OutboxRow)
    requires PubInv(h, s) && Enabled(h, s, Emit(row))
    ensures PubInv(h, Apply(s, Emit(row)))
  {
    var s' := Apply(s, Emit(row));
    assert s'.rows[..Marked(s)] == s.rows[..Marked(s)];
    forall r ensures InOrder(h, s', r) {
      assert InOrder(h, s, r);
      AlongConcat(s.rows, [row], r);
    }
    forall q ensures Genuine(h, s', q) { assert Genuine(h, s, q); }
  }

  lemma SpoilKeeps(h: Hash, s: Pipe, q: Part, rec: Rec)
    requires PubInv(h, s) && !rec.Good?
    ensures PubInv(h, Apply(s, Spoil(q, rec)))
  {
    var s' := Apply(s, Spoil(q, rec));
    assert Goods([rec]) == [] by { assert [rec][..0] == []; }
    GoodsConcat(LogOf(s, q), [rec]);
    assert forall u :: Goods(LogOf(s', u)) == Goods(LogOf(s, u));
    forall r ensures InOrder(h, s', r) { assert InOrder(h, s, r); }
    forall u ensures Genuine(h, s', u) { assert Genuine(h, s, u); }
  }

  /** The readers' steps touch neither rows nor outbox nor logs. */
  lemma ReaderStepKeeps(h: Hash, s: Pipe, s': Pipe)
    requires PubInv(h, s) && s'.rows == s.rows && s'.outbox == s.outbox && s'.logs == s.logs
    ensures PubInv(h, s')
  {
    forall r ensures InOrder(h, s', r) { assert InOrder(h, s, r); }
    forall q ensures Genuine(h, s', q) { assert Genuine(h, s, q); }
  }

  lemma PubStepKeeps(h: Hash, s: Pipe, t: Step)
    requires PubInv(h, s) && Enabled(h, s, t)
    ensures PubInv(h, Apply(s, t))
  {
    match t
    case Emit(row) => EmitKeeps(h, s, row);
    case Write(d) => WriteKeeps(h, s, d);
    case Flush(d, marked) => FlushKeeps(h, s, d, marked);
    case Spoil(q, rec) => SpoilKeeps(h, s, q, rec);
    case _ => ReaderStepKeeps(h, s, Apply(s, t));
  }

  lemma {:induction false} PubRunKeeps(h: Hash, s: Pipe, steps: seq<Step>)
    requires PubInv(h, s) && Legal(h, s, steps)
    ensures PubInv(h, Run(s, steps))
    decreases steps
  {
    if steps != [] {
      PubStepKeeps(h, s, steps[0]);
      PubRunKeeps(h, Apply(s, steps[0]), steps[1..]);
    }
  }

  lemma PubInvEmpty(h: Hash)
    ensures PubInv(h, EMPTY)
  {
    forall r ensures InOrder(h, EMPTY, r) { }
    forall q ensures Genuine(h, EMPTY, q) { }
  }
}
