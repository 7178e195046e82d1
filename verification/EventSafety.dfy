/** What every run of the event pipeline keeps: no phantom events, nothing lost before the log, and, as
    far as skipped records allow, nothing committed that is not stored. */
module EventSafety {
  import opened Domain
  import opened Outbox
  import opened Ingest
  import opened EventPipeline

  // ----- the readers' side, one partition at a time

  predicate ShapeAt(s: Pipe, q: Part) {
    Shape(LogOf(s, q), ReaderOf(s, q))
  }

  predicate CoveredAt(s: Pipe, q: Part) {
    Covered(LogOf(s, q), ReaderOf(s, q), s.sink)
  }

  predicate SafeAt(s: Pipe, q: Part) {
    Safe(LogOf(s, q), ReaderOf(s, q), s.sink)
  }

  /** The step is taken by the reader of the partition. */
  predicate Reads(t: Step, q: Part) {
    (t.Fetch? || t.Store? || t.Crash?) && t.q == q
  }

  /** The step commits past a skipped record while buffered events are not stored. */
  predicate HastyStep(s: Pipe, t: Step) {
    t.Fetch? && Hasty(LogOf(s, t.q), SideOf(s, t.q), t.commitOk)
  }

  /** Other partitions' steps only append to the log and add to the store. */
  lemma OthersGrow(h: Hash, s: Pipe, t: Step, q: Part)
    requires Enabled(h, s, t) && !Reads(t, q)
    ensures LogOf(s, q) <= LogOf(Apply(s, t), q) && s.sink <= Apply(s, t).sink
    ensures ReaderOf(Apply(s, t), q) == ReaderOf(s, q)
  { }

  lemma ShapeStep(h: Hash, s: Pipe, t: Step, q: Part)
    requires Enabled(h, s, t) && ShapeAt(s, q)
    ensures ShapeAt(Apply(s, t), q)
  {
    if !Reads(t, q) {
      OthersGrow(h, s, t, q);
      Grows(LogOf(s, q), LogOf(Apply(s, t), q), ReaderOf(s, q), s.sink, Apply(s, t).sink);
    }
  }

  lemma CoveredStep(h: Hash, s: Pipe, t: Step, q: Part)
    requires Enabled(h, s, t) && ShapeAt(s, q) && CoveredAt(s, q)
    requires t == Crash(q) ==> SafeAt(s, q)
    ensures CoveredAt(Apply(s, t), q)
    ensures SafeAt(s, q) && !HastyStep(s, t) ==> SafeAt(Apply(s, t), q)
  {
    if !Reads(t, q) {
      OthersGrow(h, s, t, q);
      Grows(LogOf(s, q), LogOf(Apply(s, t), q), ReaderOf(s, q), s.sink, Apply(s, t).sink);
    } else {
      match t
      case Fetch(_, commitOk) => ReceiveKeeps(LogOf(s, q), ReaderOf(s, q), s.sink, commitOk);
      case Store(_, o) => Ingest.FlushKeeps(LogOf(s, q), SideOf(s, q), o);
      case Crash(_) => RestartKeeps(LogOf(s, q), ReaderOf(s, q), s.sink);
    }
  }

  // ----- runs

  /** Every restart in the run finds its reader safe. */
  ghost predicate SafeRestarts(s: Pipe, steps: seq<Step>)
    decreases steps
  {
    steps != [] ==>
      (steps[0].Crash? ==> SafeAt(s, steps[0].q)) && SafeRestarts(Apply(s, steps[0]), steps[1..])
  }

  /** No step of the run is hasty. */
  ghost predicate Unhurried(s: Pipe, steps: seq<Step>)
    decreases steps
  {
    steps != [] ==> !HastyStep(s, steps[0]) && Unhurried(Apply(s, steps[0]), steps[1..])
  }

  lemma {:induction false} CoveredRun(h: Hash, s: Pipe, steps: seq<Step>, q: Part)
    requires Legal(h, s, steps) && SafeRestarts(s, steps) && ShapeAt(s, q) && CoveredAt(s, q)
    ensures ShapeAt(Run(s, steps), q) && CoveredAt(Run(s, steps), q)
    decreases steps
  {
    if steps != [] {
      ShapeStep(h, s, steps[0], q);
      CoveredStep(h, s, steps[0], q);
      CoveredRun(h, Apply(s, steps[0]), steps[1..], q);
    }
  }

  lemma {:induction false} SafeRun(h: Hash, s: Pipe, steps: seq<Step>, q: Part)
    requires Legal(h, s, steps) && Unhurried(s, steps) && ShapeAt(s, q) && CoveredAt(s, q) && SafeAt(s, q)
    ensures ShapeAt(Run(s, steps), q) && CoveredAt(Run(s, steps), q) && SafeAt(Run(s, steps), q)
    decreases steps
  {
    if steps != [] {
      ShapeStep(h, s, steps[0], q);
      CoveredStep(h, s, steps[0], q);
      SafeRun(h, Apply(s, steps[0]), steps[1..], q);
    }
  }

  // ----- main results

  /** Whatever fails or restarts, as long as restarts find their readers safe, every committed event
      is stored or still buffered. Up to the first restart this needs nothing else. */
  lemma CommittedStoredOrBuffered(h: Hash, steps: seq<Step>, q: Part, off: nat)
    requires Legal(h, EMPTY, steps) && SafeRestarts(EMPTY, steps)
    ensures var s := Run(EMPTY, steps);
      && ReaderOf(s, q).committed <= |LogOf(s, q)|
      && (off < ReaderOf(s, q).committed && LogOf(s, q)[off].Good? ==>
            LogOf(s, q)[off].row in s.sink || off in ReaderOf(s, q).buffer)
  {
    CoveredRun(h, EMPTY, steps, q);
    var s := Run(EMPTY, steps);
    assert off < ReaderOf(s, q).committed && off !in ReaderOf(s, q).buffer ==> Done(LogOf(s, q), s.sink, off);
  }

  /** When no commit is hasty, every committed event is stored, over failures and restarts of any kind. */
  lemma CommittedStored(h: Hash, steps: seq<Step>, q: Part, off: nat)
    requires Legal(h, EMPTY, steps) && Unhurried(EMPTY, steps)
    ensures var s := Run(EMPTY, steps);
      && ReaderOf(s, q).committed <= |LogOf(s, q)|
      && (off < ReaderOf(s, q).committed && LogOf(s, q)[off].Good? ==> LogOf(s, q)[off].row in s.sink)
  {
    SafeRun(h, EMPTY, steps, q);
    var s := Run(EMPTY, steps);
    assert off < ReaderOf(s, q).committed ==> Done(LogOf(s, q), s.sink, off);
  }

  predicate GoodAt(s: Pipe, q: Part) {
    forall i :: 0 <= i < |LogOf(s, q)| ==> LogOf(s, q)[i].Good?
  }

  lemma CleanStep(s: Pipe, t: Step, q: Part)
    requires !t.Spoil? && GoodAt(s, q)
    ensures GoodAt(Apply(s, t), q)
  {
    if t.Write? || t.Flush? {
      var more := Recs(DeliveredTo(t.d, q));
      assert LogOf(Apply(s, t), q) == LogOf(s, q) + more;
      assert forall i :: 0 <= i < |more| ==> more[i].Good?;
    } else {
      assert LogOf(Apply(s, t), q) == LogOf(s, q);
    }
  }

  /** In particular when every record is a valid event. */
  lemma {:induction false} CleanIsUnhurried(h: Hash, s: Pipe, steps: seq<Step>)
    requires Legal(h, s, steps) && forall q {:trigger GoodAt(s, q)} :: GoodAt(s, q)
    requires forall i :: 0 <= i < |steps| ==> !steps[i].Spoil?
    ensures Unhurried(s, steps)
    decreases steps
  {
    if steps != [] {
      var t := steps[0];
      assert t.Fetch? ==> GoodAt(s, t.q);
      forall q ensures GoodAt(Apply(s, t), q) {
        assert GoodAt(s, q);
        CleanStep(s, t, q);
      }
      CleanIsUnhurried(h, Apply(s, t), steps[1..]);
    }
  }

  /** An event in the log at some offset. */
  lemma {:induction false} Offset(log: seq<Rec>, x: OutboxRow) returns (off: nat)
    requires x in Goods(log)
    ensures off < |log| && log[off] == Good(x)
    decreases log
  {
    var n := |log| - 1;
    if log[n] == Good(x) {
      off := n;
    } else {
      off := Offset(log[..n], x);
    }
  }

  lemma {:induction false} OffsetIsGood(log: seq<Rec>, off: nat)
    requires off < |log| && log[off].Good?
    ensures log[off].row in Goods(log)
    decreases log
  {
    var n := |log| - 1;
    if off < n {
      OffsetIsGood(log[..n], off);
      assert log[..n][off] == log[off];
    }
  }

  /** An emitted event waits in the outbox or is in the log of its partition. */
  lemma NothingLostBeforeLog(h: Hash, steps: seq<Step>, x: OutboxRow)
    requires Legal(h, EMPTY, steps) && x in Run(EMPTY, steps).rows
    ensures var s := Run(EMPTY, steps); x in s.outbox || x in Goods(LogOf(s, PartOf(h, RouteOf(x))))
  {
    PubInvEmpty(h);
    PubRunKeeps(h, EMPTY, steps);
    PublishedOrWaiting(h, Run(EMPTY, steps), x);
  }

  lemma PublishedOrWaiting(h: Hash, s: Pipe, x: OutboxRow)
    requires PubInv(h, s) && x in s.rows
    ensures x in s.outbox || x in Goods(LogOf(s, PartOf(h, RouteOf(x))))
  {
    if x !in s.outbox {
      var p, r := Marked(s), RouteOf(x);
      assert s.rows == s.rows[..p] + s.rows[p..];
      AlongMembers(s.rows[..p], r);
      AlongMembers(Goods(LogOf(s, PartOf(h, r))), r);
      assert InOrder(h, s, r);
      PrefixMember(Along(s.rows[..p], r), FirstSeen(Along(Goods(LogOf(s, PartOf(h, r))), r)), x);
    }
  }

  lemma PrefixMember(a: Rows, b: Rows, x: OutboxRow)
    requires a <= b && x in a
    ensures x in b
  {
    var i :| 0 <= i < |a| && a[i] == x;
    assert b[i] == x;
  }

  /** The store holds emitted events only, and so do the logs, each in its own partition. */
  lemma NoPhantoms(h: Hash, steps: seq<Step>)
    requires Legal(h, EMPTY, steps)
    ensures var s := Run(EMPTY, steps);
      && (forall x :: x in s.sink ==> x in s.rows)
      && (forall q, x :: x in Goods(LogOf(s, q)) ==> x in s.rows && PartOf(h, RouteOf(x)) == q)
  {
    PubInvEmpty(h);
    forall q ensures ShapeAt(EMPTY, q) { }
    SinkRun(h, EMPTY, steps);
    var s := Run(EMPTY, steps);
    forall q, x | x in Goods(LogOf(s, q)) ensures x in s.rows && PartOf(h, RouteOf(x)) == q {
      assert Genuine(h, s, q);
    }
  }

  ghost predicate SinkInv(h: Hash, s: Pipe) {
    && PubInv(h, s) && (forall q {:trigger ShapeAt(s, q)} :: ShapeAt(s, q))
    && (forall x :: x in s.sink ==> x in s.rows)
  }

  lemma SinkStep(h: Hash, s: Pipe, t: Step)
    requires SinkInv(h, s) && Enabled(h, s, t)
    ensures SinkInv(h, Apply(s, t))
  {
    PubStepKeeps(h, s, t);
    forall q ensures ShapeAt(Apply(s, t), q) {
      assert ShapeAt(s, q);
      ShapeStep(h, s, t, q);
    }
    if t.Store? { HeldIsEmitted(h, s, t.q); }
  }

  lemma HeldIsEmitted(h: Hash, s: Pipe, q: Part)
    requires PubInv(h, s)
    ensures forall x :: x in Held(LogOf(s, q), ReaderOf(s, q)) ==> x in s.rows
  {
    var log := LogOf(s, q);
    assert Genuine(h, s, q);
    forall x | x in Held(log, ReaderOf(s, q)) ensures x in s.rows {
      var off :| off in ReaderOf(s, q).buffer && off < |log| && log[off].Good? && log[off].row == x;
      OffsetIsGood(log, off);
    }
  }

  lemma {:induction false} SinkRun(h: Hash, s: Pipe, steps: seq<Step>)
    requires SinkInv(h, s) && Legal(h, s, steps)
    ensures SinkInv(h, Run(s, steps))
    decreases steps
  {
    if steps != [] {
      SinkStep(h, s, steps[0]);
      SinkRun(h, Apply(s, steps[0]), steps[1..]);
    }
  }

  /** Nothing unpublished and nothing uncommitted. */
  ghost predicate Drained(s: Pipe) {
    s.outbox == [] && forall q :: ReaderOf(s, q).committed == |LogOf(s, q)|
  }

  /** Once drained, an unhurried run has stored exactly the emitted events. */
  lemma DrainedIsComplete(h: Hash, steps: seq<Step>)
    requires Legal(h, EMPTY, steps) && Unhurried(EMPTY, steps) && Drained(Run(EMPTY, steps))
    ensures Run(EMPTY, steps).sink == set x | x in Run(EMPTY, steps).rows
  {
    var s := Run(EMPTY, steps);
    NoPhantoms(h, steps);
    forall x | x in s.rows ensures x in s.sink {
      NothingLostBeforeLog(h, steps, x);
      var q := PartOf(h, RouteOf(x));
      var off := Offset(LogOf(s, q), x);
      CommittedStored(h, steps, q, off);
    }
  }

  lemma WholeBatch(h: Hash, x: OutboxRow)
    ensures Delivers(h, [x], map[PartOf(h, RouteOf(x)) := [x]], true)
  {
    var q := PartOf(h, RouteOf(x));
    assert [x][..0] == [];
    forall r ensures ArrivesAlong(h, [x], map[q := [x]], true, r) {
      assert PartOf(h, r) != q ==> Along([x], r) == [];
    }
    forall p ensures BelongsIn(h, [x], map[q := [x]], p) { }
  }

  /** The state after a list of steps, one at a time. */
  lemma RunSnoc(h: Hash, s: Pipe, steps: seq<Step>, t: Step)
    requires Legal(h, s, steps) && Enabled(h, Run(s, steps), t)
    ensures Legal(h, s, steps + [t]) && Run(s, steps + [t]) == Apply(Run(s, steps), t)
    decreases steps
  {
    if steps == [] {
      assert [t][1..] == [];
    } else {
      assert (steps + [t])[1..] == steps[1..] + [t];
      RunSnoc(h, Apply(s, steps[0]), steps[1..], t);
    }
  }

  /** One event, emitted and published. */
  lemma Published(h: Hash, x: OutboxRow) returns (steps: seq<Step>)
    ensures Legal(h, EMPTY, steps)
    ensures Run(EMPTY, steps) == Pipe([x], [], map[PartOf(h, RouteOf(x)) := [Good(x)]], map[], {})
  {
    var q := PartOf(h, RouteOf(x));
    var d := map[q := [x]];
    var s := Pipe([x], [x], map[], map[], {});
    RunSnoc(h, EMPTY, [], Emit(x));
    assert [] + [Emit(x)] == [Emit(x)];
    assert Run(EMPTY, [Emit(x)]) == s;
    assert BatchOf(s) == [x];
    WholeBatch(h, x);
    RunSnoc(h, EMPTY, [Emit(x)], Flush(d, 1));
    steps := [Emit(x)] + [Flush(d, 1)];
    assert Unmarked([x], IdsOf([x][..1])) == [] by { MarkingAPrefix([x], 1); }
    assert [] + Recs(DeliveredTo(d, q)) == [Good(x)];
    assert Append(map[], d) == map[q := [Good(x)]];
  }

  /** With a skipped record the hasty commit and a restart lose the event for good: the pipeline is
      drained and the event is not stored. */
  lemma HastyCommitLoses(h: Hash, x: OutboxRow, rec: Rec) returns (steps: seq<Step>)
    requires !rec.Good?
    ensures Legal(h, EMPTY, steps) && Drained(Run(EMPTY, steps))
    ensures Run(EMPTY, steps).rows == [x] && Run(EMPTY, steps).sink == {}
  {
    var q := PartOf(h, RouteOf(x));
    var log: seq<Rec> := [Good(x), rec];
    var logs := map[q := log];
    steps := Published(h, x);
    RunSnoc(h, EMPTY, steps, Spoil(q, rec));
    steps := steps + [Spoil(q, rec)];
    assert [Good(x)] + [rec] == log;
    assert map[q := [Good(x)]][q := log] == logs;
    assert Run(EMPTY, steps) == Pipe([x], [], logs, map[], {});
    RunSnoc(h, EMPTY, steps, Fetch(q, true));
    steps := steps + [Fetch(q, true)];
    assert Receive(log, FIRST_OFFSET, true) == Reader(1, [0], 0);
    assert Run(EMPTY, steps) == Pipe([x], [], logs, map[q := Reader(1, [0], 0)], {});
    RunSnoc(h, EMPTY, steps, Fetch(q, true));
    steps := steps + [Fetch(q, true)];
    assert Receive(log, Reader(1, [0], 0), true) == Reader(2, [0], 2);
    assert ReaderOf(Run(EMPTY, steps), q) == Reader(2, [0], 2);
    RunSnoc(h, EMPTY, steps, Crash(q));
    steps := steps + [Crash(q)];
  }
}
