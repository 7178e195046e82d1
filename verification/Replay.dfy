/** The event-replay tool: re-reads a log from its first record into the event store. */
module Replay {
  import opened Domain
  import opened Ingest

  const BATCH := 100

  /** The records that decode, in order. */
  function Decodable(log: seq<Rec>): seq<Rec> {
    if log == [] then [] else
    Decodable(log[..|log| - 1]) + if log[|log| - 1].Garbage? then [] else [log[|log| - 1]]
  }

  /** What a replay with this limit is to store; a limit of zero or less means no limit. */
  function Wanted(log: seq<Rec>, max: int): seq<Rec> {
    var all := Decodable(log);
    if 0 < max < |all| then all[..max] else all
  }

  lemma {:induction false} DecodablePrefix(log: seq<Rec>, n: nat)
    requires n <= |log|
    ensures Decodable(log[..n]) <= Decodable(log)
    decreases |log| - n
  {
    if n == |log| {
      assert log[..n] == log;
    } else {
      DecodablePrefix(log, n + 1);
      assert log[..n + 1][..n] == log[..n];
    }
  }

  /** Reads until the limit or the end, storing batches of a hundred and then the rest. Insert call
      number `fault` errors, which ends the tool; the batches before it are stored. */
  method Run(log: seq<Rec>, max: int, fault: nat) returns (stored: seq<Rec>, count: nat, ok: bool)
    ensures ok <==> |Wanted(log, max)| <= 100 * fault
    ensures ok ==> stored == Wanted(log, max) && count == |stored|
    ensures !ok ==> stored <= Wanted(log, max) && |stored| == 100 * fault && stored != Wanted(log, max)
  {
    var batch: seq<Rec> := [];
    var calls := 0;
    stored, count := [], 0;
    var i := 0;
    while i < |log| && !(max > 0 && count >= max)
      invariant 0 <= i <= |log| && |batch| < BATCH && calls <= fault
      invariant stored + batch == Decodable(log[..i]) && count == |stored + batch| && |stored| == BATCH * calls
      invariant max > 0 ==> count <= max
    {
      var msg := log[i];
      assert log[..i + 1][..i] == log[..i];
      i := i + 1;
      if msg.Garbage? {
        continue;
      }
      count := count + 1;
      batch := batch + [msg];
      if |batch| >= BATCH {
        if calls == fault {
          DecodablePrefix(log, i);
          Cut(log, i, max, stored, batch);
          return stored, count, false;
        }
        calls := calls + 1;
        stored := stored + batch;
        batch := [];
      }
    }
    DecodablePrefix(log, i);
    assert log[..|log|] == log;
    assert stored + batch == Wanted(log, max);
    if |batch| > 0 {
      if calls == fault {
        return stored, count, false;
      }
      stored := stored + batch;
    }
    ok := true;
  }

  /** What is stored when a batch fails in the middle is short of what is wanted. */
  lemma Cut(log: seq<Rec>, i: nat, max: int, stored: seq<Rec>, batch: seq<Rec>)
    requires i <= |log| && stored + batch == Decodable(log[..i]) && batch != []
    requires Decodable(log[..i]) <= Decodable(log) && (max > 0 ==> |stored + batch| <= max)
    ensures stored <= Wanted(log, max) && stored != Wanted(log, max)
  {
    assert forall k :: 0 <= k < |stored| ==> stored[k] == (stored + batch)[k];
  }

  /** The events among records. */
  function Events(recs: seq<Rec>): set<OutboxRow> {
    set i | 0 <= i < |recs| && recs[i].Good? :: recs[i].row
  }

  lemma {:induction false} DecodableEvents(log: seq<Rec>)
    ensures Events(Decodable(log)) == Events(log)
    decreases log
  {
    if log != [] {
      var n := |log| - 1;
      DecodableEvents(log[..n]);
      EventsConcat(log[..n], [log[n]]);
      EventsConcat(Decodable(log[..n]), [log[n]]);
      assert log == log[..n] + [log[n]];
      assert Decodable(log) == if log[n].Garbage? then Decodable(log[..n]) else Decodable(log[..n]) + [log[n]];
      assert log[n].Garbage? ==> Events([log[n]]) == {};
    }
  }

  lemma EventsConcat(a: seq<Rec>, b: seq<Rec>)
    ensures Events(a + b) == Events(a) + Events(b)
  {
    forall x | x in Events(a) + Events(b) ensures x in Events(a + b) {
      if x in Events(a) {
        var i :| 0 <= i < |a| && a[i].Good? && a[i].row == x;
        assert (a + b)[i] == a[i];
      } else {
        var i :| 0 <= i < |b| && b[i].Good? && b[i].row == x;
        assert (a + b)[|a| + i] == b[i];
      }
    }
  }

  /** A full replay of a partition repairs every loss in it: any reader of it becomes safe. A second one
      adds no event. */
  lemma ReplayRestores(log: seq<Rec>, r: Reader, sink: set<OutboxRow>)
    ensures var after := sink + Events(Wanted(log, 0));
      && Covered(log, r, after) && Safe(log, r, after)
      && after + Events(Wanted(log, 0)) == after
      && after == sink + Events(log)
  {
    DecodableEvents(log);
    var after := sink + Events(Wanted(log, 0));
    forall off: nat ensures Done(log, after, off) { }
  }

  // ----- what a replay stores, record by record

  lemma {:induction false} DecodableConcat(a: seq<Rec>, b: seq<Rec>)
    ensures Decodable(a + b) == Decodable(a) + Decodable(b)
    decreases b
  {
    if b == [] {
      assert a + b == a;
    } else {
      assert (a + b)[..|a + b| - 1] == a + b[..|b| - 1];
      DecodableConcat(a, b[..|b| - 1]);
    }
  }

  /** A replay stores, in log order, each record that decodes as often as it is there and no garbage, up to
      the limit if one is set. */
  lemma WantedRecords(log: seq<Rec>, max: int, x: Rec)
    ensures multiset(Wanted(log, 0))[x] == if x == Garbage then 0 else multiset(log)[x]
    ensures forall i :: 0 <= i <= |log| ==> Wanted(log, 0) == Wanted(log[..i], 0) + Wanted(log[i..], 0)
    ensures max > 0 ==>
      && Wanted(log, max) <= Wanted(log, 0)
      && |Wanted(log, max)| == (if |Wanted(log, 0)| < max then |Wanted(log, 0)| else max)
    ensures max <= 0 ==> Wanted(log, max) == Wanted(log, 0)
  {
    DecodableCount(log, x);
    forall i | 0 <= i <= |log| ensures Wanted(log, 0) == Wanted(log[..i], 0) + Wanted(log[i..], 0) {
      WantedSplits(log, i);
    }
  }

  lemma WantedSplits(log: seq<Rec>, i: nat)
    requires i <= |log|
    ensures Wanted(log, 0) == Wanted(log[..i], 0) + Wanted(log[i..], 0)
  {
    DecodableConcat(log[..i], log[i..]);
    assert log[..i] + log[i..] == log;
  }

  lemma {:induction false} DecodableCount(log: seq<Rec>, x: Rec)
    ensures multiset(Decodable(log))[x] == if x == Garbage then 0 else multiset(log)[x]
    decreases log
  {
    if log != [] {
      var n := |log| - 1;
      DecodableCount(log[..n], x);
      assert log == log[..n] + [log[n]];
      assert multiset(log) == multiset(log[..n]) + multiset{log[n]};
      assert Decodable(log) == if log[n].Garbage? then Decodable(log[..n]) else Decodable(log[..n]) + [log[n]];
      assert multiset(Decodable(log[..n]) + [log[n]]) == multiset(Decodable(log[..n])) + multiset{log[n]};
    }
  }
}
