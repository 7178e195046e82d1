/** The analytics consumer's fetch loop and its flush closure, changing their buffers in place. */
module AnalyticsConsumer {
  import opened Domain
  import opened Outbox
  import opened Ingest

  const BATCH := 100

  /** What the outside decides in one iteration of the loop: whether the ticker fires and how that flush
      ends, whether a message arrives, whether the commit of a skipped one succeeds, and how the flush
      of a full buffer ends. */
  datatype Turn = Turn(tick: Option<Outcome>, arrives: bool, commitOk: bool, full: Outcome)

  function AfterTick(log: seq<Rec>, s: Side, t: Turn): Side {
    if t.tick.Some? then Flush(log, s, t.tick.value) else s
  }

  function AfterFetch(log: seq<Rec>, s: Side, t: Turn): Side {
    if t.arrives then s.(reader := Receive(log, s.reader, t.commitOk)) else s
  }

  /** One iteration. */
  function After(log: seq<Rec>, s: Side, t: Turn): Side {
    var got := AfterFetch(log, AfterTick(log, s, t), t);
    if |got.reader.buffer| > |AfterTick(log, s, t).reader.buffer| && |got.reader.buffer| >= BATCH
    then Flush(log, got, t.full) else got
  }

  lemma TickKeeps(log: seq<Rec>, s: Side, t: Turn)
    requires Shape(log, s.reader) && Covered(log, s.reader, s.sink)
    ensures var a := AfterTick(log, s, t);
      && Shape(log, a.reader) && Covered(log, a.reader, a.sink) && s.sink <= a.sink
      && (Safe(log, s.reader, s.sink) ==> Safe(log, a.reader, a.sink))
      && |a.reader.buffer| <= |s.reader.buffer|
  {
    if t.tick.Some? { FlushKeeps(log, s, t.tick.value); }
  }

  lemma FetchKeeps(log: seq<Rec>, s: Side, t: Turn)
    requires Shape(log, s.reader) && Covered(log, s.reader, s.sink)
    ensures var a := AfterFetch(log, s, t);
      && Shape(log, a.reader) && Covered(log, a.reader, a.sink) && s.sink == a.sink
      && (Safe(log, s.reader, s.sink) && !(t.arrives && Hasty(log, s, t.commitOk)) ==> Safe(log, a.reader, a.sink))
      && |a.reader.buffer| <= |s.reader.buffer| + 1
  {
    if t.arrives && s.reader.position < |log| {
      ReceiveKeeps(log, s.reader, s.sink, t.commitOk);
    }
  }

  /** An iteration loses no event it has fetched, keeps committed events stored unless it is hasty, and
      holds back fewer than a batch of events as long as the flushes of full buffers succeed. Between ticks
      it stores nothing before a hundred are buffered. */
  lemma TurnKeeps(log: seq<Rec>, s: Side, t: Turn)
    requires Shape(log, s.reader) && Covered(log, s.reader, s.sink)
    ensures var a := After(log, s, t);
      && Shape(log, a.reader) && Covered(log, a.reader, a.sink) && s.sink <= a.sink
      && (Safe(log, s.reader, s.sink) && !(t.arrives && Hasty(log, AfterTick(log, s, t), t.commitOk)) ==>
            Safe(log, a.reader, a.sink))
      && |a.reader.buffer| <= |s.reader.buffer| + 1
      && (|s.reader.buffer| < 100 && t.full.Stored? ==> |a.reader.buffer| < 100)
      && (t.tick.None? && |s.reader.buffer| < 99 ==> a.sink == s.sink && |a.reader.buffer| >= |s.reader.buffer|)
  {
    TickKeeps(log, s, t);
    FetchKeeps(log, AfterTick(log, s, t), t);
    FlushKeeps(log, AfterFetch(log, AfterTick(log, s, t), t), t.full);
  }

  class Consumer {
    var buf: Rows
    var msgs: seq<nat>          // the offsets of the buffered messages
    var position: nat
    var committed: nat
    var sink: set<OutboxRow>

    ghost function View(): Side
      reads this
    {
      Side(Reader(position, msgs, committed), sink)
    }

    /** Buffered events and messages go together. */
    ghost predicate Valid(log: seq<Rec>)
      reads this
    {
      && Shape(log, View().reader) && |buf| == |msgs|
      && forall i :: 0 <= i < |buf| ==> buf[i] == log[msgs[i]].row
    }

    constructor ()
      ensures Valid([]) && View() == Side(FIRST_OFFSET, {})
    {
      buf, msgs, position, committed, sink := [], [], 0, 0, {};
    }

    /** Inserts the buffer, then commits its messages; on an error the buffer stays. */
    method FlushBuffer(ghost log: seq<Rec>, o: Outcome) returns (ok: bool)
      requires Valid(log)
      modifies this
      ensures Valid(log) && View() == Flush(log, old(View()), o)
      ensures ok <==> old(buf) == [] || o.Stored?
    {
      if |buf| == 0 {
        return true;
      }
      var events := set x | x in buf;
      assert events == Held(log, View().reader) by {
        forall x | x in buf ensures x in Held(log, View().reader) {
          var i :| 0 <= i < |buf| && buf[i] == x;
          assert msgs[i] in msgs;
        }
      }
      if o.InsertFailed? {
        sink := sink + o.kept * events;
        return false;
      }
      sink := sink + events;
      if o.CommitFailed? {
        return false;
      }
      committed := msgs[|msgs| - 1] + 1;
      buf := [];
      msgs := [];
      return true;
    }

    /** Takes the next message: buffers an event, skips and commits anything else. */
    method Take(log: seq<Rec>, commitOk: bool) returns (buffered: bool)
      requires Valid(log) && position < |log|
      modifies this
      ensures Valid(log) && sink == old(sink)
      ensures View().reader == Receive(log, old(View().reader), commitOk)
      ensures buffered <==> |msgs| > old(|msgs|)
    {
      var msg := position;
      position := position + 1;
      buffered := log[msg].Good?;
      if buffered {
        buf := buf + [log[msg].row];
        msgs := msgs + [msg];
      } else if commitOk {
        committed := msg + 1;
      }
    }

    method Iterate(log: seq<Rec>, t: Turn)
      requires Valid(log)
      modifies this
      ensures Valid(log) && View() == After(log, old(View()), t)
    {
      if t.tick.Some? {
        var _ := FlushBuffer(log, t.tick.value);
      }
      if !t.arrives || position >= |log| {
        return;
      }
      var buffered := Take(log, t.commitOk);
      if buffered && |buf| >= BATCH {
        var _ := FlushBuffer(log, t.full);
      }
    }
  }
}
