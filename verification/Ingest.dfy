/** The analytics consumer of one log partition: fetch, buffer, insert, then commit; a restart resumes at
    the committed offset. */
module Ingest {
  import opened Domain

  /** A log record: an event with its id, a decodable record without an id, or garbage. */
  datatype Rec = Good(row: OutboxRow) | Unnamed | Garbage

  /** The next offset to fetch, the offsets of the buffered messages, and the committed offset. */
  datatype Reader = Reader(position: nat, buffer: seq<nat>, committed: nat)

  const FIRST_OFFSET := Reader(0, [], 0)

  /** A reader and the event store, which keeps one row per event id. */
  datatype Side = Side(reader: Reader, sink: set<OutboxRow>)

  /** How a flush ends. A failed insert may have stored some events of the batch. */
  datatype Outcome = InsertFailed(kept: set<OutboxRow>) | CommitFailed | Stored

  /** The buffered events. */
  function Held(log: seq<Rec>, r: Reader): set<OutboxRow> {
    set off | off in r.buffer && off < |log| && log[off].Good? :: log[off].row
  }

  // ----- steps

  function Receive(log: seq<Rec>, r: Reader, commitOk: bool): Reader {
    if r.position >= |log| then r
    else if log[r.position].Good? then r.(position := r.position + 1, buffer := r.buffer + [r.position])
    else r.(position := r.position + 1, committed := if commitOk then r.position + 1 else r.committed)
  }

  function Flush(log: seq<Rec>, s: Side, o: Outcome): Side {
    if s.reader.buffer == [] then s else
    match o
    case InsertFailed(kept) => s.(sink := s.sink + kept * Held(log, s.reader))
    case CommitFailed => s.(sink := s.sink + Held(log, s.reader))
    case Stored =>
      Side(s.reader.(buffer := [], committed := s.reader.buffer[|s.reader.buffer| - 1] + 1),
           s.sink + Held(log, s.reader))
  }

  function Restart(r: Reader): Reader {
    Reader(r.committed, [], r.committed)
  }

  // ----- what holds of a reader

  predicate Shape(log: seq<Rec>, r: Reader) {
    && r.committed <= r.position <= |log|
    && (forall i :: 0 <= i < |r.buffer| ==> r.buffer[i] < r.position && log[r.buffer[i]].Good?)
    && (forall i, k :: 0 <= i < k < |r.buffer| ==> r.buffer[i] < r.buffer[k])
  }

  /** Nothing is owed for the record at this offset. */
  predicate Done(log: seq<Rec>, sink: set<OutboxRow>, off: nat) {
    off < |log| && log[off].Good? ==> log[off].row in sink
  }

  /** Every fetched event is stored or buffered; in particular every committed one is. */
  predicate Covered(log: seq<Rec>, r: Reader, sink: set<OutboxRow>) {
    forall off :: 0 <= off < r.position && off !in r.buffer ==> Done(log, sink, off)
  }

  /** Every committed event is stored. */
  predicate Safe(log: seq<Rec>, r: Reader, sink: set<OutboxRow>) {
    forall off :: 0 <= off < r.committed ==> Done(log, sink, off)
  }

  /** The next record is skipped and committed past while buffered events are not stored. */
  predicate Hasty(log: seq<Rec>, s: Side, commitOk: bool) {
    && commitOk && s.reader.position < |log| && !log[s.reader.position].Good?
    && !(Held(log, s.reader) <= s.sink)
  }

  /** A flush keeps all three, and a successful one makes the reader safe whatever was committed before. It
      commits up to the last buffered event; a flush that fails leaves the reader as it is. */
  lemma FlushKeeps(log: seq<Rec>, s: Side, o: Outcome)
    requires Shape(log, s.reader) && Covered(log, s.reader, s.sink)
    ensures var t := Flush(log, s, o);
      && Shape(log, t.reader) && Covered(log, t.reader, t.sink) && s.sink <= t.sink
      && t.sink <= s.sink + Held(log, s.reader)
      && ((Safe(log, s.reader, s.sink) || (o.Stored? && s.reader.buffer != [])) ==> Safe(log, t.reader, t.sink))
      && (o.Stored? || o.CommitFailed? ==> Held(log, s.reader) <= t.sink)
      && (!o.Stored? ==> t.reader == s.reader) && t.reader.position == s.reader.position
      && (o.Stored? && s.reader.buffer != [] ==>
            && t.reader.buffer == [] && t.reader.committed - 1 in s.reader.buffer
            && forall off :: off in s.reader.buffer ==> off < t.reader.committed)
  {
    var t := Flush(log, s, o);
    if s.reader.buffer == [] || !o.Stored? {
      Grows(log, log, s.reader, s.sink, t.sink);
    } else {
      forall off | 0 <= off < s.reader.position ensures Done(log, t.sink, off) {
        if off !in s.reader.buffer { assert Done(log, s.sink, off); }
      }
    }
  }

  /** Fetching keeps coverage. The commit of a skipped record leaves the reader safe if and only if the
      buffered events are stored already. */
  lemma ReceiveKeeps(log: seq<Rec>, r: Reader, sink: set<OutboxRow>, commitOk: bool)
    requires Shape(log, r) && Covered(log, r, sink) && r.position < |log|
    ensures var t := Receive(log, r, commitOk);
      && Shape(log, t) && Covered(log, t, sink) && t.position == r.position + 1
      && (log[r.position].Good? || !commitOk ==> (Safe(log, t, sink) <==> Safe(log, r, sink)))
      && (!log[r.position].Good? && commitOk ==> (Safe(log, t, sink) <==> Held(log, r) <= sink))
  {
    var t := Receive(log, r, commitOk);
    if log[r.position].Good? {
      CoveredByOneMore(log, r, sink);
    } else if commitOk {
      CommittedPast(log, r, sink);
    }
  }

  lemma CoveredByOneMore(log: seq<Rec>, r: Reader, sink: set<OutboxRow>)
    requires Covered(log, r, sink)
    ensures Covered(log, r.(position := r.position + 1, buffer := r.buffer + [r.position]), sink)
  {
    var t := r.(position := r.position + 1, buffer := r.buffer + [r.position]);
    assert t.buffer[|r.buffer|] == r.position;
    assert forall i :: 0 <= i < |r.buffer| ==> t.buffer[i] == r.buffer[i];
    forall off | 0 <= off < t.position && off !in t.buffer ensures Done(log, sink, off) {
      assert off !in r.buffer;
    }
  }

  lemma CommittedPast(log: seq<Rec>, r: Reader, sink: set<OutboxRow>)
    requires Shape(log, r) && Covered(log, r, sink) && r.position < |log| && !log[r.position].Good?
    ensures Safe(log, r.(position := r.position + 1, committed := r.position + 1), sink) <==> Held(log, r) <= sink
  {
    var t := r.(position := r.position + 1, committed := r.position + 1);
    if Safe(log, t, sink) {
      forall x | x in Held(log, r) ensures x in sink {
        var off :| off in r.buffer && off < |log| && log[off].Good? && log[off].row == x;
        assert Done(log, sink, off);
      }
    }
    if Held(log, r) <= sink {
      forall off | 0 <= off < t.committed ensures Done(log, sink, off) {
        if off in r.buffer { assert log[off].row in Held(log, r); }
      }
    }
  }

  /** A restart keeps coverage if and only if the reader was safe. */
  lemma RestartKeeps(log: seq<Rec>, r: Reader, sink: set<OutboxRow>)
    requires Shape(log, r)
    ensures var t := Restart(r);
      Shape(log, t) && (Covered(log, t, sink) <==> Safe(log, r, sink)) && (Safe(log, t, sink) <==> Safe(log, r, sink))
  {
    var t := Restart(r);
    if Covered(log, t, sink) {
      forall off | 0 <= off < r.committed ensures Done(log, sink, off) {
        assert off !in t.buffer;
      }
    }
  }

  /** Appending to the log and storing more events keeps all three. */
  lemma Grows(log: seq<Rec>, log': seq<Rec>, r: Reader, sink: set<OutboxRow>, sink': set<OutboxRow>)
    requires Shape(log, r) && log <= log' && sink <= sink'
    ensures Shape(log', r)
    ensures Covered(log, r, sink) ==> Covered(log', r, sink')
    ensures Safe(log, r, sink) ==> Safe(log', r, sink')
  {
    forall off | 0 <= off < r.position && Done(log, sink, off) ensures Done(log', sink', off) { }
  }
}
