/** The outbox publisher: fetch a batch, write it to the log, mark it published. */
module OutboxPublisher {
  import opened Domain
  import opened Outbox
  import opened MemoryStore
  import opened EventPipeline

  datatype Message = Message(route: Route, row: OutboxRow)

  /** The messages of a batch, in order. */
  predicate MessagesOf(msgs: seq<Message>, rows: Rows) {
    |msgs| == |rows| && forall i :: 0 <= i < |rows| ==> msgs[i] == Message(RouteOf(rows[i]), rows[i])
  }

  class Publisher {
    const store: Store

    constructor (store: Store)
      ensures this.store == store
    {
      this.store := store;
    }

    /** Returns what was handed to the log writer; `written` is whether the write succeeded. */
    method Flush(written: bool) returns (ok: bool, msgs: seq<Message>)
      modifies store`outbox
      ensures var batch := old(store.outbox)[..if |old(store.outbox)| < 100 then |old(store.outbox)| else 100];
        && MessagesOf(msgs, batch)
        && (ok <==> written || batch == [])
        && store.outbox == (if ok then Unmarked(old(store.outbox), IdsOf(batch)) else old(store.outbox))
        && (ok && DistinctIds(old(store.outbox)) ==> store.outbox == old(store.outbox)[|batch|..])
    {
      var rows := store.FetchOutboxBatch(BATCH);
      msgs := [];
      if |rows| == 0 {
        MarkNothing(store.outbox);
        return true, [];
      }
      var ids := [];
      for i := 0 to |rows|
        invariant MessagesOf(msgs, rows[..i]) && ids == IdsOf(rows[..i])
      {
        var key := rows[i].aggregate;
        if key == NO_ID {
          key := rows[i].id;
        }
        msgs := msgs + [Message(Route(TopicFor(rows[i].eventType), key), rows[i])];
        ids := ids + [rows[i].id];
      }
      assert rows[..|rows|] == rows;
      if !written {
        return false, msgs;
      }
      if DistinctIds(store.outbox) { MarkingAPrefix(store.outbox, |rows|); }
      store.MarkOutboxPublished(ids);
      ok := true;
    }
  }

  /** The Postgres form of the mark: one update per id, given up at the first error. It leaves what the
      single pass leaves for the ids before the error. */
  method MarkEach(outbox: Rows, ids: seq<Id>, fault: nat) returns (rest: Rows, ok: bool)
    ensures ok <==> |ids| <= fault
    ensures rest == Unmarked(outbox, ids[..if fault < |ids| then fault else |ids|])
  {
    rest := outbox;
    MarkNothing(outbox);
    for i := 0 to |ids|
      invariant i <= fault && rest == Unmarked(outbox, ids[..i])
    {
      if i == fault {
        return rest, false;
      }
      MarkOneMore(outbox, ids[..i], ids[i]);
      assert ids[..i + 1] == ids[..i] + [ids[i]];
      rest := Without(rest, ids[i]);
    }
    ok := true;
  }

  /** One update: the row with the id is no longer unpublished. */
  function Without(rows: Rows, id: Id): (r: Rows)
    ensures forall x :: x in r <==> x in rows && x.id != id
    ensures r == Unmarked(rows, [id])
  {
    if rows == [] then [] else
    assert rows == rows[..|rows| - 1] + [rows[|rows| - 1]];
    Without(rows[..|rows| - 1], id) + if rows[|rows| - 1].id == id then [] else [rows[|rows| - 1]]
  }

  // ----- a full write exists for every batch

  /** The rows of a partition, in order. */
  function InPart(h: Hash, s: Rows, q: Part): (p: Rows)
    ensures forall x :: x in p ==> x in s && PartOf(h, RouteOf(x)) == q
  {
    if s == [] then [] else
    InPart(h, s[..|s| - 1], q) + if PartOf(h, RouteOf(s[|s| - 1])) == q then [s[|s| - 1]] else []
  }

  function WholeDelivery(h: Hash, batch: Rows): Delivery {
    map q | q in set x | x in batch :: PartOf(h, RouteOf(x)) :: InPart(h, batch, q)
  }

  lemma {:induction false} InPartAlong(h: Hash, s: Rows, r: Route)
    ensures Along(InPart(h, s, PartOf(h, r)), r) == Along(s, r)
    decreases s
  {
    if s != [] {
      var n := |s| - 1;
      var t := InPart(h, s[..n], PartOf(h, r));
      InPartAlong(h, s[..n], r);
      assert InPart(h, s, PartOf(h, r)) == if PartOf(h, RouteOf(s[n])) == PartOf(h, r) then t + [s[n]] else t;
      assert (t + [s[n]])[..|t|] == t;
      assert Along(t + [s[n]], r) == Along(t, r) + if RouteOf(s[n]) == r then [s[n]] else [];
    }
  }

  /** Sending each message to its partition, in batch order, is a successful write. */
  lemma WholeDeliveryDelivers(h: Hash, batch: Rows)
    ensures Delivers(h, batch, WholeDelivery(h, batch), true)
  {
    var d := WholeDelivery(h, batch);
    forall q ensures DeliveredTo(d, q) == InPart(h, batch, q) {
      var p := InPart(h, batch, q);
      assert p != [] ==> p[0] in p;
    }
    forall r ensures ArrivesAlong(h, batch, d, true, r) { InPartAlong(h, batch, r); }
    forall q ensures BelongsIn(h, batch, d, q) { }
  }
}
