/** The in-memory work queue: a sorted slice of ready jobs and a slice of delayed ones that is
    compacted in place in its own backing array. */
module MemoryQueue {
  import opened Domain
  import opened QueueOrder
  import opened QueueRuns

  class Queue {
    var items: seq<QueuedJob>
    var backing: array<Delayed>   // the backing array of the `delayed` slice
    var len: nat                  // and the length of the slice
    var closed: bool

    ghost predicate Valid()
      reads this
    {
      len <= backing.Length
    }

    ghost function DelayedItems(): seq<Delayed>
      requires Valid()
      reads this, backing
    {
      backing[..len]
    }

    constructor ()
      ensures Valid() && fresh(backing)
      ensures items == [] && DelayedItems() == [] && !closed
    {
      items, len, closed := [], 0, false;
      backing := new Delayed[0];
    }

    /** Walks to the first item the job is ahead of, makes room there and puts the job in. */
    method InsertLocked(job: QueuedJob)
      modifies this`items
      ensures items == Insert(old(items), job)
    {
      var i := 0;
      while i < |items|
        invariant i <= |items|
        invariant forall k :: 0 <= k < i ==> !Ahead(job, items[k])
      {
        if job.priority > items[i].priority {
          break;
        }
        if job.priority == items[i].priority && job.enqueuedAt < items[i].enqueuedAt {
          break;
        }
        i := i + 1;
      }
      InsertSplits(items, job, i);
      items := items[..i] + [job] + items[i..];
    }

    method Enqueue(job: QueuedJob, now: Time) returns (ok: bool)
      requires Valid()
      modifies this`items
      ensures Valid() && ok == !closed
      ensures items == if ok then Insert(old(items), Stamped(job, now)) else old(items)
    {
      if closed {
        return false;
      }
      var j := job;
      if j.enqueuedAt == ZERO_TIME {
        j := j.(enqueuedAt := now);
      }
      InsertLocked(j);
      return true;
    }

    method EnqueueDelay(job: QueuedJob, delay: Time, now: Time) returns (ok: bool)
      requires Valid()
      modifies this, backing
      ensures Valid() && (backing == old(backing) || fresh(backing))
      ensures ok == !old(closed) && closed == old(closed)
      ensures items == if ok && delay <= 0 then Insert(old(items), job) else old(items)
      ensures DelayedItems() ==
        if ok && delay > 0 then old(DelayedItems()) + [Delayed(job, now + delay)] else old(DelayedItems())
    {
      if closed {
        return false;
      }
      if delay <= 0 {
        InsertLocked(job);
        return true;
      }
      var d := Delayed(job, now + delay);
      if len == backing.Length {
        var bigger := new Delayed[2 * len + 1](_ => d);
        forall i | 0 <= i < len { bigger[i] := backing[i]; }
        backing := bigger;
      }
      backing[len] := d;
      len := len + 1;
      return true;
    }

    /** One pass: items whose time has come go to the ready queue, the others are moved down over the
        gaps. The writes go into the array being read, never ahead of the read position. */
    method ReleaseDelayed(now: Time)
      requires Valid()
      modifies this`items, this`len, backing
      ensures Valid() && backing == old(backing)
      ensures items == if closed then old(items) else Released(old(items), old(DelayedItems()), now)
      ensures DelayedItems() == if closed then old(DelayedItems()) else Kept(old(DelayedItems()), now)
    {
      if closed {
        return;
      }
      ghost var was := backing[..len];
      var w := 0;
      for r := 0 to len
        invariant w <= r && len == old(len) <= backing.Length
        invariant backing[..w] == Kept(was[..r], now)
        invariant backing[r..len] == was[r..]
        invariant items == Released(old(items), was[..r], now)
      {
        var d := backing[r];
        assert d == was[r] by { assert backing[r..len][0] == was[r..][0]; }
        assert was[..r + 1][..r] == was[..r];
        ghost var rest := backing[r + 1..len];
        assert rest == was[r + 1..] by { assert backing[r..len][1..] == was[r..][1..]; }
        if d.available <= now {
          InsertLocked(d.job);
        } else {
          backing[w] := d;
          w := w + 1;
        }
        assert backing[r + 1..len] == rest;
      }
      assert was[..len] == was;
      len := w;
    }

    /** Takes the first job, if there is one and the queue is open. */
    method Pop() returns (job: Option<QueuedJob>)
      modifies this`items
      ensures job.Some? <==> !closed && old(items) != []
      ensures job.Some? ==> job.value == old(items)[0] && items == old(items)[1..]
      ensures job.None? ==> items == old(items)
    {
      if closed || items == [] {
        return None;
      }
      job := Some(items[0]);
      items := items[1..];
    }

    method Close()
      modifies this`closed
      ensures closed
    {
      closed := true;
    }
  }

  /** One turn of the consumer loop: pop, handle, and put the job back if the handler fails. `fails`
      says what the handler does. */
  method ConsumeOne(q: Queue, fails: bool, now: Time) returns (job: Option<QueuedJob>)
    requires q.Valid()
    modifies q`items
    ensures q.Valid()
    ensures job.Some? <==> !q.closed && old(q.items) != []
    ensures q.items ==
      if job.None? then old(q.items)
      else if fails then Insert(old(q.items)[1..], Stamped(old(q.items)[0], now)) else old(q.items)[1..]
  {
    job := q.Pop();
    if job.Some? && fails {
      var _ := q.Enqueue(job.value, now);
    }
  }
}
