/** The API handlers that take part in the job lifecycle. Request decoding, validation and the
    resolution of a schedule to a time come before the part modelled here. */
module ApiServer {
  import opened Domain
  import opened MemoryStore
  import opened Scheduler
  import L = Lifecycle

  datatype CancelReply = NotFound | AlreadyTerminal | CancelPending | CancelDone

  class Server {
    const store: Store
    const queue: WorkQueue

    constructor (store: Store, queue: WorkQueue)
      ensures this.store == store && this.queue == queue
    {
      this.store, this.queue := store, queue;
    }

    /** The part of the control plane the API works on. */
    function View(): L.Core
      reads store, queue
    {
      L.Core(store.jobs, store.executions, queue.msgs, map[], map[])
    }

    /** Creates a job, or resubmits the one that already has the key. `up` is whether the queue takes a
        message; a job it does not take stays as it was stored, and the request fails. */
    method CreateJob(now: Time, id: Id, n: L.NewJob, up: bool) returns (ok: bool, stored: Id)
      requires store.Valid() && id != NO_ID && id !in store.jobs
      modifies store, queue
      ensures store.Valid() && stored in store.jobs
      ensures n.idemKey in old(store.byIdem) ==>
        && stored == old(store.byIdem)[n.idemKey] && store.byIdem == old(store.byIdem)
        && View() == (if up then L.Resubmit(old(View()), now, stored) else old(View()))
      ensures n.idemKey !in old(store.byIdem) ==>
        && stored == id && View() == L.Create(old(View()), now, id, n, up)
        && (n.idemKey != NO_ID ==> n.idemKey in store.byIdem && store.byIdem[n.idemKey] == id)
      ensures ok <==> up || !L.DueAgain(store.jobs[stored], now)
    {
      var job := Job(Scheduled, 0, n.maxAttempts, NO_ID, NO_ID, n.idemKey, n.recurring, n.timeout, n.retry,
                     Some(n.scheduledAt), None, None, None, None);
      var record: Job;
      stored, record := store.CreateJob(id, NO_ID, job);
      ok := true;
      if record.scheduledAt.Some? && record.scheduledAt.value <= now {
        ok := EnqueueJob(now, stored, record, up);
      }
    }

    method EnqueueJob(now: Time, id: Id, job: Job, up: bool) returns (ok: bool)
      requires store.Valid() && id in store.jobs && job == store.jobs[id]
      modifies store`jobs, queue
      ensures store.Valid() && ok == up
      ensures View() == if up then L.ApiEnqueue(old(View()), now, id) else old(View())
    {
      ok := queue.Enqueue(Msg(id, job.attempt), up);
      if !ok {
        return;
      }
      var _ := store.UpdateJobState(id, Queued, NO_FIELDS.(queuedAt := Some(now)));
    }

    /** Cancels a job at once, or asks for its cancellation if it is out on a worker. The terminal test
        leaves out FAILED and TIMEOUT. */
    method CancelJob(now: Time, id: Id) returns (reply: CancelReply)
      requires store.Valid()
      modifies store`jobs
      ensures store.Valid()
      ensures View() == L.Cancel(old(View()), now, id)
      ensures reply.NotFound? <==> id !in old(store.jobs)
      ensures reply.AlreadyTerminal? ==> store.jobs == old(store.jobs)
      ensures reply.CancelPending? ==>
        store.jobs[id].state.CancelRequested? && old(store.jobs)[id].workerId == store.jobs[id].workerId
      ensures reply.CancelDone? ==> store.jobs[id].state.Cancelled? && store.jobs[id].completedAt == Some(now)
    {
      var got := store.GetJob(id);
      if got.None? {
        return NotFound;
      }
      var job := got.value;
      if job.state in {Completed, Cancelled, Expired} {
        return AlreadyTerminal;
      }
      if job.state.Running? || job.state.Assigned? {
        var _ := store.UpdateJobState(id, CancelRequested, NO_FIELDS);
        return CancelPending;
      }
      var _ := store.UpdateJobState(id, Cancelled, NO_FIELDS.(completedAt := Some(now)));
      return CancelDone;
    }
  }
}
