/** The in-process job store: maps and a slice that its methods change in place. */
module MemoryStore {
  import opened Domain
  import I = Idempotency
  import Outbox
  import S = StaleWorkers

  /** The `fields` argument of `UpdateJobState`: absent keys leave the field alone. */
  datatype Patch = Patch(
    workerId: Option<Id>,
    execId: Option<Id>,
    attempt: Option<int>,
    queuedAt: Option<Time>,
    startedAt: Option<Time>,
    completedAt: Option<Time>,
    nextRetryAt: Option<Time>,
    scheduledAt: Option<Time>)

  const NO_FIELDS := Patch(None, None, None, None, None, None, None, None)

  /** The record after an update of state and fields. */
  function Patched(j: Job, st: JobState, p: Patch): Job {
    j.(state := st,
       workerId := if p.workerId.Some? then p.workerId.value else j.workerId,
       execId := if p.execId.Some? then p.execId.value else j.execId,
       attempt := if p.attempt.Some? then p.attempt.value else j.attempt,
       queuedAt := if p.queuedAt.Some? then p.queuedAt else j.queuedAt,
       startedAt := if p.startedAt.Some? then p.startedAt else j.startedAt,
       completedAt := if p.completedAt.Some? then p.completedAt else j.completedAt,
       nextRetryAt := if p.nextRetryAt.Some? then p.nextRetryAt else j.nextRetryAt,
       scheduledAt := if p.scheduledAt.Some? then p.scheduledAt else j.scheduledAt)
  }

  /** A job as a listing returns it: its id and a copy of its record. */
  type Entry = (Id, Job)

  /** `out` lists selected jobs of the table, none twice. */
  ghost predicate Lists(jobs: map<Id, Job>, out: seq<Entry>, select: Job -> bool) {
    && (forall i :: 0 <= i < |out| ==> out[i].0 in jobs && jobs[out[i].0] == out[i].1 && select(out[i].1))
    && (forall i, k :: 0 <= i < k < |out| ==> out[i].0 != out[k].0)
  }

  /** Every selected job with an id in `ids` is listed. */
  ghost predicate ListsAll(jobs: map<Id, Job>, ids: set<Id>, out: seq<Entry>, select: Job -> bool) {
    forall id :: id in ids && id in jobs && select(jobs[id]) ==> (id, jobs[id]) in out
  }

  /** The ids of the selected jobs. */
  function Selected(jobs: map<Id, Job>, select: Job -> bool): set<Id> {
    set id | id in jobs && select(jobs[id])
  }

  /** A listing as long as the number of selected jobs holds them all. */
  lemma LongListing(jobs: map<Id, Job>, out: seq<Entry>, select: Job -> bool)
    requires Lists(jobs, out, select) && |out| >= |Selected(jobs, select)|
    ensures ListsAll(jobs, jobs.Keys, out, select)
  {
    var ids := ListedIds(out);
    assert ids <= Selected(jobs, select);
    forall id | id in jobs && select(jobs[id]) ensures (id, jobs[id]) in out {
      if id !in ids {
        Smaller(ids, Selected(jobs, select) - {id});
        assert false;
      }
      var i :| 0 <= i < |out| && out[i].0 == id;
      assert out[i] == (id, jobs[id]);
    }
  }

  /** A listing is no longer than the number of selected jobs. */
  lemma ShortListing(jobs: map<Id, Job>, out: seq<Entry>, select: Job -> bool)
    requires Lists(jobs, out, select)
    ensures |out| <= |Selected(jobs, select)|
  {
    assert ListedIds(out) <= Selected(jobs, select);
    Smaller(ListedIds(out), Selected(jobs, select));
  }

  lemma Smaller(a: set<Id>, b: set<Id>)
    requires a <= b
    ensures |a| <= |b|
  {
    assert b == a + (b - a);
  }

  /** Listed ids are distinct, so there are as many as entries. */
  function ListedIds(out: seq<Entry>): (ids: set<Id>)
    ensures forall id :: id in ids <==> exists i :: 0 <= i < |out| && out[i].0 == id
    ensures (forall i, k :: 0 <= i < k < |out| ==> out[i].0 != out[k].0) ==> |ids| == |out|
  {
    if out == [] then {} else
    var last := out[|out| - 1];
    ListedIds(out[..|out| - 1]) + {last.0}
  }

  predicate NoRepeats(ids: seq<Id>) {
    forall i, k :: 0 <= i < k < |ids| ==> ids[i] != ids[k]
  }

  /** Of the ids to report, those no longer to be visited have been, each once. */
  ghost predicate Reports(ids: seq<Id>, found: set<Id>, todo: set<Id>) {
    NoRepeats(ids) && forall v :: v in ids <==> v in found && v !in todo
  }

  lemma ReportsOne(ids: seq<Id>, found: set<Id>, todo: set<Id>, id: Id)
    requires Reports(ids, found, todo) && id in todo
    ensures id in found ==> Reports(ids + [id], found, todo - {id})
    ensures id !in found ==> Reports(ids, found, todo - {id})
  {
    assert id !in ids;
    assert forall i :: 0 <= i < |ids| ==> ids[i] in ids;
  }

  class Store {
    var jobs: map<Id, Job>
    var byIdem: map<Id, Id>
    var executions: map<Id, Execution>
    var workers: map<Id, Worker>
    var outbox: seq<OutboxRow>

    ghost predicate Valid()
      reads this
    {
      I.IndexOk(I.Table(jobs, byIdem))
    }

    constructor ()
      ensures Valid()
      ensures jobs == map[] && byIdem == map[] && executions == map[] && workers == map[] && outbox == []
    {
      jobs, byIdem, executions, workers, outbox := map[], map[], map[], map[], [];
    }

    // ----- jobs

    /** Stores a new job, or finds the one with the same key. `draw` is the id drawn when none is given. */
    method CreateJob(id: Id, draw: Id, job: Job) returns (stored: Id, record: Job)
      requires Valid()
      requires (if id == NO_ID then draw else id) !in jobs
      modifies this
      ensures Valid()
      ensures I.Table(jobs, byIdem) == I.Created(old(I.Table(jobs, byIdem)), if id == NO_ID then draw else id, job)
      ensures stored == I.CreatedId(old(I.Table(jobs, byIdem)), if id == NO_ID then draw else id, job)
      ensures stored in jobs && record == jobs[stored]
      ensures executions == old(executions) && workers == old(workers) && outbox == old(outbox)
    {
      ghost var t := I.Table(jobs, byIdem);
      stored := id;
      if stored == NO_ID {
        stored := draw;
      }
      I.CreatedKeeps(t, stored, job);
      if job.idemKey != NO_ID {
        if job.idemKey in byIdem {
          stored := byIdem[job.idemKey];
          record := jobs[stored];
          return;
        }
        byIdem := byIdem[job.idemKey := stored];
      }
      jobs := jobs[stored := job];
      record := job;
    }

    method GetJob(id: Id) returns (job: Option<Job>)
      ensures job.Some? <==> id in jobs
      ensures job.Some? ==> job.value == jobs[id]
    {
      if id in jobs { job := Some(jobs[id]); } else { job := None; }
    }

    method GetJobByIdempotencyKey(key: Id) returns (found: Option<Entry>)
      requires Valid()
      ensures found.Some? ==> I.Scan(I.Table(jobs, byIdem), key, found.value.0) && found.value.1 == jobs[found.value.0]
      ensures found.None? ==> forall id :: !I.Scan(I.Table(jobs, byIdem), key, id)
    {
      if key in byIdem { found := Some((byIdem[key], jobs[byIdem[key]])); } else { found := None; }
    }

    /** Changes the state and the given fields of a job, unless `onlyFrom` is non-empty and does not
        hold the state the job is in. */
    method UpdateJobStateIf(id: Id, st: JobState, fields: Patch, onlyFrom: seq<JobState>) returns (found: bool)
      requires Valid()
      modifies this`jobs
      ensures Valid()
      ensures found <==> id in old(jobs)
      ensures jobs ==
        if id in old(jobs) && (onlyFrom == [] || old(jobs)[id].state in onlyFrom)
        then old(jobs)[id := Patched(old(jobs)[id], st, fields)] else old(jobs)
    {
      if id !in jobs {
        return false;
      }
      var j := jobs[id];
      if |onlyFrom| > 0 {
        var allowed := false;
        for i := 0 to |onlyFrom|
          invariant allowed <==> j.state in onlyFrom[..i]
        {
          if j.state == onlyFrom[i] {
            allowed := true;
            break;
          }
        }
        if !allowed {
          return true;
        }
      }
      jobs := jobs[id := Patched(j, st, fields)];
      return true;
    }

    method UpdateJobState(id: Id, st: JobState, fields: Patch) returns (found: bool)
      requires Valid()
      modifies this`jobs
      ensures Valid()
      ensures found <==> id in old(jobs)
      ensures jobs == if id in old(jobs) then old(jobs)[id := Patched(old(jobs)[id], st, fields)] else old(jobs)
    {
      found := UpdateJobStateIf(id, st, fields, []);
    }

    /** The loop shared by the listings that stop at the limit: map order, up to `limit` matches. */
    method Collect(select: Job -> bool, limit: int) returns (out: seq<Entry>)
      ensures Lists(jobs, out, select)
      ensures |out| <= if limit <= 0 then 50 else limit
      ensures |Selected(jobs, select)| <= (if limit <= 0 then 50 else limit) ==> ListsAll(jobs, jobs.Keys, out, select)
    {
      var most := if limit <= 0 then 50 else limit;
      out := [];
      var todo := jobs.Keys;
      while todo != {}
        invariant todo <= jobs.Keys && |out| < most
        invariant Lists(jobs, out, select) && ListsAll(jobs, jobs.Keys - todo, out, select)
        invariant forall i :: 0 <= i < |out| ==> out[i].0 !in todo
        decreases todo
      {
        var id :| id in todo;
        todo := todo - {id};
        if select(jobs[id]) {
          ghost var before := out;
          out := out + [(id, jobs[id])];
          assert forall e :: e in before ==> e in out;
          assert out[|out| - 1] == (id, jobs[id]);
          if |out| >= most {
            if |Selected(jobs, select)| <= most { LongListing(jobs, out, select); }
            break;
          }
        }
      }
    }

    method ListJobs(st: JobState, limit: int) returns (out: seq<Entry>)
      ensures Lists(jobs, out, (j: Job) => j.state == st)
      ensures |Selected(jobs, (j: Job) => j.state == st)| <= (if limit <= 0 then 50 else limit) ==>
        ListsAll(jobs, jobs.Keys, out, (j: Job) => j.state == st)
    {
      out := Collect((j: Job) => j.state == st, limit);
    }

    method ListTimedOutRunning(now: Time, limit: int) returns (out: seq<Entry>)
      ensures Lists(jobs, out, (j: Job) => Overdue(j, now))
      ensures |Selected(jobs, (j: Job) => Overdue(j, now))| <= (if limit <= 0 then 50 else limit) ==>
        ListsAll(jobs, jobs.Keys, out, (j: Job) => Overdue(j, now))
    {
      out := Collect((j: Job) => Overdue(j, now), limit);
    }

    /** Jobs ready for the queue. Unlike the other listings this one tests the limit after every job it
        visits, so a limit of zero or less still visits one. */
    method ListDueScheduled(now: Time, limit: int) returns (out: seq<Entry>)
      ensures Lists(jobs, out, (j: Job) => Due(j, now))
      ensures |out| <= if limit <= 0 then 1 else limit
      ensures |out| < limit ==> ListsAll(jobs, jobs.Keys, out, (j: Job) => Due(j, now))
    {
      ghost var select := (j: Job) => Due(j, now);
      out := [];
      var todo := jobs.Keys;
      while todo != {}
        invariant todo <= jobs.Keys && (out == [] || |out| < limit)
        invariant Lists(jobs, out, select) && ListsAll(jobs, jobs.Keys - todo, out, select)
        invariant forall i :: 0 <= i < |out| ==> out[i].0 !in todo
        decreases todo
      {
        var id :| id in todo;
        todo := todo - {id};
        if Due(jobs[id], now) {
          ghost var before := out;
          out := out + [(id, jobs[id])];
          assert forall e :: e in before ==> e in out;
          assert out[|out| - 1] == (id, jobs[id]);
        }
        if |out| >= limit {
          break;
        }
      }
    }

    // ----- executions

    method CreateExecution(id: Id, ex: Execution)
      modifies this`executions
      ensures executions == old(executions)[id := ex]
    {
      executions := executions[id := ex];
    }

    method FinishExecution(id: Id, st: ExecState) returns (found: bool)
      modifies this`executions
      ensures found <==> id in old(executions)
      ensures executions ==
        if id in old(executions) then old(executions)[id := old(executions)[id].(state := st)] else old(executions)
    {
      found := id in executions;
      if found {
        executions := executions[id := executions[id].(state := st)];
      }
    }

    // ----- workers

    method UpsertWorker(id: Id, w: Worker)
      modifies this`workers
      ensures workers == old(workers)[id := w]
    {
      workers := workers[id := w];
    }

    /** One pass over the workers, changing statuses in place. Leaves the same statuses and reports
        the same ids, each once, as the two updates of the Postgres store at the same instant. */
    method MarkStaleWorkers(now: Time, timeout: Time, grace: Time) returns (suspected: seq<Id>, unavailable: seq<Id>)
      modifies this`workers
      ensures S.Marked(workers, set v | v in suspected, set v | v in unavailable)
           == S.TwoUpdates(old(workers), now, timeout, grace)
      ensures NoRepeats(suspected) && NoRepeats(unavailable)
    {
      ghost var m := S.TwoUpdates(workers, now, timeout, grace);
      suspected, unavailable := [], [];
      var todo := workers.Keys;
      while todo != {}
        invariant workers.Keys == old(workers).Keys == m.workers.Keys && todo <= workers.Keys
        invariant forall v :: v in workers ==> workers[v] == if v in todo then old(workers)[v] else m.workers[v]
        invariant Reports(suspected, m.suspected, todo) && Reports(unavailable, m.unavailable, todo)
        decreases todo
      {
        var id :| id in todo;
        ReportsOne(suspected, m.suspected, todo, id);
        ReportsOne(unavailable, m.unavailable, todo, id);
        todo := todo - {id};
        var w := workers[id];
        if w.lastHeartbeat < now - (timeout + grace) && (w.status.Healthy? || w.status.Suspected?) {
          workers := workers[id := w.(status := Unavailable)];
          unavailable := unavailable + [id];
        } else if w.lastHeartbeat < now - timeout && w.status.Healthy? {
          workers := workers[id := w.(status := Suspected)];
          suspected := suspected + [id];
        }
      }
    }

    // ----- outbox

    method InsertOutbox(row: OutboxRow)
      modifies this`outbox
      ensures outbox == old(outbox) + [row]
    {
      outbox := outbox + [row];
    }

    method FetchOutboxBatch(limit: nat) returns (rows: seq<OutboxRow>)
      ensures rows == outbox[..if limit > |outbox| then |outbox| else limit]
    {
      rows := outbox[..if limit > |outbox| then |outbox| else limit];
    }

    /** Drops the marked rows, keeping the rest in order. */
    method MarkOutboxPublished(ids: seq<Id>)
      modifies this`outbox
      ensures outbox == Outbox.Unmarked(old(outbox), ids)
    {
      var marked: set<Id> := {};
      for i := 0 to |ids|
        invariant forall id :: id in marked <==> id in ids[..i]
      {
        marked := marked + {ids[i]};
      }
      assert ids[..|ids|] == ids;
      var backing := new OutboxRow[|outbox|](i requires 0 <= i < |outbox| reads this => outbox[i]);
      assert backing[..] == outbox;
      var n := Compact(backing, marked, ids);
      outbox := backing[..n];
    }
  }

  /** The compaction of a slice over its own backing array: kept rows move down while later ones are read
      from the same array. */
  method Compact(a: array<OutboxRow>, marked: set<Id>, ghost ids: seq<Id>) returns (n: nat)
    requires forall id :: id in marked <==> id in ids
    modifies a
    ensures n <= a.Length && a[..n] == Outbox.Unmarked(old(a[..]), ids)
  {
    ghost var rows := a[..];
    n := 0;
    for i := 0 to a.Length
      invariant n <= i && a[..n] == Outbox.Unmarked(rows[..i], ids) && a[i..] == rows[i..]
    {
      var r := a[i];
      assert r == a[i..][0] == rows[i..][0] == rows[i];
      assert rows[..i + 1][..i] == rows[..i];
      ghost var rest := a[i + 1..];
      assert rest == rows[i + 1..] by { assert rest == a[i..][1..] && rows[i + 1..] == rows[i..][1..]; }
      if r.id !in marked {
        ghost var done := a[..n];
        a[n] := r;
        n := n + 1;
        assert a[..n] == done + [r];
        assert a[i + 1..] == rest;
      }
    }
    assert rows[..a.Length] == rows;
  }
}
