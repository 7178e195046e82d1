/** Stale workers: the two SQL updates of the Postgres store, as updates on a map. The loop of the
    in-memory store is proved to do the same in MemoryStore.dfy. */
module StaleWorkers {
  import opened Domain

  datatype Marked = Marked(workers: map<Id, Worker>, suspected: set<Id>, unavailable: set<Id>)

  predicate Dead(w: Worker, deadBefore: Time) {
    (w.status.Healthy? || w.status.Suspected?) && w.lastHeartbeat < deadBefore
  }

  predicate Late(w: Worker, suspectBefore: Time, deadBefore: Time) {
    w.status.Healthy? && deadBefore <= w.lastHeartbeat < suspectBefore
  }

  /** UPDATE ... SET status = st WHERE id is in `ids`. */
  function WithStatus(workers: map<Id, Worker>, ids: set<Id>, st: WorkerStatus): map<Id, Worker> {
    map v | v in workers :: if v in ids then workers[v].(status := st) else workers[v]
  }

  /** First UNAVAILABLE for the dead ones, then, on the result, SUSPECTED for the late ones. */
  function TwoUpdates(workers: map<Id, Worker>, now: Time, timeout: Time, grace: Time): Marked {
    var deadBefore, suspectBefore := now - (timeout + grace), now - timeout;
    var dead := set v | v in workers && Dead(workers[v], deadBefore);
    var first := WithStatus(workers, dead, Unavailable);
    var late := set v | v in first && Late(first[v], suspectBefore, deadBefore);
    Marked(WithStatus(first, late, Suspected), late, dead)
  }

  // ----- over runs

  datatype Op = Mark(now: Time, timeout: Time, grace: Time) | Upsert(id: Id, worker: Worker)

  function Apply(workers: map<Id, Worker>, op: Op): map<Id, Worker> {
    match op
    case Mark(now, timeout, grace) => TwoUpdates(workers, now, timeout, grace).workers
    case Upsert(id, w) => workers[id := w]
  }

  function Run(workers: map<Id, Worker>, ops: seq<Op>): map<Id, Worker>
    decreases ops
  {
    if ops == [] then workers else Run(Apply(workers, ops[0]), ops[1..])
  }

  /** How often the worker is reported unavailable, which is how often its jobs are recovered. */
  function Losses(workers: map<Id, Worker>, ops: seq<Op>, v: Id): nat
    decreases ops
  {
    if ops == [] then 0 else
    (if ops[0].Mark? && v in TwoUpdates(workers, ops[0].now, ops[0].timeout, ops[0].grace).unavailable then 1 else 0)
    + Losses(Apply(workers, ops[0]), ops[1..], v)
  }

  function Upserts(ops: seq<Op>, v: Id): nat {
    if ops == [] then 0 else (if ops[0].Upsert? && ops[0].id == v then 1 else 0) + Upserts(ops[1..], v)
  }

  function Rank(st: WorkerStatus): nat {
    match st case Healthy => 0 case Suspected => 1 case Unavailable => 2 case Draining => 3
  }

  function Losable(workers: map<Id, Worker>, v: Id): nat {
    if v in workers && (workers[v].status.Healthy? || workers[v].status.Suspected?) then 1 else 0
  }

  /** Over every run a worker is reported unavailable at most once per upsert, counting the one that
      put it there. */
  lemma {:induction false} OneLossPerUpsert(workers: map<Id, Worker>, ops: seq<Op>, v: Id)
    ensures Losses(workers, ops, v) + Losable(Run(workers, ops), v) <= Losable(workers, v) + Upserts(ops, v)
    decreases ops
  {
    if ops != [] {
      OneLossPerUpsert(Apply(workers, ops[0]), ops[1..], v);
    }
  }

  /** Without an upsert a worker's status only gets worse, and DRAINING stays. */
  lemma {:induction false} StatusOnlyWorsens(workers: map<Id, Worker>, ops: seq<Op>, v: Id)
    requires v in workers && Upserts(ops, v) == 0
    ensures v in Run(workers, ops) && Rank(workers[v].status) <= Rank(Run(workers, ops)[v].status)
    ensures workers[v].status.Draining? <==> Run(workers, ops)[v].status.Draining?
    decreases ops
  {
    if ops != [] {
      StatusOnlyWorsens(Apply(workers, ops[0]), ops[1..], v);
    }
  }

  /** The health check finds the heartbeat `h` missing for longer than timeout and grace. */
  predicate FindsDead(op: Op, h: Time) {
    op.Mark? && h + op.timeout + op.grace < op.now
  }

  /** The health check finds it missing for longer than the timeout. */
  predicate FindsLate(op: Op, h: Time) {
    op.Mark? && h + op.timeout < op.now
  }

  ghost predicate EverDead(ops: seq<Op>, h: Time) {
    exists i :: 0 <= i < |ops| && FindsDead(ops[i], h)
  }

  ghost predicate EverLate(ops: seq<Op>, h: Time) {
    exists i :: 0 <= i < |ops| && FindsLate(ops[i], h)
  }

  lemma EverFirst(ops: seq<Op>, h: Time)
    requires ops != []
    ensures EverDead(ops, h) <==> FindsDead(ops[0], h) || EverDead(ops[1..], h)
    ensures EverLate(ops, h) <==> FindsLate(ops[0], h) || EverLate(ops[1..], h)
  {
    assert forall i :: 0 < i < |ops| ==> ops[i] == ops[1..][i - 1];
  }

  /** Until its next upsert a healthy worker is UNAVAILABLE if and only if some health check has found its
      heartbeat missing for longer than timeout and grace, and is then reported once; else SUSPECTED if
      and only if one has found it missing for longer than the timeout; else still healthy. */
  lemma StatusIsSilence(workers: map<Id, Worker>, ops: seq<Op>, v: Id)
    requires v in workers && workers[v].status.Healthy? && Upserts(ops, v) == 0
    ensures v in Run(workers, ops)
    ensures var h := workers[v].lastHeartbeat;
      && Run(workers, ops)[v] == workers[v].(status :=
           if EverDead(ops, h) then Unavailable else if EverLate(ops, h) then Suspected else Healthy)
      && Losses(workers, ops, v) == if EverDead(ops, h) then 1 else 0
  {
    SilenceFrom(workers, ops, v);
  }

  lemma {:induction false} SilenceFrom(workers: map<Id, Worker>, ops: seq<Op>, v: Id)
    requires v in workers && !workers[v].status.Draining? && Upserts(ops, v) == 0
    ensures v in Run(workers, ops)
    ensures var h, st := workers[v].lastHeartbeat, workers[v].status;
      && Run(workers, ops)[v] == workers[v].(status :=
           if st.Unavailable? || EverDead(ops, h) then Unavailable
           else if st.Suspected? || EverLate(ops, h) then Suspected else Healthy)
      && Losses(workers, ops, v) == if !st.Unavailable? && EverDead(ops, h) then 1 else 0
    decreases ops
  {
    if ops != [] {
      EverFirst(ops, workers[v].lastHeartbeat);
      SilenceFrom(Apply(workers, ops[0]), ops[1..], v);
    }
  }
}
