/** The idempotency index of the store: `byIdem` agrees with a scan of the jobs, over every run of
    creates and updates. */
module Idempotency {
  import opened Domain

  /** The job table and its index by idempotency key. */
  datatype Table = Table(jobs: map<Id, Job>, byIdem: map<Id, Id>)

  /** Each indexed key leads to a job that has it, and each job with a key is the one indexed. */
  ghost predicate IndexOk(t: Table) {
    && (forall k {:trigger t.byIdem[k]} :: k in t.byIdem ==>
          k != NO_ID && t.byIdem[k] in t.jobs && t.jobs[t.byIdem[k]].idemKey == k)
    && (forall id {:trigger t.jobs[id]} :: id in t.jobs && t.jobs[id].idemKey != NO_ID ==>
          t.jobs[id].idemKey in t.byIdem && t.byIdem[t.jobs[id].idemKey] == id)
  }

  /** What a scan for the key finds. */
  ghost predicate Scan(t: Table, key: Id, id: Id) {
    key != NO_ID && id in t.jobs && t.jobs[id].idemKey == key
  }

  /** Under the invariant, looking a key up in the index and scanning for it are the same. */
  lemma LookupIsScan(t: Table, key: Id, id: Id)
    requires IndexOk(t)
    ensures key in t.byIdem && t.byIdem[key] == id <==> Scan(t, key, id)
  {
  }

  /** `CreateJob`: the id of the stored job, which is an existing one if the key is known. */
  function CreatedId(t: Table, id: Id, j: Job): Id {
    if j.idemKey != NO_ID && j.idemKey in t.byIdem then t.byIdem[j.idemKey] else id
  }

  function Created(t: Table, id: Id, j: Job): Table {
    if j.idemKey != NO_ID && j.idemKey in t.byIdem then t
    else Table(t.jobs[id := j], if j.idemKey != NO_ID then t.byIdem[j.idemKey := id] else t.byIdem)
  }

  lemma CreatedKeeps(t: Table, id: Id, j: Job)
    requires IndexOk(t) && id !in t.jobs
    ensures IndexOk(Created(t, id, j))
    ensures j.idemKey != NO_ID ==> Scan(Created(t, id, j), j.idemKey, CreatedId(t, id, j))
  {
  }

  /** An update writes a job that is there and leaves its key alone. */
  datatype Op = Create(id: Id, job: Job) | Update(id: Id, job: Job)

  predicate Allowed(t: Table, op: Op) {
    match op
    case Create(id, j) => id !in t.jobs
    case Update(id, j) => id in t.jobs ==> j.idemKey == t.jobs[id].idemKey
  }

  function Apply(t: Table, op: Op): Table {
    match op
    case Create(id, j) => Created(t, id, j)
    case Update(id, j) => if id in t.jobs then t.(jobs := t.jobs[id := j]) else t
  }

  function Run(t: Table, ops: seq<Op>): Table
    decreases ops
  {
    if ops == [] then t else Run(Apply(t, ops[0]), ops[1..])
  }

  ghost predicate Legal(t: Table, ops: seq<Op>)
    decreases ops
  {
    ops != [] ==> Allowed(t, ops[0]) && Legal(Apply(t, ops[0]), ops[1..])
  }

  /** The invariant holds throughout, and a key once indexed leads to the same job for good. */
  lemma {:induction false} RunKeeps(t: Table, ops: seq<Op>)
    requires IndexOk(t) && Legal(t, ops)
    ensures IndexOk(Run(t, ops))
    ensures forall k :: k in t.byIdem ==> k in Run(t, ops).byIdem && Run(t, ops).byIdem[k] == t.byIdem[k]
    decreases ops
  {
    if ops != [] {
      if ops[0].Create? { CreatedKeeps(t, ops[0].id, ops[0].job); }
      RunKeeps(Apply(t, ops[0]), ops[1..]);
    }
  }

  /** However many operations lie between them, two creates with one key return one id, and it is the
      id of the only job with that key. */
  lemma OneIdPerKey(before: seq<Op>, first: Op, between: seq<Op>, second: Op)
    requires first.Create? && second.Create? && first.job.idemKey == second.job.idemKey != NO_ID
    requires
      var t := Run(Table(map[], map[]), before);
      && Legal(Table(map[], map[]), before)
      && Allowed(t, first) && Legal(Apply(t, first), between)
    ensures
      var t := Run(Table(map[], map[]), before);
      var u := Run(Apply(t, first), between);
      && CreatedId(u, second.id, second.job) == CreatedId(t, first.id, first.job)
      && Apply(u, second) == u
      && forall id :: Scan(u, second.job.idemKey, id) <==> id == CreatedId(t, first.id, first.job)
  {
    var t := Run(Table(map[], map[]), before);
    RunKeeps(Table(map[], map[]), before);
    CreatedKeeps(t, first.id, first.job);
    RunKeeps(Apply(t, first), between);
    var u := Run(Apply(t, first), between);
    forall id { LookupIsScan(u, second.job.idemKey, id); }
    LookupIsScan(Apply(t, first), first.job.idemKey, CreatedId(t, first.id, first.job));
  }
}
