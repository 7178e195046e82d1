/** A worker: its active counter, its cancel functions by job, and the executions in progress. Pushes
    are taken one at a time. */
module WorkerNode {
  import opened Domain

  datatype Work = Work(job: Id, exec: Id)

  /** `cancels` maps a job to the execution whose context its cancel function ends; `running` are the
      goroutines in progress; `accepted`, `reported` and `lost` count executions taken on, reported, and
      ended with a report that did not get through. */
  datatype Node = Node(
    capacity: int,
    active: int,
    cancels: map<Id, Id>,
    running: set<Work>,
    accepted: multiset<Work>,
    reported: multiset<Work>,
    lost: multiset<Work>)

  function Idle(capacity: int): Node {
    Node(capacity, 0, map[], {}, multiset{}, multiset{}, multiset{})
  }

  /** An execution ends with one attempt to report it. */
  datatype Op = Execute(work: Work) | Finish(work: Work, heard: bool)

  predicate Allowed(n: Node, op: Op) {
    match op
    case Execute(w) => w !in n.accepted   // execution ids are fresh
    case Finish(w, heard) => w in n.running
  }

  function Apply(n: Node, op: Op): Node {
    match op
    case Execute(w) =>
      if n.active >= n.capacity then n
      else n.(active := n.active + 1, cancels := n.cancels[w.job := w.exec], running := n.running + {w},
              accepted := n.accepted + multiset{w})
    case Finish(w, heard) =>
      n.(reported := if heard then n.reported + multiset{w} else n.reported,
         lost := if heard then n.lost else n.lost + multiset{w},
         cancels := n.cancels - {w.job}, active := n.active - 1, running := n.running - {w})
  }

  function Run(n: Node, ops: seq<Op>): Node
    decreases ops
  {
    if ops == [] then n else Run(Apply(n, ops[0]), ops[1..])
  }

  ghost predicate Legal(n: Node, ops: seq<Op>)
    decreases ops
  {
    ops != [] ==> Allowed(n, ops[0]) && Legal(Apply(n, ops[0]), ops[1..])
  }

  ghost predicate Inv(n: Node) {
    && n.active == |n.running|
    && (n.active <= n.capacity || n.running == {})
    && n.accepted == n.reported + n.lost + multiset(n.running)
    && (forall w :: w in n.accepted ==> n.accepted[w] == 1)
    && (forall j :: j in n.cancels ==> Work(j, n.cancels[j]) in n.running)
  }

  lemma StepKeeps(n: Node, op: Op)
    requires Inv(n) && Allowed(n, op)
    ensures Inv(Apply(n, op))
  {
    if op.Execute? {
      assert op.work !in n.running;
      assert multiset(n.running + {op.work}) == multiset(n.running) + multiset{op.work};
    } else {
      assert multiset(n.running - {op.work}) == multiset(n.running) - multiset{op.work};
    }
  }

  lemma {:induction false} RunKeeps(n: Node, ops: seq<Op>)
    requires Inv(n) && Legal(n, ops)
    ensures Inv(Run(n, ops)) && Run(n, ops).capacity == n.capacity
    decreases ops
  {
    if ops != [] {
      StepKeeps(n, ops[0]);
      RunKeeps(Apply(n, ops[0]), ops[1..]);
    }
  }

  /** Over every run a worker is never above its capacity, its counter is the number of executions in
      progress, and each execution it accepts is in progress, reported once, or lost with its one
      report. */
  lemma NeverOverCapacity(capacity: int, ops: seq<Op>)
    requires Legal(Idle(capacity), ops)
    ensures var n := Run(Idle(capacity), ops);
      && n.active == |n.running| && |n.running| <= (if capacity < 0 then 0 else capacity)
      && forall w :: w in n.accepted ==> n.reported[w] + n.lost[w] == if w in n.running then 0 else 1
  {
    RunKeeps(Idle(capacity), ops);
    var n := Run(Idle(capacity), ops);
    forall w | w in n.accepted ensures n.reported[w] + n.lost[w] == if w in n.running then 0 else 1 {
      assert n.accepted[w] == n.reported[w] + n.lost[w] + multiset(n.running)[w];
    }
  }

  /** Over every run an execution has been reported if and only if it has finished with a report that got
      through, and is lost if and only if it finished with one that did not. */
  lemma {:induction false} ReportedExactly(n: Node, ops: seq<Op>, w: Work)
    ensures w in Run(n, ops).reported <==> w in n.reported || Finish(w, true) in ops
    ensures w in Run(n, ops).lost <==> w in n.lost || Finish(w, false) in ops
    decreases ops
  {
    if ops != [] {
      ReportedExactly(Apply(n, ops[0]), ops[1..], w);
      assert ops == [ops[0]] + ops[1..];
    }
  }

  // ----- cancellation

  /** A cancel for the job of any execution in progress reaches that execution. */
  ghost predicate Reachable(n: Node) {
    forall w :: w in n.running ==> w.job in n.cancels && n.cancels[w.job] == w.exec
  }

  /** Cancel functions are kept by job, so taking on an execution keeps all of them reachable exactly
      when the worker is full or is not already running the job. */
  lemma ReachableExactly(n: Node, w: Work)
    requires Inv(n) && Reachable(n) && w !in n.accepted
    ensures Reachable(Apply(n, Execute(w))) <==>
      n.active >= n.capacity || forall x :: x in n.running ==> x.job != w.job
  {
    if n.active < n.capacity && exists x :: x in n.running && x.job == w.job {
      var x :| x in n.running && x.job == w.job;
      assert n.accepted == n.reported + n.lost + multiset(n.running);
      assert x in n.accepted;
      assert x in Apply(n, Execute(w)).running;
    }
  }

  /** Finishing an execution never takes another one's cancel function away while all are reachable. */
  lemma FinishKeepsReachable(n: Node, w: Work, heard: bool)
    requires Reachable(n) && w in n.running
    ensures Reachable(Apply(n, Finish(w, heard)))
  {
    forall x | x in n.running && x != w ensures x.job != w.job {
      assert n.cancels[x.job] == x.exec && n.cancels[w.job] == w.exec;
    }
  }

  /** After every step of the run a cancel reaches every execution in progress. */
  ghost predicate AlwaysReachable(n: Node, ops: seq<Op>)
    decreases ops
  {
    ops != [] ==> Reachable(Apply(n, ops[0])) && AlwaysReachable(Apply(n, ops[0]), ops[1..])
  }

  /** The execution is accepted while another of its job is in progress. */
  ghost predicate Overlaps(n: Node, op: Op) {
    op.Execute? && n.active < n.capacity && exists x :: x in n.running && x.job == op.work.job
  }

  ghost predicate NeverOverlaps(n: Node, ops: seq<Op>)
    decreases ops
  {
    ops != [] ==> !Overlaps(n, ops[0]) && NeverOverlaps(Apply(n, ops[0]), ops[1..])
  }

  lemma {:induction false} ReachableRun(n: Node, ops: seq<Op>)
    requires Inv(n) && Reachable(n) && Legal(n, ops)
    ensures AlwaysReachable(n, ops) <==> NeverOverlaps(n, ops)
    decreases ops
  {
    if ops != [] {
      match ops[0] {
        case Execute(w) => ReachableExactly(n, w);
        case Finish(w, heard) => FinishKeepsReachable(n, w, heard);
      }
      StepKeeps(n, ops[0]);
      if Reachable(Apply(n, ops[0])) { ReachableRun(Apply(n, ops[0]), ops[1..]); }
    }
  }

  /** Over every run, every execution in progress stays within reach of a cancel if and only if the worker
      never accepts an execution while another of its job is in progress. */
  lemma ReachableThroughout(capacity: int, ops: seq<Op>)
    requires Legal(Idle(capacity), ops)
    ensures AlwaysReachable(Idle(capacity), ops) <==> NeverOverlaps(Idle(capacity), ops)
  {
    ReachableRun(Idle(capacity), ops);
  }

  class Worker {
    const capacity: int
    var active: int
    var cancels: map<Id, Id>
    ghost var running: set<Work>
    ghost var accepted: multiset<Work>
    ghost var reported: multiset<Work>
    ghost var lost: multiset<Work>

    ghost function View(): Node
      reads this
    {
      Node(capacity, active, cancels, running, accepted, reported, lost)
    }

    constructor (capacity: int)
      ensures View() == Idle(capacity) && Inv(View())
    {
      this.capacity := capacity;
      active, cancels := 0, map[];
      running, accepted, reported, lost := {}, multiset{}, multiset{}, multiset{};
    }

    method ExecuteJob(job: Id, exec: Id) returns (ok: bool)
      requires Inv(View()) && Work(job, exec) !in accepted
      modifies this
      ensures Inv(View()) && View() == Apply(old(View()), Execute(Work(job, exec)))
      ensures ok <==> old(active) < capacity
    {
      StepKeeps(View(), Execute(Work(job, exec)));
      if active >= capacity {
        return false;
      }
      active := active + 1;
      cancels := cancels[job := exec];
      running, accepted := running + {Work(job, exec)}, accepted + multiset{Work(job, exec)};
      return true;
    }

    /** The end of the goroutine: report, then undo what `ExecuteJob` set up. `heard` is whether the dial
        and the call to the scheduler succeed. */
    method FinishJob(job: Id, exec: Id, heard: bool)
      requires Inv(View()) && Work(job, exec) in running
      modifies this
      ensures Inv(View()) && View() == Apply(old(View()), Finish(Work(job, exec), heard))
    {
      StepKeeps(View(), Finish(Work(job, exec), heard));
      if heard {
        reported := reported + multiset{Work(job, exec)};
      } else {
        lost := lost + multiset{Work(job, exec)};
      }
      cancels := cancels - {job};
      active := active - 1;
      running := running - {Work(job, exec)};
    }

    /** Which execution a cancel for the job ends, if any; it is one in progress. */
    method CancelJob(job: Id) returns (ended: Option<Id>)
      requires Inv(View())
      ensures ended.Some? ==> Work(job, ended.value) in running
      ensures Reachable(View()) ==> (ended.None? <==> forall w :: w in running ==> w.job != job)
    {
      if job in cancels { ended := Some(cancels[job]); } else { ended := None; }
    }
  }
}
