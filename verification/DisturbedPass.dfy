/**
 A health pass that everybody else disturbs: its exact outcome in every interleaving. Workers and callers do not
 matter, failed creations and asynchronous removals are counted, and nothing else can make a difference.
 */
module DisturbedPasses {
  import opened Types
  import opened Bags
  import opened Machine
  import opened Invariants
  import opened CallerSteps
  import opened RunProofs
  import WorkerSteps
  import MonitorSteps

  /** The monitor has not yet decided what to keep. */
  predicate Undecided(m: Monitor) {
    m.Listing? || m.Checking? || m.Rereading? || m.Sweeping?
  }

  /** Ids the pass is about to remove itself. */
  function Condemned(m: Monitor): set<ContainerId> {
    if m.Removing? || m.Deleting? then m.stale else {}
  }

  /**
   A step after the decision that leaves one container fewer: a failed creation, or the removal of one the pass
   keeps or has started.
   */
  predicate Costs(s: State, l: Label) {
    || (l == ByMonitor(CreateFails))
    || (l.ByRemoval? && l.removal.MapDelete? && !Undecided(s.monitor)
        && l.id in s.pool.containers && l.id !in Condemned(s.monitor))
  }

  function Price(s: State, l: Label): nat {
    if Costs(s, l) then 1 else 0
  }

  /** What a run costs the pass under way. */
  ghost function Cost(c: Config, s: State, ls: seq<Label>): nat
    requires Runs(c, s, ls)
    decreases |ls|
  {
    if ls == [] then 0 else Price(s, ls[0]) + Cost(c, Apply(c, s, ls[0]), ls[1..])
  }

  /** Steps of everybody within one pass of the monitor, without Shutdown and with a successful listing. */
  ghost predicate Pass(c: Config, s: State, ls: seq<Label>)
    ensures Pass(c, s, ls) ==> Runs(c, s, ls)
    decreases |ls|
  {
    ls == [] || (
      && !s.monitor.Resting? && !ls[0].ByCloser? && ls[0] != ByMonitor(ListFails)
      && Enabled(c, s, ls[0]) && Pass(c, Apply(c, s, ls[0]), ls[1..]))
  }

  /** The books of a pass that has cost `cost` so far: every place is filled, still to be filled, or paid for. */
  ghost predicate Balanced(c: Config, m: Monitor, ids: set<ContainerId>, cost: int) {
    match m
    case Resting => |ids| + cost == c.maxWorkers
    case Removing(_, _, stale, count) => |ids - stale| + cost == count <= c.maxWorkers
    case Deleting(_, _, stale, count, id) => |ids - stale| + cost == count <= c.maxWorkers && id in stale
    case Starting(left) => left >= 0 && |ids| + left + cost == c.maxWorkers
    case Guarding(left) => left > 0 && |ids| + left + cost == c.maxWorkers
    case Creating(left) => left > 0 && |ids| + left + cost == c.maxWorkers
    case Registering(left, id) => left > 0 && |ids| + left + cost == c.maxWorkers && id !in ids
    case Inserting(left, id) => left > 0 && |ids| + left + cost == c.maxWorkers && id !in ids
    case Excess(_) => false
    case Trimming(_) => false
    case _ => cost == 0
  }

  /** Removing an id costs a place unless the pass would have removed it anyway. */
  lemma RemovalBalances(c: Config, m: Monitor, ids: set<ContainerId>, id: ContainerId, cost: int)
    requires Balanced(c, m, ids, cost)
    ensures Balanced(c, m, ids - {id}, cost + if !Undecided(m) && id in ids && id !in Condemned(m) then 1 else 0)
  {
    if id in ids {
      var stale := Condemned(m);
      if id in stale {
        assert (ids - {id}) - stale == ids - stale;
      } else {
        assert (ids - {id}) - stale == (ids - stale) - {id};
      }
    } else {
      assert ids - {id} == ids;
    }
  }

  lemma SweepBalances(ids: set<ContainerId>, running: set<ContainerId>)
    ensures |ids - (ids - running)| == |ids| - |ids - running| == |ids * running|
  {
    assert ids - (ids - running) == ids * running;
    assert ids == (ids - running) + (ids * running);
  }

  /** The books of the pass under way in state `s`. */
  ghost predicate Books(c: Config, s: State, cost: int) {
    Balanced(c, s.monitor, s.pool.containers.Keys, cost)
  }

  /** Up to the decision nothing has been spent. */
  lemma LookBalances(c: Config, s: State, a: MonitorAct, cost: int)
    requires Undecided(s.monitor) && Books(c, s, cost) && MonitorEnabled(s, a) && !a.ListFails? && !a.Sweep?
    ensures Books(c, MonitorApply(c, s, a), cost)
  {
  }

  lemma DecisionBalances(c: Config, s: State, cost: int)
    requires PoolInv(c, s) && MonitorEnabled(s, Sweep) && Books(c, s, cost)
    ensures Books(c, MonitorApply(c, s, Sweep), cost)
  {
    var ids := s.pool.containers.Keys;
    SweepBalances(ids, s.monitor.running);
    SubsetSize(ids * s.monitor.running, ids);
  }

  lemma DeleteBalanced(c: Config, m: Monitor, ids: set<ContainerId>, cost: int)
    requires m.Deleting? && Balanced(c, m, ids, cost)
    ensures Balanced(c, Removing(m.listed, m.running, m.stale - {m.id}, m.count), ids - {m.id}, cost)
  {
    assert (ids - {m.id}) - (m.stale - {m.id}) == ids - m.stale;
  }

  lemma DeleteBalances(c: Config, s: State, cost: int)
    requires Books(c, s, cost) && MonitorEnabled(s, Delete)
    ensures Books(c, MonitorApply(c, s, Delete), cost)
  {
    DeleteBalanced(c, s.monitor, s.pool.containers.Keys, cost);
    assert MonitorApply(c, s, Delete).pool.containers.Keys == s.pool.containers.Keys - {s.monitor.id};
  }

  lemma BranchBalances(c: Config, s: State, cost: int)
    requires MonitorInv(c, s) && Books(c, s, cost) && MonitorEnabled(s, Branch)
    ensures Books(c, MonitorApply(c, s, Branch), cost)
  {
    assert s.pool.containers.Keys - s.monitor.stale == s.pool.containers.Keys;
  }

  lemma InsertBalanced(c: Config, left: int, id: ContainerId, ids: set<ContainerId>, cost: int)
    requires Balanced(c, Inserting(left, id), ids, cost)
    ensures Balanced(c, Starting(left - 1), ids + {id}, cost)
  {
  }

  lemma InsertMoves(c: Config, s: State)
    requires MonitorEnabled(s, Insert)
    ensures var s' := MonitorApply(c, s, Insert);
      && s'.monitor == Starting(s.monitor.left - 1)
      && s'.pool.containers.Keys == s.pool.containers.Keys + {s.monitor.id}
  {
  }

  lemma InsertBalances(c: Config, s: State, cost: int)
    requires Books(c, s, cost) && MonitorEnabled(s, Insert)
    ensures Books(c, MonitorApply(c, s, Insert), cost)
  {
    InsertMoves(c, s);
    InsertBalanced(c, s.monitor.left, s.monitor.id, s.pool.containers.Keys, cost);
  }

  /** The guard lets every attempt through, because the free places are exactly those still to be filled or paid for. */
  lemma GuardBalances(c: Config, s: State, cost: int)
    requires Books(c, s, cost) && cost >= 0 && MonitorEnabled(s, Guard)
    ensures Books(c, MonitorApply(c, s, Guard), cost)
  {
  }

  /** Attempts that fail are paid for. */
  lemma FailBalances(c: Config, s: State, cost: int)
    requires Books(c, s, cost) && MonitorEnabled(s, CreateFails)
    ensures Books(c, MonitorApply(c, s, CreateFails), cost + 1)
  {
  }

  lemma CreateBalances(c: Config, s: State, id: ContainerId, cost: int)
    requires Books(c, s, cost) && s.pool.containers.Keys <= s.pool.used && MonitorEnabled(s, Create(id))
    ensures Books(c, MonitorApply(c, s, Create(id)), cost)
  {
  }

  lemma NextBalances(c: Config, s: State, cost: int)
    requires Books(c, s, cost) && MonitorEnabled(s, NextStart)
    ensures Books(c, MonitorApply(c, s, NextStart), cost)
  {
  }

  lemma LockBalances(c: Config, s: State, cost: int)
    requires Books(c, s, cost) && MonitorEnabled(s, LockInsert)
    ensures Books(c, MonitorApply(c, s, LockInsert), cost)
  {
  }

  lemma RemoveBalances(c: Config, s: State, id: ContainerId, cost: int)
    requires Books(c, s, cost) && MonitorEnabled(s, DockerRemove(id))
    ensures Books(c, MonitorApply(c, s, DockerRemove(id)), cost)
  {
  }

  lemma MonitorBalances(c: Config, s: State, a: MonitorAct, cost: int)
    requires PoolInv(c, s) && MonitorInv(c, s) && MonitorEnabled(s, a) && !s.monitor.Resting? && !a.ListFails?
    requires Books(c, s, cost) && cost >= 0
    ensures Books(c, MonitorApply(c, s, a), cost + if a.CreateFails? then 1 else 0)
  {
    match a
    case Sweep => DecisionBalances(c, s, cost);
    case Delete => DeleteBalances(c, s, cost);
    case Branch => BranchBalances(c, s, cost);
    case Insert => InsertBalances(c, s, cost);
    case List(_) => LookBalances(c, s, a, cost);
    case Look => LookBalances(c, s, a, cost);
    case Reread => LookBalances(c, s, a, cost);
    case LockSweep => LookBalances(c, s, a, cost);
    case Guard => GuardBalances(c, s, cost);
    case CreateFails => FailBalances(c, s, cost);
    case Create(id) => CreateBalances(c, s, id, cost);
    case NextStart => NextBalances(c, s, cost);
    case LockInsert => LockBalances(c, s, cost);
    case DockerRemove(id) => RemoveBalances(c, s, id, cost);
    case _ =>
  }

  lemma MonitorPays(c: Config, s: State, a: MonitorAct, cost: int)
    requires PoolInv(c, s) && MonitorInv(c, s) && MonitorEnabled(s, a) && !s.monitor.Resting? && !a.ListFails?
    requires Books(c, s, cost) && cost >= 0
    ensures Books(c, MonitorApply(c, s, a), cost + Price(s, ByMonitor(a)))
  {
    MonitorBalances(c, s, a, cost);
  }

  lemma WorkerBalances(c: Config, s: State, w: nat, a: WorkerAct, cost: int)
    requires WorkerEnabled(s, w, a) && Books(c, s, cost)
    ensures Books(c, WorkerApply(s, w, a), cost + Price(s, ByWorker(w, a)))
  {
    WorkerSteps.WorkerFrame(s, w, a);
    WorkerSteps.WorkerRegisters(s, w, a);
    assert WorkerApply(s, w, a).pool.containers.Keys == s.pool.containers.Keys;
  }

  lemma CallerBalances(c: Config, s: State, k: nat, a: CallerAct, cost: int)
    requires CallerEnabled(c, s, k, a) && Books(c, s, cost)
    ensures Books(c, CallerApply(c, s, k, a), cost + Price(s, ByCaller(k, a)))
  {
    CallerFrame(c, s, k, a);
  }

  lemma OthersBalance(c: Config, s: State, id: ContainerId, a: RemovalAct, cost: int)
    requires Books(c, s, cost) && RemovalEnabled(s, id, a)
    ensures Books(c, RemovalApply(s, id, a), cost + Price(s, ByRemoval(id, a)))
  {
    if a.MapDelete? {
      RemovalBalances(c, s.monitor, s.pool.containers.Keys, id, cost);
      assert RemovalApply(s, id, a).pool.containers.Keys == s.pool.containers.Keys - {id};
    }
  }

  lemma StepBalances(c: Config, s: State, l: Label, cost: int)
    requires PoolInv(c, s) && MonitorInv(c, s) && Enabled(c, s, l)
    requires Books(c, s, cost) && cost >= 0
    requires !s.monitor.Resting? && !l.ByCloser? && l != ByMonitor(ListFails)
    ensures Books(c, Apply(c, s, l), cost + Price(s, l))
  {
    match l
    case ByWorker(w, a) => WorkerBalances(c, s, w, a, cost);
    case ByMonitor(a) => MonitorPays(c, s, a, cost);
    case ByRemoval(id, a) => OthersBalance(c, s, id, a, cost);
    case ByCaller(k, a) => CallerBalances(c, s, k, a, cost);
  }

  lemma ReachableBalances(c: Config, s: State, l: Label, cost: int)
    requires Reachable(c, s) && Enabled(c, s, l)
    requires Books(c, s, cost) && cost >= 0
    requires !s.monitor.Resting? && !l.ByCloser? && l != ByMonitor(ListFails)
    ensures Reachable(c, Apply(c, s, l)) && Books(c, Apply(c, s, l), cost + Price(s, l))
  {
    assert PoolInv(c, s) && MonitorInv(c, s) by {
      ReachableInv(c, s);
    }
    StepBalances(c, s, l, cost);
    NextReachable(c, s, l);
  }

  lemma {:induction false} RunBalances(c: Config, s: State, ls: seq<Label>, cost: int)
    requires Reachable(c, s) && Books(c, s, cost) && cost >= 0 && Pass(c, s, ls)
    ensures Books(c, After(c, s, ls), cost + Cost(c, s, ls))
    decreases |ls|
  {
    if ls != [] {
      ReachableBalances(c, s, ls[0], cost);
      RunBalances(c, Apply(c, s, ls[0]), ls[1..], cost + Price(s, ls[0]));
    }
  }

  /**
   In every interleaving a pass that has got its listing ends with maxWorkers containers, less one for each
   failed creation and one for each kept or new container that was removed asynchronously after the decision.
   */
  lemma DisturbedPassSize(c: Config, s: State, ls: seq<Label>)
    requires Reachable(c, s) && Undecided(s.monitor) && Pass(c, s, ls) && After(c, s, ls).monitor.Resting?
    ensures |After(c, s, ls).pool.containers| == c.maxWorkers - Cost(c, s, ls)
  {
    RunBalances(c, s, ls, 0);
    var m := After(c, s, ls).pool.containers;
    assert |m| == |m.Keys|;
  }

  /** Within a pass the guard of StartContainer never turns an attempt away. */
  lemma GuardNeverRefuses(c: Config, s: State, ls: seq<Label>)
    requires Reachable(c, s) && Undecided(s.monitor) && Pass(c, s, ls) && After(c, s, ls).monitor.Guarding?
    ensures |After(c, s, ls).pool.containers.Keys| < c.maxWorkers
  {
    RunBalances(c, s, ls, 0);
  }
}
