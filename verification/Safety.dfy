/** Safety of every run, in plain terms. */
module Safety {
  import opened Types
  import opened Bags
  import opened Machine
  import opened Invariants
  import WorkerSteps
  import MonitorSteps
  import opened CallerSteps
  import opened RunProofs

  /** Worker `w` was given container `id` and has not given it back. */
  predicate Holds(s: State, w: nat, id: ContainerId) {
    w < |s.workers| && id in HeldBy(s.workers[w])
  }

  /** Worker `w` has taken job `j` from the channel and not yet answered it. */
  predicate Handles(s: State, w: nat, j: JobId) {
    w < |s.workers| && j in JobOf(s.workers[w])
  }

  // ---------------------------------------------------------------- containers

  /**
   No two workers ever hold the same container; a held id is Busy or no longer registered; and every
   registered Busy id has a holder. Unlocked removals and stale watchers included.
   */
  lemma Exclusivity(c: Config, s: State)
    requires Reachable(c, s)
    ensures forall v, w, id :: Holds(s, v, id) && Holds(s, w, id) ==> v == w
    ensures forall w, id :: Holds(s, w, id) && id in s.pool.containers ==> s.pool.containers[id] == Busy
    ensures forall id <- s.pool.containers :: s.pool.containers[id] == Busy ==> exists w :: Holds(s, w, id)
  {
    ReachableInv(c, s);
    forall v, w, id | Holds(s, v, id) && Holds(s, w, id) ensures v == w {
      HolderAlone(c, s, v, id);
    }
    forall w, id | Holds(s, w, id) && id in s.pool.containers ensures s.pool.containers[id] == Busy {
      HolderAlone(c, s, w, id);
    }
    forall id | id in s.pool.containers && s.pool.containers[id] == Busy ensures exists w :: Holds(s, w, id) {
      var w := GatherOwner(HeldBy, s.workers, id);
      assert Holds(s, w, id);
    }
  }

  /** The register never outgrows maxWorkers, although StartContainer unlocks between its guard and its insert. */
  lemma SizeBound(c: Config, s: State)
    requires Reachable(c, s)
    ensures |s.pool.containers| <= c.maxWorkers
  {
    ReachableInv(c, s);
    assert |s.pool.containers| == |s.pool.containers.Keys|;
  }

  /** A worker holding nothing leaves at most maxWorkers - 1 ids to be held, fewer than there are entries. */
  lemma BusyLeavesRoom(c: Config, s: State, w: nat)
    requires PoolInv(c, s) && w < |s.workers| && HeldBy(s.workers[w]) == multiset{}
    requires |s.pool.containers.Keys| == c.maxWorkers
    ensures exists id :: id in s.pool.containers && s.pool.containers[id] != Busy
  {
    GatherSize(HeldBy, s.workers);
    if forall id <- s.pool.containers :: s.pool.containers[id] == Busy {
      assert multiset(s.pool.containers.Keys) <= Held(s);
      BagSize(multiset(s.pool.containers.Keys), Held(s));
      assert false;
    }
  }

  lemma IdleLeft(c: Config, s: State, w: nat)
    requires PoolInv(c, s) && w < |s.workers| && HeldBy(s.workers[w]) == multiset{}
    requires |s.pool.containers.Keys| == c.maxWorkers && InState(s.pool.containers, Error) == {}
    ensures !NoneIdle(s.pool.containers)
  {
    BusyLeavesRoom(c, s, w);
    var id :| id in s.pool.containers && s.pool.containers[id] != Busy;
    assert id !in InState(s.pool.containers, Error);
  }

  /**
   With all maxWorkers containers registered and none in Error, a worker scanning for a container finds
   one at its first pass: the other workers cannot account for every entry.
   */
  lemma AcquisitionSucceeds(c: Config, s: State, w: nat)
    requires Reachable(c, s) && w < |s.workers| && s.workers[w].Scanning?
    requires |s.pool.containers.Keys| == c.maxWorkers && InState(s.pool.containers, Error) == {}
    ensures exists id :: WorkerEnabled(s, w, Hit(id))
    ensures !WorkerEnabled(s, w, Miss) && !WorkerEnabled(s, w, GiveUp)
  {
    assert PoolInv(c, s) && RetryInv(s) by {
      ReachableInv(c, s);
    }
    IdleLeft(c, s, w);
    ScanFinds(s, w);
  }

  /** Where there is something to find, the scan finds it: the pass is the first one. */
  lemma ScanFinds(s: State, w: nat)
    requires RetryInv(s) && w < |s.workers| && s.workers[w].Scanning? && !NoneIdle(s.pool.containers)
    ensures exists id :: WorkerEnabled(s, w, Hit(id))
    ensures !WorkerEnabled(s, w, Miss) && !WorkerEnabled(s, w, GiveUp)
  {
    var id :| id in s.pool.containers && s.pool.containers[id] == Idle;
    assert WorkerEnabled(s, w, Hit(id));
  }

  lemma BagSize<T>(a: multiset<T>, b: multiset<T>)
    requires a <= b
    ensures |a| <= |b|
  {
    assert b == a + (b - a);
  }

  /** The retry loop is one scan: whatever happens meanwhile, only the first pass can succeed. */
  lemma OnlyFirstScanHits(c: Config, s: State, w: nat, id: ContainerId)
    requires Reachable(c, s) && WorkerEnabled(s, w, Hit(id))
    ensures s.workers[w].pass == 0
  {
    ReachableInv(c, s);
  }

  /** The monitor never trims: the branch for too many running workers is dead in every run. */
  lemma SurplusNeverSeen(c: Config, s: State)
    requires Reachable(c, s)
    ensures !s.monitor.Excess? && !s.monitor.Trimming?
  {
    assert MonitorInv(c, s) by {
      ReachableInv(c, s);
    }
  }

  /** A monitor step unregisters at most one id, and only one docker did not list in this pass or one in Error. */
  lemma OnlyUnlistedOrErrorReaped(c: Config, s: State, a: MonitorAct, id: ContainerId)
    requires Reachable(c, s) && Enabled(c, s, ByMonitor(a))
    requires id in s.pool.containers && id !in MonitorApply(c, s, a).pool.containers
    ensures a.Delete? && id == s.monitor.id
    ensures id !in s.monitor.listed || s.pool.containers[id] == Error
  {
    assert MonitorInv(c, s) by {
      ReachableInv(c, s);
    }
    MonitorSteps.MonitorRegisters(c, s, a);
  }

  // ---------------------------------------------------------------- the register over time

  /** Whatever is registered after a step was registered before it or had never been registered. */
  ghost predicate OnlyFresh(p: Pool, p': Pool) {
    p.used <= p'.used && forall id :: id in p'.containers && id in p.used ==> id in p.containers
  }

  lemma MonitorRegistersFresh(c: Config, s: State, a: MonitorAct)
    requires MonitorInv(c, s) && MonitorEnabled(s, a)
    ensures OnlyFresh(s.pool, MonitorApply(c, s, a).pool)
  {
    MonitorSteps.MonitorRegisters(c, s, a);
    MonitorSteps.MonitorUses(c, s, a);
  }

  lemma WorkerRegistersNone(s: State, w: nat, a: WorkerAct)
    requires WorkerEnabled(s, w, a)
    ensures OnlyFresh(s.pool, WorkerApply(s, w, a).pool)
  {
    WorkerSteps.WorkerFrame(s, w, a);
    WorkerSteps.WorkerRegisters(s, w, a);
  }

  /** Only the monitor's insert registers an id, and that id was never registered before. */
  lemma StepRegistersFresh(c: Config, s: State, l: Label)
    requires MonitorInv(c, s) && Enabled(c, s, l)
    ensures OnlyFresh(s.pool, Apply(c, s, l).pool)
  {
    match l
    case ByWorker(w, a) => WorkerRegistersNone(s, w, a);
    case ByMonitor(a) => MonitorRegistersFresh(c, s, a);
    case ByRemoval(id, a) =>
    case ByCloser =>
    case ByCaller(k, a) => CallerFrame(c, s, k, a);
  }

  lemma {:induction false} StaysGone(c: Config, s: State, ls: seq<Label>, id: ContainerId)
    requires Inv(c, s) && Runs(c, s, ls)
    requires id in s.pool.used && id !in s.pool.containers
    ensures id !in After(c, s, ls).pool.containers
    decreases |ls|
  {
    if ls != [] {
      StepRegistersFresh(c, s, ls[0]);
      StepKeeps(c, s, ls[0]);
      StaysGone(c, Apply(c, s, ls[0]), ls[1..], id);
    }
  }

  /** No resurrection: an id that has left the register never returns to it, whatever run follows. */
  lemma NoResurrection(c: Config, s: State, ls: seq<Label>, id: ContainerId)
    requires Reachable(c, s) && Runs(c, s, ls)
    requires id in s.pool.used && id !in s.pool.containers
    ensures id !in After(c, s, ls).pool.containers
  {
    ReachableInv(c, s);
    StaysGone(c, s, ls, id);
  }

  lemma WorkerDecays(c: Config, s: State, w: nat, a: WorkerAct)
    requires PoolInv(c, s) && WorkerEnabled(s, w, a)
    ensures InState(WorkerApply(s, w, a).pool.containers, Error) <= InState(s.pool.containers, Error)
  {
    WorkerSteps.WorkerFrame(s, w, a);
    WorkerSteps.WorkerHolds(s, w, a);
    WorkerSteps.WorkerRegisters(s, w, a);
    WorkerSteps.WorkerKeepsPool(c, s, WorkerApply(s, w, a), w, WorkerSteps.MoveOf(s.workers[w], a));
  }

  lemma StepDecays(c: Config, s: State, l: Label)
    requires PoolInv(c, s) && Enabled(c, s, l)
    ensures InState(Apply(c, s, l).pool.containers, Error) <= InState(s.pool.containers, Error)
  {
    match l
    case ByWorker(w, a) => WorkerDecays(c, s, w, a);
    case ByMonitor(a) => MonitorSteps.MonitorRegisters(c, s, a);
    case ByRemoval(id, a) =>
    case ByCloser =>
    case ByCaller(k, a) => CallerFrame(c, s, k, a);
  }

  lemma {:induction false} ErrorsShrink(c: Config, s: State, ls: seq<Label>)
    requires Inv(c, s) && Runs(c, s, ls)
    ensures InState(After(c, s, ls).pool.containers, Error) <= InState(s.pool.containers, Error)
    ensures After(c, s, ls).passes > 0 ==> InState(After(c, s, ls).pool.containers, Error) == {}
    decreases |ls|
  {
    if ls != [] {
      StepDecays(c, s, ls[0]);
      StepKeeps(c, s, ls[0]);
      ErrorsShrink(c, Apply(c, s, ls[0]), ls[1..]);
    }
  }

  /** Error decay: no run adds an Error entry, and none is left once a health pass with a listing has completed. */
  lemma ErrorDecay(c: Config, s: State, ls: seq<Label>)
    requires Reachable(c, s) && Runs(c, s, ls)
    ensures InState(After(c, s, ls).pool.containers, Error) <= InState(s.pool.containers, Error)
    ensures After(c, s, ls).passes > 0 ==> InState(After(c, s, ls).pool.containers, Error) == {}
  {
    ReachableInv(c, s);
    ErrorsShrink(c, s, ls);
  }
}
