/** Watchers, asynchronous removals and shutdown over whole runs. */
module Removals {
  import opened Types
  import opened LanguageConfigs
  import opened Machine
  import opened Invariants
  import opened CallerSteps
  import opened RunProofs
  import WorkerSteps
  import MonitorSteps

  /** The step starts an execution, and with it a watcher, in container `id`. */
  predicate Launches(s: State, l: Label, id: ContainerId) {
    && l.ByWorker? && l.worker.Launch? && l.w < |s.workers|
    && s.workers[l.w].Launching? && s.workers[l.w].id == id && Supported(JobAt(s.ledger, s.workers[l.w].j).language)
  }

  /** The step is the last one of a watcher or of the removal it has started. */
  predicate Ends(l: Label, id: ContainerId) {
    l.ByRemoval? && l.id == id && (l.removal.WatcherQuits? || l.removal.MapDelete?)
  }

  ghost function Launched(c: Config, s: State, ls: seq<Label>, id: ContainerId): nat
    requires Runs(c, s, ls)
    decreases |ls|
  {
    if ls == [] then 0 else (if Launches(s, ls[0], id) then 1 else 0) + Launched(c, Apply(c, s, ls[0]), ls[1..], id)
  }

  ghost function Ended(ls: seq<Label>, id: ContainerId): nat {
    if ls == [] then 0 else (if Ends(ls[0], id) then 1 else 0) + Ended(ls[1..], id)
  }

  /** Watchers of `id` at work, and removals of it on their way. */
  function UnderWay(p: Pool, id: ContainerId): nat {
    p.watchers[id] + p.removing[id] + p.deleting[id]
  }

  lemma WorkerTally(s: State, w: nat, a: WorkerAct, id: ContainerId)
    requires WorkerEnabled(s, w, a)
    ensures UnderWay(WorkerApply(s, w, a).pool, id) ==
      UnderWay(s.pool, id) + if Launches(s, ByWorker(w, a), id) then 1 else 0
  {
  }

  lemma MonitorTally(c: Config, s: State, a: MonitorAct, id: ContainerId)
    requires MonitorEnabled(s, a)
    ensures UnderWay(MonitorApply(c, s, a).pool, id) == UnderWay(s.pool, id)
  {
  }

  lemma RemovalTally(s: State, other: ContainerId, a: RemovalAct, id: ContainerId)
    requires RemovalEnabled(s, other, a)
    ensures UnderWay(RemovalApply(s, other, a).pool, id) + (if Ends(ByRemoval(other, a), id) then 1 else 0)
         == UnderWay(s.pool, id)
  {
  }

  lemma StepTally(c: Config, s: State, l: Label, id: ContainerId)
    requires Enabled(c, s, l)
    ensures UnderWay(Apply(c, s, l).pool, id) + (if Ends(l, id) then 1 else 0) ==
      UnderWay(s.pool, id) + if Launches(s, l, id) then 1 else 0
  {
    match l
    case ByWorker(w, a) => WorkerTally(s, w, a, id);
    case ByMonitor(a) => MonitorTally(c, s, a, id);
    case ByRemoval(other, a) => RemovalTally(s, other, a, id);
    case ByCloser =>
    case ByCaller(k, a) => CallerTally(c, s, k, a, id);
  }

  lemma CallerTally(c: Config, s: State, k: nat, a: CallerAct, id: ContainerId)
    requires CallerEnabled(c, s, k, a)
    ensures UnderWay(CallerApply(c, s, k, a).pool, id) == UnderWay(s.pool, id)
  {
    CallerFrame(c, s, k, a);
  }

  lemma {:induction false} RunTally(c: Config, s: State, ls: seq<Label>, id: ContainerId)
    requires Runs(c, s, ls)
    ensures UnderWay(After(c, s, ls).pool, id) + Ended(ls, id) == UnderWay(s.pool, id) + Launched(c, s, ls, id)
    decreases |ls|
  {
    if ls != [] {
      StepTally(c, s, ls[0], id);
      RunTally(c, Apply(c, s, ls[0]), ls[1..], id);
    }
  }

  /**
   Conservation of watchers: every execution started in a container has one watcher, and each watcher either
   quits or removes the container once, in every run.
   */
  lemma WatchersAreConserved(c: Config, s0: State, ls: seq<Label>, id: ContainerId)
    requires Init(c, s0) && Runs(c, s0, ls)
    ensures Launched(c, s0, ls, id) == UnderWay(After(c, s0, ls).pool, id) + Ended(ls, id)
  {
    RunTally(c, s0, ls, id);
  }

  // ---------------------------------------------------------------- shutdown

  /** Shutdown leaves the register alone until its last step, which empties it and releases the mutex. */
  lemma ShutdownClears(c: Config, s: State)
    requires Enabled(c, s, ByCloser)
    ensures var s' := Apply(c, s, ByCloser);
      if s'.closer.Closed? then s'.pool.containers == map[] && s'.mu.None? else s'.pool == s.pool
  {
  }

  /** How many of its steps Shutdown has taken: signal, close the channel, lock, unlock, remove, lock, clear. */
  function StepsTaken(p: Closer): nat {
    match p
    case Open => 0
    case Signalled => 1
    case JobsClosed => 2
    case Snapshotting => 3
    case Purging => 4
    case WantClear => 5
    case Clearing => 6
    case Closed => 7
  }

  ghost function CloserSteps(ls: seq<Label>): nat {
    if ls == [] then 0 else (if ls[0].ByCloser? then 1 else 0) + CloserSteps(ls[1..])
  }

  lemma StepCloses(c: Config, s: State, l: Label)
    requires Enabled(c, s, l)
    ensures StepsTaken(Apply(c, s, l).closer) == StepsTaken(s.closer) + if l.ByCloser? then 1 else 0
  {
    match l
    case ByWorker(w, a) => WorkerSteps.WorkerFrame(s, w, a);
    case ByMonitor(a) => MonitorSteps.MonitorFrame(c, s, a);
    case ByRemoval(id, a) =>
    case ByCloser =>
    case ByCaller(k, a) => CallerFrame(c, s, k, a);
  }

  /** Shutdown takes its seven steps one by one and in this order. */
  lemma {:induction false} ShutdownInOrder(c: Config, s: State, ls: seq<Label>)
    requires Runs(c, s, ls)
    ensures StepsTaken(After(c, s, ls).closer) == StepsTaken(s.closer) + CloserSteps(ls)
    decreases |ls|
  {
    if ls != [] {
      StepCloses(c, s, ls[0]);
      ShutdownInOrder(c, Apply(c, s, ls[0]), ls[1..]);
    }
  }

  /** No worker leaves before Shutdown has been called. */
  lemma NobodyLeavesEarly(c: Config, s: State, w: nat)
    requires Reachable(c, s) && s.closer.Open? && w < |s.workers|
    ensures !s.workers[w].Exited?
  {
    assert OpenInv(s) by {
      ReachableInv(c, s);
    }
  }
}
