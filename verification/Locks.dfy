/** The mutex is never deadlocked: its owner can always move, and releases it after a bounded number of steps. */
module Locks {
  import opened Types
  import opened Machine
  import opened Invariants
  import opened CallerSteps
  import opened RunProofs
  import WorkerSteps
  import MonitorSteps

  predicate TakenBy(t: Thread, l: Label) {
    match t
    case WorkerThread(w) => l.ByWorker? && l.w == w
    case MonitorThread => l.ByMonitor?
    case CloserThread => l.ByCloser?
  }

  /** How many steps the owner of the mutex may still take before it releases it. */
  function HoldRank(s: State): nat {
    match s.mu
    case None => 0
    case Some(WorkerThread(w)) =>
      if w < |s.workers| && s.workers[w].Scanning? && s.workers[w].pass <= MAX_RETRIES
      then MAX_RETRIES + 1 - s.workers[w].pass else 1
    case Some(_) => 1
  }

  /** A step the owner can take now. */
  function OwnerStep(s: State): Label {
    match s.mu
    case Some(WorkerThread(w)) =>
      if w < |s.workers| && s.workers[w].MarkingBusy? then ByWorker(w, MarkBusy)
      else if w < |s.workers| && s.workers[w].MarkingIdle? then ByWorker(w, MarkIdle)
      else if w < |s.workers| && s.workers[w].Scanning? && s.workers[w].pass >= MAX_RETRIES then ByWorker(w, GiveUp)
      else ByWorker(w, Miss)
    case Some(MonitorThread) =>
      if s.monitor.Sweeping? then ByMonitor(Sweep)
      else if s.monitor.Guarding? then ByMonitor(Guard)
      else ByMonitor(Insert)
    case _ => ByCloser
  }

  /** Whoever owns the mutex can move on, so no reachable state is stuck on it. */
  lemma OwnerCanMove(c: Config, s: State)
    requires Reachable(c, s) && !s.crashed && s.mu.Some?
    ensures exists l :: TakenBy(s.mu.value, l) && Enabled(c, s, l)
  {
    assert LockInv(s) && MonitorInv(c, s) by {
      ReachableInv(c, s);
    }
    OwnerEnabled(c, s);
  }

  lemma OwnerEnabled(c: Config, s: State)
    requires LockInv(s) && MonitorInv(c, s) && !s.crashed && s.mu.Some?
    ensures exists l :: TakenBy(s.mu.value, l) && Enabled(c, s, l)
  {
    var l := OwnerStep(s);
    if l.ByWorker? && l.worker.Miss? && !NoneIdle(s.pool.containers) {
      var id :| id in s.pool.containers && s.pool.containers[id] == Idle;
      assert Enabled(c, s, ByWorker(l.w, Hit(id)));
    } else {
      assert Enabled(c, s, l);
    }
  }

  /** Every step of the owner brings the release closer, and nobody else's step delays it. */
  lemma HoldingIsBounded(c: Config, s: State, l: Label)
    requires Reachable(c, s) && Enabled(c, s, l) && s.mu.Some?
    ensures TakenBy(s.mu.value, l) ==> HoldRank(Apply(c, s, l)) < HoldRank(s)
    ensures !TakenBy(s.mu.value, l) ==> Apply(c, s, l).mu == s.mu && HoldRank(Apply(c, s, l)) == HoldRank(s)
    ensures HoldRank(s) <= 11
  {
    assert LockInv(s) && RetryInv(s) by {
      ReachableInv(c, s);
    }
    HoldRankFalls(c, s, l);
  }

  lemma HoldRankFalls(c: Config, s: State, l: Label)
    requires LockInv(s) && RetryInv(s) && Enabled(c, s, l) && s.mu.Some?
    ensures TakenBy(s.mu.value, l) ==> HoldRank(Apply(c, s, l)) < HoldRank(s)
    ensures !TakenBy(s.mu.value, l) ==> Apply(c, s, l).mu == s.mu && HoldRank(Apply(c, s, l)) == HoldRank(s)
    ensures HoldRank(s) <= MAX_RETRIES + 1
  {
    match l
    case ByWorker(w, a) => WorkerHoldRank(c, s, w, a);
    case ByMonitor(a) => MonitorHoldRank(c, s, a);
    case ByRemoval(id, a) =>
    case ByCloser =>
    case ByCaller(k, a) => CallerFrame(c, s, k, a);
  }

  lemma WorkerHoldRank(c: Config, s: State, w: nat, a: WorkerAct)
    requires LockInv(s) && RetryInv(s) && WorkerEnabled(s, w, a) && s.mu.Some?
    ensures s.mu == Some(WorkerThread(w)) ==> HoldRank(WorkerApply(s, w, a)) < HoldRank(s)
    ensures s.mu != Some(WorkerThread(w)) ==>
      WorkerApply(s, w, a).mu == s.mu && HoldRank(WorkerApply(s, w, a)) == HoldRank(s)
  {
    WorkerSteps.WorkerFrame(s, w, a);
    WorkerSteps.WorkerMutex(s, w, a);
  }

  lemma MonitorHoldRank(c: Config, s: State, a: MonitorAct)
    requires LockInv(s) && MonitorEnabled(s, a) && s.mu.Some?
    ensures var s' := MonitorApply(c, s, a);
      if s.mu == Some(MonitorThread) then HoldRank(s') < HoldRank(s)
      else s'.mu == s.mu && HoldRank(s') == HoldRank(s)
  {
    MonitorSteps.MonitorFrame(c, s, a);
    if !MonitorApply(c, s, a).crashed {
      MonitorSteps.MonitorMutex(c, s, a);
    }
  }

  // ---------------------------------------------------------------- nobody but the mutex makes a thread wait

  /** The monitor has a step unless it waits for the mutex. */
  lemma MonitorIsNeverStuck(c: Config, s: State)
    requires Reachable(c, s) && !s.crashed && (s.mu.None? || s.mu == Some(MonitorThread))
    ensures exists a :: Enabled(c, s, ByMonitor(a))
  {
    assert LockInv(s) && MonitorInv(c, s) by {
      ReachableInv(c, s);
    }
    var id :| s.monitor.Removing? && s.monitor.stale != {} ==> id in s.monitor.stale;
    assert MonitorEnabled(s, MonitorNext(s.monitor, id));
    assert Enabled(c, s, ByMonitor(MonitorNext(s.monitor, id)));
  }

  /** A step for each place the monitor can stand in. */
  function MonitorNext(m: Monitor, id: ContainerId): MonitorAct {
    match m
    case Resting => Tick
    case Listing => ListFails
    case Checking(_, todo, _) => if todo != [] then Look else LockSweep
    case Rereading(_, _, _) => Reread
    case Sweeping(_, _) => Sweep
    case Removing(_, _, stale, _) => if stale != {} then DockerRemove(id) else Branch
    case Deleting(_, _, _, _, _) => Delete
    case Starting(_) => NextStart
    case Guarding(_) => Guard
    case Creating(_) => CreateFails
    case Registering(_, _) => LockInsert
    case Inserting(_, _) => Insert
    case Excess(_) => LockTrim
    case Trimming(_) => Trim({})
  }

  /** Docker may answer the monitor as it likes: any list or none, any unused id or none. */
  lemma DockerIsFree(c: Config, s: State, ids: seq<ContainerId>, id: ContainerId)
    requires !s.crashed
    ensures s.monitor.Listing? ==> Enabled(c, s, ByMonitor(List(ids))) && Enabled(c, s, ByMonitor(ListFails))
    ensures s.monitor.Creating? ==> Enabled(c, s, ByMonitor(CreateFails))
    ensures s.monitor.Creating? && id !in s.pool.used ==> Enabled(c, s, ByMonitor(Create(id)))
  {
  }

  /** Watchers may fire or quit at any time, and removals need no mutex. */
  lemma RemovalsNeverWait(c: Config, s: State, id: ContainerId)
    requires !s.crashed
    ensures id in s.pool.watchers ==>
      Enabled(c, s, ByRemoval(id, WatcherQuits)) && Enabled(c, s, ByRemoval(id, WatcherFires))
    ensures id in s.pool.removing ==> Enabled(c, s, ByRemoval(id, DockerDone))
    ensures id in s.pool.deleting ==> Enabled(c, s, ByRemoval(id, MapDelete))
  {
  }

  /** Shutdown moves on unless it waits for the mutex, and every waiting worker may see its signal. */
  lemma ShutdownIsNeverStuck(c: Config, s: State, w: nat)
    requires Reachable(c, s) && !s.crashed
    ensures !s.closer.Closed? && (s.mu.None? || s.mu == Some(CloserThread)) ==> Enabled(c, s, ByCloser)
    ensures w < |s.workers| && s.workers[w].Waiting? && !s.closer.Open? ==> Enabled(c, s, ByWorker(w, SeeShutdown))
  {
    assert LockInv(s) by {
      ReachableInv(c, s);
    }
  }

  /** Before Shutdown a free caller is admitted or rejected at once, and an answered one gets its answer. */
  lemma CallersNeverWaitToSubmit(c: Config, s: State, k: nat, job: Job)
    requires !s.crashed && s.closer.Open? && k < |s.callers|
    ensures s.callers[k].Free? ==>
      (Enabled(c, s, ByCaller(k, Submit(job))) <==> |s.ledger.queue| < c.maxJobs)
      && (Enabled(c, s, ByCaller(k, Reject(job))) <==> |s.ledger.queue| >= c.maxJobs)
    ensures s.callers[k].Blocked? ==> (Enabled(c, s, ByCaller(k, Receive)) <==> s.callers[k].j in s.ledger.slots)
  {
  }
}
