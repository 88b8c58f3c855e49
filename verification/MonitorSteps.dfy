/** Every step of the monitor, of the watchers and removals, and of Shutdown keeps the joint invariant. */
module MonitorSteps {
  import opened Types
  import opened Bags
  import opened Machine
  import opened Invariants

  // ---------------------------------------------------------------- steps that only unregister ids

  /** `s'` differs from `s` at most in fewer registered ids and in the bags of watchers and removals. */
  ghost predicate Shrunk(s: State, s': State) {
    && s'.workers == s.workers && s'.ledger == s.ledger && s'.callers == s.callers
    && s'.pool.used == s.pool.used
    && s'.pool.containers.Keys <= s.pool.containers.Keys
    && (forall id <- s'.pool.containers :: s'.pool.containers[id] == s.pool.containers[id])
  }

  lemma ShrinkKeeps(c: Config, s: State, s': State)
    requires PoolInv(c, s) && RetryInv(s) && ResultInv(s) && Shrunk(s, s')
    ensures PoolInv(c, s') && RetryInv(s') && ResultInv(s')
  {
    SubsetSize(s'.pool.containers.Keys, s.pool.containers.Keys);
    assert Held(s') == Held(s);
  }

  lemma RemovalKeeps(c: Config, s: State, id: ContainerId, a: RemovalAct)
    requires Inv(c, s) && RemovalEnabled(s, id, a)
    ensures Inv(c, RemovalApply(s, id, a))
  {
    var s' := RemovalApply(s, id, a);
    ShrinkKeeps(c, s, s');
    MonitorIgnores(c, s, s');
  }

  lemma CloserKeepsLock(s: State)
    requires LockInv(s) && CloserEnabled(s)
    ensures LockInv(CloserApply(s)) && Shrunk(s, CloserApply(s))
    ensures CloserApply(s).monitor == s.monitor && CloserApply(s).passes == s.passes
    ensures CloserApply(s).closer.Open? ==> s.closer.Open?
  {
  }

  lemma CloserKeeps(c: Config, s: State)
    requires Inv(c, s) && CloserEnabled(s)
    ensures Inv(c, CloserApply(s))
  {
    var s' := CloserApply(s);
    CloserKeepsLock(s);
    ShrinkKeeps(c, s, s');
    MonitorIgnores(c, s, s');
  }

  // ---------------------------------------------------------------- steps of the monitor

  lemma MonitorFrame(c: Config, s: State, a: MonitorAct)
    requires MonitorEnabled(s, a)
    ensures var s' := MonitorApply(c, s, a);
      s'.workers == s.workers && s'.ledger == s.ledger && s'.callers == s.callers && s'.closer == s.closer
  {
  }

  lemma MonitorMutex(c: Config, s: State, a: MonitorAct)
    requires LockInv(s) && MonitorEnabled(s, a) && !MonitorApply(c, s, a).crashed
    ensures var s' := MonitorApply(c, s, a);
      s'.mu == if MonitorLocks(s'.monitor) then Some(MonitorThread)
               else if MonitorLocks(s.monitor) then None else s.mu
    ensures MonitorLocks(MonitorApply(c, s, a).monitor) ==> s.mu.None? || s.mu == Some(MonitorThread)
  {
  }

  lemma MonitorKeepsLock(c: Config, s: State, a: MonitorAct)
    requires LockInv(s) && MonitorEnabled(s, a)
    ensures LockInv(MonitorApply(c, s, a))
  {
    var s' := MonitorApply(c, s, a);
    MonitorFrame(c, s, a);
    if !s'.crashed {
      MonitorMutex(c, s, a);
    }
  }

  /** The register as a monitor step leaves it; Insert alone adds an id. */
  function RegisterAfter(r: Register, m: Monitor, a: MonitorAct): Register {
    if a.Delete? && m.Deleting? then r - {m.id}
    else if a.Insert? && m.Inserting? then r[m.id := Idle]
    else if a.Trim? then r - a.victims
    else r
  }

  lemma MonitorLeavesRegister(c: Config, s: State, a: MonitorAct)
    requires MonitorEnabled(s, a) && !a.Delete? && !a.Insert? && !a.Trim?
    ensures MonitorApply(c, s, a).pool == s.pool
  {
  }

  lemma MonitorRegisters(c: Config, s: State, a: MonitorAct)
    requires MonitorEnabled(s, a)
    ensures MonitorApply(c, s, a).pool.containers == RegisterAfter(s.pool.containers, s.monitor, a)
  {
    if a.Delete? {
    } else if a.Insert? {
    } else if a.Trim? {
    } else {
      MonitorLeavesRegister(c, s, a);
    }
  }

  lemma MonitorUses(c: Config, s: State, a: MonitorAct)
    requires MonitorEnabled(s, a)
    ensures MonitorApply(c, s, a).pool.used ==
      if a.Insert? && s.monitor.Inserting? then s.pool.used + {s.monitor.id} else s.pool.used
  {
  }

  lemma InsertKeepsPool(c: Config, s: State, s': State, id: ContainerId)
    requires PoolInv(c, s) && NewInv(c, s, id)
    requires s'.workers == s.workers && s'.pool.used == s.pool.used + {id}
    requires s'.pool.containers == s.pool.containers[id := Idle]
    ensures PoolInv(c, s') && InState(s'.pool.containers, Error) == {}
  {
    assert Held(s') == Held(s);
    assert s'.pool.containers.Keys == s.pool.containers.Keys + {id};
    assert forall i <- s.pool.containers :: s.pool.containers[i] == Error ==> i in InState(s.pool.containers, Error);
  }

  lemma MonitorKeepsPool(c: Config, s: State, a: MonitorAct)
    requires PoolInv(c, s) && MonitorInv(c, s) && MonitorEnabled(s, a)
    ensures PoolInv(c, MonitorApply(c, s, a))
  {
    var s' := MonitorApply(c, s, a);
    MonitorFrame(c, s, a);
    MonitorRegisters(c, s, a);
    MonitorUses(c, s, a);
    assert Held(s') == Held(s);
    if a.Insert? {
      InsertKeepsPool(c, s, s', s.monitor.id);
    } else {
      SubsetSize(s'.pool.containers.Keys, s.pool.containers.Keys);
    }
  }

  lemma MonitorKeepsRetry(c: Config, s: State, a: MonitorAct)
    requires LockInv(s) && RetryInv(s) && MonitorEnabled(s, a)
    ensures RetryInv(MonitorApply(c, s, a))
  {
    var s' := MonitorApply(c, s, a);
    MonitorFrame(c, s, a);
    MonitorRegisters(c, s, a);
    if a.Insert? {
      forall w: nat | w < |s.workers| ensures !s.workers[w].Scanning? {
        assert MonitorLocks(s.monitor);
      }
    }
  }

  /** Looking an id up: a registered healthy id joins `running`, which leaves the union with the register as it was. */
  lemma LookKeeps(c: Config, s: State, listed: set<ContainerId>, todo: seq<ContainerId>, running: set<ContainerId>)
    requires SnapshotInv(c, s, listed, todo, running) && todo != []
    ensures var id := todo[0];
      if id in s.pool.containers && s.pool.containers[id] != Error
      then SnapshotInv(c, s, listed, todo[1..], running + {id})
      else SnapshotInv(c, s, listed, todo[1..], running)
  {
    var id := todo[0];
    assert todo == [id] + todo[1..];
    if id in s.pool.containers {
      assert running + {id} + s.pool.containers.Keys == running + s.pool.containers.Keys;
    }
  }

  lemma SweepKeeps(c: Config, s: State, listed: set<ContainerId>, running: set<ContainerId>)
    requires SnapshotInv(c, s, listed, [], running)
    ensures StaleInv(c, s, listed, running, s.pool.containers.Keys - running)
  {
    SubsetSize(running, running + s.pool.containers.Keys);
  }

  /** The first half of a pass, up to the list of ids to remove. */
  lemma MonitorKeepsFirstHalf(c: Config, s: State, a: MonitorAct)
    requires PoolInv(c, s) && MonitorInv(c, s) && MonitorEnabled(s, a)
    requires a.Tick? || a.ListFails? || a.List? || a.Look? || a.Reread? || a.LockSweep? || a.Sweep?
    ensures MonitorInv(c, MonitorApply(c, s, a))
  {
    var s' := MonitorApply(c, s, a);
    match a
    case Tick =>
    case ListFails =>
    case List(ids) =>
      assert {} + s.pool.containers.Keys == s.pool.containers.Keys;
    case Look => LookKeeps(c, s, s.monitor.listed, s.monitor.todo, s.monitor.running);
    case Reread => LookKeeps(c, s, s.monitor.listed, s.monitor.todo, s.monitor.running);
    case LockSweep =>
    case Sweep => SweepKeeps(c, s, s.monitor.listed, s.monitor.running);
  }

  /** The decision: everything stale is gone, so no Error entry is left and the surplus branch is not taken. */
  lemma BranchKeeps(c: Config, s: State)
    requires MonitorInv(c, s) && MonitorEnabled(s, Branch)
    ensures MonitorInv(c, MonitorApply(c, s, Branch))
  {
  }

  /** The second half, as far as it leaves the register alone: the counted starts. */
  lemma MonitorKeepsSecondHalf(c: Config, s: State, a: MonitorAct)
    requires PoolInv(c, s) && MonitorInv(c, s) && MonitorEnabled(s, a)
    requires a.DockerRemove? || a.NextStart? || a.Guard? || a.CreateFails? || a.LockInsert?
    ensures MonitorInv(c, MonitorApply(c, s, a))
  {
  }

  /** Unregistering a stale id: what is left of the stale set still covers every Error entry. */
  lemma DeleteKeeps(c: Config, s: State)
    requires MonitorInv(c, s) && MonitorEnabled(s, Delete)
    ensures MonitorInv(c, MonitorApply(c, s, Delete))
  {
  }

  lemma CreateKeeps(c: Config, s: State, id: ContainerId)
    requires PoolInv(c, s) && MonitorInv(c, s) && MonitorEnabled(s, Create(id))
    ensures MonitorInv(c, MonitorApply(c, s, Create(id)))
  {
  }

  lemma InsertKeeps(c: Config, s: State)
    requires PoolInv(c, s) && MonitorInv(c, s) && MonitorEnabled(s, Insert)
    ensures MonitorInv(c, MonitorApply(c, s, Insert))
  {
    InsertKeepsPool(c, s, MonitorApply(c, s, Insert), s.monitor.id);
  }

  /** A pass counts as completed only once no Error entry is left. */
  lemma MonitorKeepsError(c: Config, s: State, a: MonitorAct)
    requires PoolInv(c, s) && MonitorInv(c, s) && ErrorInv(s) && MonitorEnabled(s, a)
    ensures ErrorInv(MonitorApply(c, s, a))
  {
    var s' := MonitorApply(c, s, a);
    MonitorRegisters(c, s, a);
    if a.Insert? {
      InsertKeepsPool(c, s, s', s.monitor.id);
    } else {
      assert InState(s'.pool.containers, Error) <= InState(s.pool.containers, Error);
    }
  }

  /** Jobs and results do not concern the monitor. */
  lemma MonitorSparesJobs(c: Config, s: State, a: MonitorAct)
    requires JobInv(c, s) && ResultInv(s) && OpenInv(s) && MonitorEnabled(s, a)
    ensures var s' := MonitorApply(c, s, a); JobInv(c, s') && ResultInv(s') && OpenInv(s')
  {
    MonitorFrame(c, s, a);
    assert OnTheWay(MonitorApply(c, s, a)) == OnTheWay(s);
  }

  lemma MonitorKeepsOwn(c: Config, s: State, a: MonitorAct)
    requires PoolInv(c, s) && MonitorInv(c, s) && MonitorEnabled(s, a)
    ensures MonitorInv(c, MonitorApply(c, s, a))
  {
    if a.Tick? || a.ListFails? || a.List? || a.Look? || a.Reread? || a.LockSweep? || a.Sweep? {
      MonitorKeepsFirstHalf(c, s, a);
    } else if a.Branch? {
      BranchKeeps(c, s);
    } else if a.Delete? {
      DeleteKeeps(c, s);
    } else if a.Create? {
      CreateKeeps(c, s, a.id);
    } else if a.Insert? {
      InsertKeeps(c, s);
    } else if a.LockTrim? || a.Trim? {
      assert false;
    } else {
      MonitorKeepsSecondHalf(c, s, a);
    }
  }

  lemma MonitorKeeps(c: Config, s: State, a: MonitorAct)
    requires Inv(c, s) && MonitorEnabled(s, a)
    ensures Inv(c, MonitorApply(c, s, a))
  {
    MonitorSparesJobs(c, s, a);
    MonitorKeepsLock(c, s, a);
    MonitorKeepsPool(c, s, a);
    MonitorKeepsRetry(c, s, a);
    MonitorKeepsError(c, s, a);
    MonitorKeepsOwn(c, s, a);
  }
}
