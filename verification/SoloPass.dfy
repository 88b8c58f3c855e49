/** The monitor's steps, run without interference, refine the health check of the sequential class. */
module SoloPass {
  import opened Types
  import opened Reconcile
  import opened Machine
  import MonitorSteps

  /** Docker's list, reduced to the worker ids the monitor loops over. */
  function Entries(ids: seq<ContainerId>): seq<ListEntry> {
    seq(|ids|, i requires 0 <= i < |ids| => ListEntry(ids[i], true, true))
  }

  lemma EntriesIds(ids: seq<ContainerId>)
    ensures WorkerIds(Entries(ids)) == set id | id in ids
  {
    forall id | id in ids ensures id in WorkerIds(Entries(ids)) {
      var i :| 0 <= i < |ids| && ids[i] == id;
      assert Entries(ids)[i] == ListEntry(id, true, true);
    }
  }

  /** The ids a pass over register `m` keeps. */
  function Kept(m: Register, listed: set<ContainerId>): set<ContainerId> {
    set id | id in m && id in listed && m[id] != Error
  }

  lemma KeptAreRunning(m: Register, ids: seq<ContainerId>)
    ensures RunningWorkers(m, Entries(ids)) == Kept(m, set id | id in ids)
  {
    EntriesIds(ids);
  }

  /** How far the pass has come: `m` is the register at its start, `outs` are docker's answers so far. */
  ghost predicate Underway(c: Config, m: Register, listed: set<ContainerId>, outs: seq<StartOutcome>, s: State) {
    var kept := Kept(m, listed);
    FreshIds(outs, m.Keys) &&
    match s.monitor
    case Resting => Adjusted(c.maxWorkers, outs, Restrict(m, kept), s.pool.containers)
    case Listing => false
    case Checking(l, todo, running) => outs == [] && s.pool.containers == m && Looked(m, listed, l, todo, running)
    case Rereading(l, todo, running) =>
      outs == [] && s.pool.containers == m && Looked(m, listed, l, todo, running) && todo != [] && todo[0] in m
    case Sweeping(l, running) => outs == [] && s.pool.containers == m && running == kept
    case Removing(l, running, stale, count) => outs == [] && Swept(m, kept, running, stale, count, s)
    case Deleting(l, running, stale, count, id) => outs == [] && id in stale && Swept(m, kept, running, stale, count, s)
    case Starting(left) => Refilling(c, m, kept, outs, left, s)
    case Guarding(left) => left > 0 && Refilling(c, m, kept, outs, left, s)
    case Creating(left) => left > 0 && Refilling(c, m, kept, outs, left, s)
    case Registering(left, id) => left > 0 && Refilling(c, m, kept, outs, left, s) && id !in s.pool.used
    case Inserting(left, id) => left > 0 && Refilling(c, m, kept, outs, left, s) && id !in s.pool.used
    case Excess(surplus) => Surplus(c, m, kept, outs, surplus, s)
    case Trimming(surplus) => Surplus(c, m, kept, outs, surplus, s)
  }

  ghost predicate Surplus(c: Config, m: Register, kept: set<ContainerId>, outs: seq<StartOutcome>, surplus: int,
                          s: State) {
    outs == [] && s.pool.containers == Restrict(m, kept) && surplus == |kept| - c.maxWorkers > 0
  }

  ghost predicate Looked(m: Register, listed: set<ContainerId>, l: set<ContainerId>, todo: seq<ContainerId>,
                         running: set<ContainerId>) {
    && l == listed && (forall id <- todo :: id in listed)
    && running <= Kept(m, listed)
    && (forall id <- Kept(m, listed) :: id in running || id in todo)
  }

  ghost predicate Swept(m: Register, kept: set<ContainerId>, running: set<ContainerId>, stale: set<ContainerId>,
                        count: int, s: State) {
    running == kept && count == |kept| && stale <= m.Keys - kept && s.pool.containers == Restrict(m, kept + stale)
  }

  ghost predicate Refilling(c: Config, m: Register, kept: set<ContainerId>, outs: seq<StartOutcome>, left: int,
                            s: State) {
    && left >= 0 && |outs| + left == c.maxWorkers - |kept|
    && s.pool.containers == Replenished(Restrict(m, kept), outs)
    && m.Keys + StartedIds(outs) <= s.pool.used
  }

  /** The answer a step gets from docker, if it is the end of an attempt to start a container. */
  function Outcome(s: State, a: MonitorAct): seq<StartOutcome> {
    if a.CreateFails? then [CreateFailed]
    else if a.Insert? && s.monitor.Inserting? then [Started(s.monitor.id)]
    else []
  }

  lemma KeptIsAll(m: Register, kept: set<ContainerId>)
    requires kept <= m.Keys
    ensures Restrict(m, kept + (m.Keys - kept)) == m
    ensures |m.Keys| - |m.Keys - kept| == |kept|
  {
    assert kept + (m.Keys - kept) == m.Keys;
  }

  lemma LookStep(c: Config, m: Register, listed: set<ContainerId>, s: State, a: MonitorAct)
    requires Underway(c, m, listed, [], s) && MonitorEnabled(s, a)
    requires s.monitor.Checking? || s.monitor.Rereading?
    ensures Underway(c, m, listed, [], MonitorApply(c, s, a))
  {
    var mon := s.monitor;
    if mon.todo != [] {
      assert mon.todo == [mon.todo[0]] + mon.todo[1..];
    } else {
      assert mon.running == Kept(m, listed);
    }
  }

  lemma SweepStep(c: Config, m: Register, listed: set<ContainerId>, s: State)
    requires Underway(c, m, listed, [], s) && MonitorEnabled(s, Sweep)
    ensures Underway(c, m, listed, [], MonitorApply(c, s, Sweep))
  {
    KeptIsAll(m, Kept(m, listed));
  }

  lemma DeleteStep(c: Config, m: Register, listed: set<ContainerId>, s: State)
    requires Underway(c, m, listed, [], s) && MonitorEnabled(s, Delete)
    ensures Underway(c, m, listed, [], MonitorApply(c, s, Delete))
  {
    var kept, id := Kept(m, listed), s.monitor.id;
    assert Restrict(m, kept + s.monitor.stale) - {id} == Restrict(m, kept + (s.monitor.stale - {id}));
  }

  /** With everything stale gone, exactly the kept entries are left. */
  lemma AllSwept(m: Register, kept: set<ContainerId>, s: State, running: set<ContainerId>, count: int)
    requires Swept(m, kept, running, {}, count, s)
    ensures s.pool.containers == Restrict(m, kept) && count == |kept| && running == kept
  {
    assert kept + {} == kept;
  }

  lemma RefillBegins(c: Config, m: Register, kept: set<ContainerId>, s: State)
    requires s.pool.containers == Restrict(m, kept) && |kept| < c.maxWorkers && m.Keys <= s.pool.used
    ensures Refilling(c, m, kept, [], c.maxWorkers - |kept|, s)
  {
    ReplenishedByNothing(Restrict(m, kept));
  }

  lemma BranchStep(c: Config, m: Register, listed: set<ContainerId>, s: State)
    requires Underway(c, m, listed, [], s) && MonitorEnabled(s, Branch) && m.Keys <= s.pool.used
    ensures Underway(c, m, listed, [], MonitorApply(c, s, Branch))
  {
    var kept, s' := Kept(m, listed), MonitorApply(c, s, Branch);
    AllSwept(m, kept, s, s.monitor.running, s.monitor.count);
    if |kept| < c.maxWorkers {
      RefillBegins(c, m, kept, s');
    } else if |kept| == c.maxWorkers {
      RestrictSize(m, kept);
      AdjustedAlready(c.maxWorkers, [], Restrict(m, kept));
    }
  }

  lemma Trimming(max: nat, r: Register, victims: set<ContainerId>)
    requires |r| > max && victims <= r.Keys && |victims| == |r| - max
    ensures Adjusted(max, [], r, r - victims)
  {
    var r' := r - victims;
    assert r'.Keys == r.Keys - victims && |r'| == |r'.Keys| && |r| == |r.Keys|;
  }

  lemma TrimStep(c: Config, m: Register, listed: set<ContainerId>, s: State, victims: set<ContainerId>)
    requires Underway(c, m, listed, [], s) && MonitorEnabled(s, Trim(victims))
    ensures Underway(c, m, listed, [], MonitorApply(c, s, Trim(victims)))
  {
    var kept := Kept(m, listed);
    RestrictSize(m, kept);
    Trimming(c.maxWorkers, Restrict(m, kept), victims);
  }

  lemma OneMoreFresh(outs: seq<StartOutcome>, o: StartOutcome, taken: set<ContainerId>, used: set<ContainerId>)
    requires FreshIds(outs, taken) && taken + StartedIds(outs) <= used && (o.Started? ==> o.id !in used)
    ensures FreshIds(outs + [o], taken)
    ensures StartedIds(outs + [o]) == StartedIds(outs) + if o.Started? then {o.id} else {}
  {
    forall i | 0 <= i < |outs| && outs[i].Started? ensures outs[i].id in used {
      assert outs[i].id in StartedIds(outs);
    }
  }

  /** One more answer from docker: a started container joins the register. */
  lemma RefillGrows(c: Config, m: Register, kept: set<ContainerId>, outs: seq<StartOutcome>, left: int, s: State,
                    s': State, o: StartOutcome)
    requires Refilling(c, m, kept, outs, left, s) && left > 0 && FreshIds(outs, m.Keys)
    requires o.Started? ==> o.id !in s.pool.used
    requires s'.pool.containers == if o.Started? then s.pool.containers[o.id := Idle] else s.pool.containers
    requires s'.pool.used == s.pool.used + if o.Started? then {o.id} else {}
    ensures Refilling(c, m, kept, outs + [o], left - 1, s') && FreshIds(outs + [o], m.Keys)
  {
    OneMoreFresh(outs, o, m.Keys, s.pool.used);
    ReplenishedGrows(Restrict(m, kept), outs, o);
  }

  lemma FailStep(c: Config, m: Register, listed: set<ContainerId>, outs: seq<StartOutcome>, s: State)
    requires Underway(c, m, listed, outs, s) && MonitorEnabled(s, CreateFails)
    ensures Underway(c, m, listed, outs + [CreateFailed], MonitorApply(c, s, CreateFails))
  {
    RefillGrows(c, m, Kept(m, listed), outs, s.monitor.left, s, MonitorApply(c, s, CreateFails), CreateFailed);
  }

  lemma InsertStep(c: Config, m: Register, listed: set<ContainerId>, outs: seq<StartOutcome>, s: State)
    requires Underway(c, m, listed, outs, s) && MonitorEnabled(s, Insert)
    ensures Underway(c, m, listed, outs + [Started(s.monitor.id)], MonitorApply(c, s, Insert))
  {
    RefillGrows(c, m, Kept(m, listed), outs, s.monitor.left, s, MonitorApply(c, s, Insert), Started(s.monitor.id));
  }

  /** The guard of StartContainer never stops an undisturbed pass. */
  lemma GuardPasses(c: Config, m: Register, kept: set<ContainerId>, outs: seq<StartOutcome>, left: int, s: State)
    requires Refilling(c, m, kept, outs, left, s) && left > 0 && kept <= m.Keys && FreshIds(outs, m.Keys)
    ensures |s.pool.containers.Keys| < c.maxWorkers
  {
    RestrictSize(m, kept);
    var r := Restrict(m, kept);
    ReplenishedSize(r, outs);
    StartedCount(outs, r.Keys);
    assert |s.pool.containers| == |s.pool.containers.Keys|;
  }

  /** When every attempt has been made, the register has been adjusted. */
  lemma Adjusting(max: int, outs: seq<StartOutcome>, r: Register)
    requires |outs| == max - |r|
    ensures Adjusted(max, outs, r, Replenished(r, outs))
  {
    if outs == [] {
      ReplenishedByNothing(r);
    } else {
      assert First(outs, max - |r|) == outs;
    }
  }

  lemma RefillDone(c: Config, m: Register, kept: set<ContainerId>, outs: seq<StartOutcome>, s: State)
    requires Refilling(c, m, kept, outs, 0, s) && kept <= m.Keys
    ensures Adjusted(c.maxWorkers, outs, Restrict(m, kept), s.pool.containers)
  {
    RestrictSize(m, kept);
    Adjusting(c.maxWorkers, outs, Restrict(m, kept));
  }

  lemma RefillStep(c: Config, m: Register, listed: set<ContainerId>, outs: seq<StartOutcome>, s: State, a: MonitorAct)
    requires Underway(c, m, listed, outs, s) && MonitorEnabled(s, a)
    requires a.Guard? || a.NextStart?
    ensures Underway(c, m, listed, outs, MonitorApply(c, s, a))
  {
    var kept := Kept(m, listed);
    if a.Guard? {
      GuardPasses(c, m, kept, outs, s.monitor.left, s);
    } else if s.monitor.left <= 0 {
      RefillDone(c, m, kept, outs, s);
    }
  }

  lemma PlainStep(c: Config, m: Register, listed: set<ContainerId>, outs: seq<StartOutcome>, s: State, a: MonitorAct)
    requires Underway(c, m, listed, outs, s) && MonitorEnabled(s, a)
    requires a.DockerRemove? || a.LockTrim? || a.Create? || a.LockInsert?
    ensures Underway(c, m, listed, outs, MonitorApply(c, s, a))
  {
  }

  /** Steps before anything is started, and the trimming of a surplus. */
  lemma EarlyStep(c: Config, m: Register, listed: set<ContainerId>, s: State, a: MonitorAct)
    requires Underway(c, m, listed, [], s) && MonitorEnabled(s, a) && m.Keys <= s.pool.used
    requires a.Look? || a.Reread? || a.LockSweep? || a.Sweep? || a.Delete? || a.Branch? || a.Trim?
    ensures Underway(c, m, listed, [], MonitorApply(c, s, a))
  {
    match a
    case Sweep => SweepStep(c, m, listed, s);
    case Delete => DeleteStep(c, m, listed, s);
    case Branch => BranchStep(c, m, listed, s);
    case Trim(victims) => TrimStep(c, m, listed, s, victims);
    case _ => LookStep(c, m, listed, s, a);
  }

  lemma NothingYet(c: Config, m: Register, listed: set<ContainerId>, outs: seq<StartOutcome>, s: State, a: MonitorAct)
    requires Underway(c, m, listed, outs, s) && MonitorEnabled(s, a)
    requires a.Look? || a.Reread? || a.LockSweep? || a.Sweep? || a.Delete? || a.Branch? || a.Trim?
    ensures outs == []
  {
  }

  lemma SilentStep(c: Config, m: Register, listed: set<ContainerId>, outs: seq<StartOutcome>, s: State, a: MonitorAct)
    requires Underway(c, m, listed, outs, s) && MonitorEnabled(s, a) && !s.monitor.Resting?
    requires m.Keys <= s.pool.used && !a.CreateFails? && !a.Insert?
    ensures Underway(c, m, listed, outs, MonitorApply(c, s, a))
  {
    if a.Guard? || a.NextStart? {
      RefillStep(c, m, listed, outs, s, a);
    } else if a.DockerRemove? || a.LockTrim? || a.Create? || a.LockInsert? {
      PlainStep(c, m, listed, outs, s, a);
    } else {
      NothingYet(c, m, listed, outs, s, a);
      EarlyStep(c, m, listed, s, a);
    }
  }

  lemma SoloStep(c: Config, m: Register, listed: set<ContainerId>, outs: seq<StartOutcome>, s: State, a: MonitorAct)
    requires Underway(c, m, listed, outs, s) && MonitorEnabled(s, a) && !s.monitor.Resting?
    requires m.Keys <= s.pool.used
    ensures Underway(c, m, listed, outs + Outcome(s, a), MonitorApply(c, s, a))
  {
    if a.CreateFails? {
      FailStep(c, m, listed, outs, s);
    } else if a.Insert? {
      InsertStep(c, m, listed, outs, s);
    } else {
      assert outs + [] == outs;
      SilentStep(c, m, listed, outs, s, a);
    }
  }

  /** A run of the monitor alone up to the end of its pass. */
  ghost predicate UntilRest(c: Config, s: State, ls: seq<Label>)
    decreases |ls|
  {
    if ls == [] then s.monitor.Resting?
    else !s.monitor.Resting? && ls[0].ByMonitor? && Enabled(c, s, ls[0]) && UntilRest(c, Apply(c, s, ls[0]), ls[1..])
  }

  lemma {:induction false} SoloRun(c: Config, m: Register, listed: set<ContainerId>, outs: seq<StartOutcome>, s: State,
                                   ls: seq<Label>)
    returns (all: seq<StartOutcome>)
    requires Underway(c, m, listed, outs, s) && m.Keys <= s.pool.used && UntilRest(c, s, ls)
    ensures Runs(c, s, ls) && FreshIds(all, m.Keys)
    ensures Adjusted(c.maxWorkers, all, Restrict(m, Kept(m, listed)), After(c, s, ls).pool.containers)
    decreases |ls|
  {
    if ls == [] {
      all := outs;
    } else {
      var a, s' := ls[0].monitor, Apply(c, s, ls[0]);
      SoloStep(c, m, listed, outs, s, a);
      MonitorSteps.MonitorUses(c, s, a);
      all := SoloRun(c, m, listed, outs + Outcome(s, a), s', ls[1..]);
    }
  }

  /**
   Refinement: a pass of the concurrent monitor in which nobody else moves relates the register before and
   after exactly as CheckHealth of the sequential class does.
   */
  lemma SoloPassIsHealthPass(c: Config, s: State, ids: seq<ContainerId>, ls: seq<Label>)
    returns (outcomes: seq<StartOutcome>)
    requires s.monitor.Listing? && !s.crashed && s.pool.containers.Keys <= s.pool.used
    requires UntilRest(c, Apply(c, s, ByMonitor(List(ids))), ls)
    ensures Runs(c, Apply(c, s, ByMonitor(List(ids))), ls) && FreshIds(outcomes, s.pool.containers.Keys)
    ensures HealthPass(c.maxWorkers, Entries(ids), outcomes, s.pool.containers,
                       After(c, Apply(c, s, ByMonitor(List(ids))), ls).pool.containers)
  {
    var m, listed, s' := s.pool.containers, (set id | id in ids), Apply(c, s, ByMonitor(List(ids)));
    outcomes := SoloRun(c, m, listed, [], s', ls);
    KeptAreRunning(m, ids);
  }
}
