/**
 The health check reads the register twice for each listed id, without the mutex: once for the id's
 presence and once for its state. An id deleted in between makes the second read dereference nil.
 */
module Crash {
  import opened Types
  import opened Machine
  import opened CallerSteps
  import opened RunProofs
  import WorkerSteps
  import MonitorSteps

  /** The monitor is between its two reads and the id it is looking up has left the register. */
  predicate CursorDeleted(s: State) {
    s.monitor.Rereading? && s.monitor.todo != [] && s.monitor.todo[0] !in s.pool.containers
  }

  /** The process can go down in its next step exactly while the id under the cursor is deleted. */
  lemma CrashesExactlyWhenCursorDeleted(c: Config, s: State)
    requires Reachable(c, s) && !s.crashed
    ensures (exists l :: Enabled(c, s, l) && Apply(c, s, l).crashed) <==> CursorDeleted(s)
  {
    if CursorDeleted(s) {
      var l := ByMonitor(Reread);
      assert Enabled(c, s, l) && Apply(c, s, l).crashed;
    }
    forall l | Enabled(c, s, l) && !CursorDeleted(s) ensures !Apply(c, s, l).crashed {
      StaysUp(c, s, l);
    }
  }

  lemma StaysUp(c: Config, s: State, l: Label)
    requires Enabled(c, s, l) && !CursorDeleted(s)
    ensures !Apply(c, s, l).crashed
  {
    match l
    case ByWorker(w, a) =>
    case ByMonitor(a) =>
    case ByRemoval(id, a) =>
    case ByCloser =>
    case ByCaller(k, a) =>
  }

  /**
   The steps that delete ids while the monitor is reading: asynchronous removals and the clearing step of Shutdown.
   */
  predicate Deletes(s: State, l: Label) {
    (l.ByRemoval? && l.removal.MapDelete?) || (l.ByCloser? && s.closer.Clearing?)
  }

  ghost predicate NoDeletes(c: Config, s: State, ls: seq<Label>)
    requires Runs(c, s, ls)
    decreases |ls|
  {
    ls == [] || (!Deletes(s, ls[0]) && NoDeletes(c, Apply(c, s, ls[0]), ls[1..]))
  }

  /** The cursor only enters its second read at an id the first one found. */
  lemma MonitorCursor(c: Config, s: State, a: MonitorAct)
    requires MonitorEnabled(s, a) && !CursorDeleted(s)
    ensures !CursorDeleted(MonitorApply(c, s, a))
  {
  }

  lemma WorkerCursor(s: State, w: nat, a: WorkerAct)
    requires WorkerEnabled(s, w, a) && !CursorDeleted(s)
    ensures !CursorDeleted(WorkerApply(s, w, a))
  {
    WorkerSteps.WorkerFrame(s, w, a);
    WorkerSteps.WorkerRegisters(s, w, a);
  }

  lemma CursorStays(c: Config, s: State, l: Label)
    requires Enabled(c, s, l) && !Deletes(s, l) && !CursorDeleted(s)
    ensures !CursorDeleted(Apply(c, s, l))
  {
    match l
    case ByWorker(w, a) => WorkerCursor(s, w, a);
    case ByMonitor(a) => MonitorCursor(c, s, a);
    case ByRemoval(id, a) =>
    case ByCloser =>
    case ByCaller(k, a) => CallerFrame(c, s, k, a);
  }

  /** A run without asynchronous removals in which Shutdown does not clear the register never crashes. */
  lemma {:induction false} NoCrashWithoutDeletes(c: Config, s: State, ls: seq<Label>)
    requires Runs(c, s, ls) && !s.crashed && !CursorDeleted(s) && NoDeletes(c, s, ls)
    ensures !After(c, s, ls).crashed
    decreases |ls|
  {
    if ls != [] {
      StaysUp(c, s, ls[0]);
      CursorStays(c, s, ls[0]);
      NoCrashWithoutDeletes(c, Apply(c, s, ls[0]), ls[1..]);
    }
  }

  // ---------------------------------------------------------------- without callers

  /** Nobody has asked for anything: workers wait, nothing is submitted, no removal is on its way. */
  ghost predicate Dormant(s: State) {
    && s.closer.Open? && |s.callers| == 0 && s.ledger.queue == []
    && (forall w: nat :: w < |s.workers| ==> s.workers[w].Waiting?)
    && s.pool.watchers == s.pool.removing == s.pool.deleting == multiset{}
  }

  lemma DormantMonitor(c: Config, s: State, a: MonitorAct)
    requires Dormant(s) && MonitorEnabled(s, a)
    ensures Dormant(MonitorApply(c, s, a))
  {
    MonitorSteps.MonitorFrame(c, s, a);
  }

  lemma {:induction false} DormantStaysUp(c: Config, s: State, ls: seq<Label>)
    requires Runs(c, s, ls) && ByCloser !in ls && Dormant(s) && !s.crashed && !CursorDeleted(s)
    ensures !After(c, s, ls).crashed
    decreases |ls|
  {
    if ls != [] {
      var l := ls[0];
      assert l.ByMonitor?;
      DormantMonitor(c, s, l.monitor);
      StaysUp(c, s, l);
      CursorStays(c, s, l);
      DormantStaysUp(c, Apply(c, s, l), ls[1..]);
    }
  }

  // ---------------------------------------------------------------- with a caller: a container to lease

  lemma {:induction false} LongerThanAll(used: set<ContainerId>) returns (n: nat)
    ensures forall id <- used :: |id.hash| < n
  {
    if used == {} {
      n := 0;
    } else {
      var id :| id in used;
      n := LongerThanAll(used - {id});
      n := if n <= |id.hash| then |id.hash| + 1 else n;
    }
  }

  lemma UnusedId(used: set<ContainerId>) returns (id: ContainerId)
    ensures id !in used
  {
    var n := LongerThanAll(used);
    id := ContainerId(seq(n, _ => '0'));
  }

  function Marked(stale: set<ContainerId>): Monitor {
    Removing({}, {}, stale, 0)
  }

  lemma PurgeOne(c: Config, s: State, stale: set<ContainerId>, id: ContainerId) returns (ls: seq<Label>)
    requires !s.crashed && s.monitor == Marked(stale) && id in stale
    ensures Runs(c, s, ls) && ByCloser !in ls
    ensures After(c, s, ls) == s.(monitor := Marked(stale - {id}),
      pool := s.pool.(containers := s.pool.containers - {id}))
  {
    ls := RunsThen(c, s, [], ByMonitor(DockerRemove(id)));
    ls := RunsThen(c, s, ls, ByMonitor(Delete));
  }

  /** The monitor removes everything it has marked. */
  lemma {:induction false} Purge(c: Config, s: State, stale: set<ContainerId>) returns (ls: seq<Label>)
    requires !s.crashed && s.monitor == Marked(stale)
    ensures Runs(c, s, ls) && ByCloser !in ls
    ensures After(c, s, ls) == s.(monitor := Marked({}), pool := s.pool.(containers := s.pool.containers - stale))
    decreases |stale|
  {
    if stale == {} {
      ls := [];
      assert s.pool.containers - stale == s.pool.containers;
    } else {
      var id :| id in stale;
      ls := PurgeOne(c, s, stale, id);
      var more := Purge(c, After(c, s, ls), stale - {id});
      RunsAppend(c, s, ls, more);
      ls := ls + more;
      assert s.pool.containers - {id} - (stale - {id}) == s.pool.containers - stale;
    }
  }

  lemma FailOne(c: Config, s: State, left: int) returns (ls: seq<Label>)
    requires !s.crashed && s.monitor == Starting(left) && left > 0 && s.mu.None?
    ensures Runs(c, s, ls) && ByCloser !in ls
    ensures After(c, s, ls) == s.(monitor := Starting(left - 1))
  {
    ls := RunsThen(c, s, [], ByMonitor(NextStart));
    ls := RunsThen(c, s, ls, ByMonitor(Guard));
    if |s.pool.containers.Keys| < c.maxWorkers {
      ls := RunsThen(c, s, ls, ByMonitor(CreateFails));
    }
  }

  /** The rest of the counted loop, with every creation failing. */
  lemma {:induction false} GiveUpStarting(c: Config, s: State, left: int) returns (ls: seq<Label>)
    requires !s.crashed && s.monitor == Starting(left) && s.mu.None?
    ensures Runs(c, s, ls) && ByCloser !in ls
    ensures After(c, s, ls) == s.(monitor := Resting, passes := s.passes + 1)
    decreases left
  {
    if left <= 0 {
      ls := RunsThen(c, s, [], ByMonitor(NextStart));
    } else {
      ls := FailOne(c, s, left);
      var s' := s.(monitor := Starting(left - 1));
      var more := GiveUpStarting(c, s', left - 1);
      RunsAppend(c, s, ls, more);
      ls := ls + more;
    }
  }

  /** The guard lets an attempt through. */
  lemma Attempt(c: Config, s: State) returns (ls: seq<Label>)
    requires !s.crashed && s.monitor.Starting? && s.monitor.left > 0 && s.mu.None?
    requires |s.pool.containers.Keys| < c.maxWorkers
    ensures Runs(c, s, ls) && ByCloser !in ls
    ensures After(c, s, ls) == s.(monitor := Creating(s.monitor.left))
  {
    ls := RunsThen(c, s, [], ByMonitor(NextStart));
    ls := RunsThen(c, s, ls, ByMonitor(Guard));
  }

  lemma RegisterOne(c: Config, s: State, left: int, id: ContainerId) returns (ls: seq<Label>)
    requires !s.crashed && s.monitor == Registering(left, id) && s.mu.None?
    ensures Runs(c, s, ls) && ByCloser !in ls
    ensures var pool := s.pool.(containers := s.pool.containers[id := Idle], used := s.pool.used + {id});
      After(c, s, ls) == s.(monitor := Starting(left - 1), pool := pool)
  {
    var locked := s.(monitor := Inserting(left, id), mu := Some(MonitorThread));
    ls := RunsThen(c, s, [], ByMonitor(LockInsert));
    assert After(c, s, ls) == locked;
    ls := RunsThen(c, s, ls, ByMonitor(Insert));
  }

  /** Docker creates a container and it is registered. */
  lemma CreateOne(c: Config, s: State, left: int, id: ContainerId) returns (ls: seq<Label>)
    requires !s.crashed && s.monitor == Creating(left) && s.mu.None? && id !in s.pool.used
    ensures Runs(c, s, ls) && ByCloser !in ls
    ensures var pool := s.pool.(containers := s.pool.containers[id := Idle], used := s.pool.used + {id});
      After(c, s, ls) == s.(monitor := Starting(left - 1), pool := pool)
  {
    ls := RunsThen(c, s, [], ByMonitor(Create(id)));
    var s' := s.(monitor := Registering(left, id));
    assert After(c, s, ls) == s';
    var more := RegisterOne(c, s', left, id);
    RunsAppend(c, s, ls, more);
    ls := ls + more;
  }

  /** A health check that docker gives an empty list marks every container. */
  lemma MarkAll(c: Config, s: State) returns (ls: seq<Label>)
    requires !s.crashed && s.monitor.Resting? && s.mu.None?
    ensures Runs(c, s, ls) && ByCloser !in ls
    ensures After(c, s, ls) == s.(monitor := Marked(s.pool.containers.Keys))
  {
    ls := RunsThen(c, s, [], ByMonitor(Tick));
    ls := RunsThen(c, s, ls, ByMonitor(List([])));
    ls := RunsThen(c, s, ls, ByMonitor(LockSweep));
    ls := RunsThen(c, s, ls, ByMonitor(Sweep));
    var none: seq<ContainerId> := [];
    assert (set id | id in none) == {};
    assert s.pool.containers.Keys - {} == s.pool.containers.Keys;
  }

  /** The same health check up to its decision: the pool is empty, and everything is to be started. */
  lemma Drain(c: Config, s: State) returns (ls: seq<Label>)
    requires !s.crashed && s.monitor.Resting? && s.mu.None? && c.maxWorkers >= 1
    ensures Runs(c, s, ls) && ByCloser !in ls
    ensures After(c, s, ls) == s.(monitor := Starting(c.maxWorkers), pool := s.pool.(containers := map[]))
  {
    ls := MarkAll(c, s);
    var more := Purge(c, After(c, s, ls), s.pool.containers.Keys);
    RunsAppend(c, s, ls, more);
    ls := ls + more;
    assert After(c, s, ls) == s.(monitor := Marked({}), pool := s.pool.(containers := map[]));
    ls := RunsThen(c, s, ls, ByMonitor(Branch));
  }

  /** Whatever the pool holds, a health check can leave it with a new Idle container and nothing else changed. */
  lemma Refill(c: Config, s: State) returns (ls: seq<Label>, id: ContainerId)
    requires !s.crashed && s.monitor.Resting? && s.mu.None? && c.maxWorkers >= 1
    ensures Runs(c, s, ls) && ByCloser !in ls
    ensures After(c, s, ls) == s.(passes := s.passes + 1,
      pool := s.pool.(containers := map[id := Idle], used := s.pool.used + {id}))
  {
    id := UnusedId(s.pool.used);
    ls := Drain(c, s);
    var more := Attempt(c, After(c, s, ls));
    RunsAppend(c, s, ls, more);
    ls := ls + more;
    more := CreateOne(c, After(c, s, ls), c.maxWorkers, id);
    RunsAppend(c, s, ls, more);
    ls := ls + more;
    more := GiveUpStarting(c, After(c, s, ls), c.maxWorkers - 1);
    RunsAppend(c, s, ls, more);
    ls := ls + more;
  }

  // ---------------------------------------------------------------- and the collision

  /** Deleting an id the monitor has just found present. */
  lemma Collide(c: Config, s0: State, id: ContainerId) returns (ls: seq<Label>)
    requires !s0.crashed && s0.monitor.Resting? && id in s0.pool.containers && id in s0.pool.deleting
    ensures Runs(c, s0, ls) && ByCloser !in ls && After(c, s0, ls).crashed
  {
    ls := RunsThen(c, s0, [], ByMonitor(Tick));
    ls := RunsThen(c, s0, ls, ByMonitor(List([id])));
    ls := RunsThen(c, s0, ls, ByMonitor(Look));
    ls := RunsThen(c, s0, ls, ByRemoval(id, MapDelete));
    ls := RunsThen(c, s0, ls, ByMonitor(Reread));
  }

  /** A job is handed to a worker, which is given container `id`. */
  lemma FirstLease(c: Config, s0: State, id: ContainerId) returns (ls: seq<Label>)
    requires !s0.crashed && s0.monitor.Resting? && s0.mu.None? && s0.closer.Open? && s0.ledger.queue == []
    requires |s0.workers| >= 1 && s0.workers[0].Waiting? && |s0.callers| >= 1 && s0.callers[0].Free?
    requires |s0.ledger.jobs| == 0 && id in s0.pool.containers && s0.pool.containers[id] == Idle
    ensures Runs(c, s0, ls) && ByCloser !in ls
    ensures var s := After(c, s0, ls);
      && !s.crashed && s.monitor.Resting? && s.mu.None? && id in s.pool.containers
      && |s.workers| >= 1 && s.workers[0] == Acquired(0, id) && |s.ledger.jobs| == 1
        && s.ledger.jobs[0].language == "go"
  {
    ls := RunsThen(c, s0, [], ByCaller(0, Handoff(Job("go", ""), 0)));
    ls := RunsThen(c, s0, ls, ByWorker(0, LockPool));
    ls := RunsThen(c, s0, ls, ByWorker(0, Hit(id)));
  }

  /** Its execution starts, watched. */
  lemma Start(c: Config, s0: State, id: ContainerId) returns (ls: seq<Label>)
    requires !s0.crashed && s0.monitor.Resting? && s0.mu.None? && id in s0.pool.containers
    requires |s0.workers| >= 1 && s0.workers[0] == Acquired(0, id)
    requires |s0.ledger.jobs| == 1 && s0.ledger.jobs[0].language == "go"
    ensures Runs(c, s0, ls) && ByCloser !in ls
    ensures var s := After(c, s0, ls);
      !s.crashed && s.monitor.Resting? && id in s.pool.containers && id in s.pool.watchers
  {
    ls := RunsThen(c, s0, [], ByWorker(0, LockBusy));
    ls := RunsThen(c, s0, ls, ByWorker(0, MarkBusy));
    ls := RunsThen(c, s0, ls, ByWorker(0, Launch));
  }

  /** The watcher reports a surge: the removal has come as far as the map delete. */
  lemma Surge(c: Config, s0: State, id: ContainerId) returns (ls: seq<Label>)
    requires !s0.crashed && s0.monitor.Resting? && id in s0.pool.containers && id in s0.pool.watchers
    ensures Runs(c, s0, ls) && ByCloser !in ls
    ensures var s := After(c, s0, ls);
      !s.crashed && s.monitor.Resting? && id in s.pool.containers && id in s.pool.deleting
  {
    ls := RunsThen(c, s0, [], ByRemoval(id, WatcherFires));
    ls := RunsThen(c, s0, ls, ByRemoval(id, DockerDone));
  }

  /** An initial pool can be brought to hold an Idle container before anything is submitted. */
  lemma IdleFirst(c: Config, s0: State) returns (ls: seq<Label>, id: ContainerId)
    requires Init(c, s0)
    ensures Runs(c, s0, ls) && ByCloser !in ls
    ensures var s := After(c, s0, ls);
      && !s.crashed && s.monitor.Resting? && s.mu.None? && s.closer.Open? && s.ledger == s0.ledger
      && s.workers == s0.workers && s.callers == s0.callers && id in s.pool.containers && s.pool.containers[id] == Idle
  {
    if NoneIdle(s0.pool.containers) {
      ls, id := Refill(c, s0);
    } else {
      ls := [];
      id :| id in s0.pool.containers && s0.pool.containers[id] == Idle;
    }
  }

  /** The crash is real: from every initial pool a single caller's job can bring the process down. */
  lemma CrashHappens(c: Config, s0: State) returns (ls: seq<Label>)
    requires Init(c, s0) && c.callers >= 1
    ensures Runs(c, s0, ls) && ByCloser !in ls && After(c, s0, ls).crashed
  {
    var id;
    ls, id := IdleFirst(c, s0);
    var more := FirstLease(c, After(c, s0, ls), id);
    RunsAppend(c, s0, ls, more);
    ls := ls + more;
    more := Start(c, After(c, s0, ls), id);
    RunsAppend(c, s0, ls, more);
    ls := ls + more;
    more := Surge(c, After(c, s0, ls), id);
    RunsAppend(c, s0, ls, more);
    ls := ls + more;
    more := Collide(c, After(c, s0, ls), id);
    RunsAppend(c, s0, ls, more);
    ls := ls + more;
  }

  /** An engine that is not shut down can crash exactly if somebody may call it. */
  lemma CrashNeedsACaller(c: Config, s0: State)
    requires Init(c, s0)
    ensures (exists ls :: Runs(c, s0, ls) && ByCloser !in ls && After(c, s0, ls).crashed) <==> c.callers >= 1
  {
    if c.callers >= 1 {
      var ls := CrashHappens(c, s0);
    } else {
      forall ls | Runs(c, s0, ls) && ByCloser !in ls ensures !After(c, s0, ls).crashed {
        DormantStaysUp(c, s0, ls);
      }
    }
  }
}
