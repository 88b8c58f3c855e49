/** Accepted jobs are answered: a measure that workers use up, and a step for as long as it is not. */
module Liveness {
  import opened Types
  import opened Bags
  import opened Machine
  import opened Invariants
  import opened CallerSteps
  import opened RunProofs
  import opened Safety
  import opened JobSafety
  import WorkerSteps
  import MonitorSteps

  const QUEUED := 20

  /** More than the number of steps a worker can still take before it is back at its select. */
  function Rank(p: Worker): nat {
    match p
    case Waiting => 0
    case Requesting(_) => 19
    case Scanning(_, pass) => if pass <= MAX_RETRIES then 18 - pass else 8
    case Acquired(_, _) => 7
    case MarkingBusy(_, _) => 6
    case Launching(_, _) => 5
    case Running(_, _) => 4
    case Returned(_, _, _) => 3
    case MarkingIdle(_, _, _) => 2
    case Answering(_, _) => 1
    case Exited => 0
  }

  ghost function Work(s: State): nat {
    QUEUED * |s.ledger.queue| + Total(Rank, s.workers)
  }

  lemma RankFalls(s: State, w: nat, a: WorkerAct)
    requires WorkerEnabled(s, w, a) && s.closer.Open?
    ensures var p, p' := s.workers[w], WorkerApply(s, w, a).workers[w];
      if a.Dequeue? then Rank(p) == 0 && Rank(p') < QUEUED else Rank(p') < Rank(p)
  {
  }

  /** Every step of a worker uses up work. */
  lemma WorkerStepWorks(s: State, w: nat, a: WorkerAct)
    requires WorkerEnabled(s, w, a) && s.closer.Open?
    ensures Work(WorkerApply(s, w, a)) < Work(s)
  {
    var s' := WorkerApply(s, w, a);
    WorkerSteps.WorkerFrame(s, w, a);
    WorkerSteps.WorkerFiles(s, w, a);
    RankFalls(s, w, a);
    TotalUpdate(Rank, s.workers, w, s'.workers[w]);
  }

  /** An accepted submission adds a bounded amount of work, and no other caller step adds any. */
  lemma CallerStepWorks(c: Config, s: State, k: nat, a: CallerAct)
    requires CallerEnabled(c, s, k, a)
    ensures Work(CallerApply(c, s, k, a)) <= Work(s) + if a.Submit? || a.Handoff? then QUEUED else 0
  {
    CallerFrame(c, s, k, a);
    if a.Handoff? {
      TotalUpdate(Rank, s.workers, a.w, Requesting(|s.ledger.jobs|));
    }
  }

  predicate Accepts(l: Label) {
    l.ByCaller? && (l.caller.Submit? || l.caller.Handoff?)
  }

  lemma StepWorks(c: Config, s: State, l: Label)
    requires Enabled(c, s, l) && s.closer.Open? && !l.ByCloser?
    ensures Apply(c, s, l).closer.Open?
    ensures Work(Apply(c, s, l)) + (if l.ByWorker? then 1 else 0) <= Work(s) + if Accepts(l) then QUEUED else 0
  {
    match l
    case ByWorker(w, a) =>
      WorkerSteps.WorkerFrame(s, w, a);
      WorkerStepWorks(s, w, a);
    case ByMonitor(a) => MonitorSteps.MonitorFrame(c, s, a);
    case ByRemoval(id, a) =>
    case ByCaller(k, a) =>
      CallerFrame(c, s, k, a);
      CallerStepWorks(c, s, k, a);
  }

  ghost function Count(p: Label -> bool, ls: seq<Label>): nat {
    if ls == [] then 0 else (if p(ls[0]) then 1 else 0) + Count(p, ls[1..])
  }

  /**
   Before Shutdown, workers cannot take more steps in a run than the work at its start plus what the
   run's own submissions bring: monitor passes, watchers and removals never make work.
   */
  lemma {:induction false} WorkerStepsAreBounded(c: Config, s: State, ls: seq<Label>)
    requires Runs(c, s, ls) && s.closer.Open? && ByCloser !in ls
    ensures After(c, s, ls).closer.Open?
    ensures Work(After(c, s, ls)) + Count((l: Label) => l.ByWorker?, ls) <= Work(s) + QUEUED * Count(Accepts, ls)
    decreases |ls|
  {
    if ls != [] {
      StepWorks(c, s, ls[0]);
      WorkerStepsAreBounded(c, Apply(c, s, ls[0]), ls[1..]);
    }
  }

  // ---------------------------------------------------------------- progress

  ghost predicate Drained(s: State) {
    s.ledger.queue == [] && forall w, j :: !Handles(s, w, j)
  }

  ghost predicate CanStep(c: Config, s: State, w: nat) {
    exists a :: Enabled(c, s, ByWorker(w, a))
  }

  ghost predicate WorkerCanMove(c: Config, s: State) {
    exists w: nat :: CanStep(c, s, w)
  }

  /** The step a worker takes next once the mutex, if it needs it, is free. */
  function NextAct(s: State, p: Worker): WorkerAct {
    match p
    case Waiting => Dequeue
    case Requesting(_) => LockPool
    case Scanning(_, pass) => if pass >= MAX_RETRIES then GiveUp else Miss
    case Acquired(_, _) => LockBusy
    case MarkingBusy(_, _) => MarkBusy
    case Launching(_, _) => Launch
    case Running(_, _) => Finish("", None)
    case Returned(_, _, _) => LockIdle
    case MarkingIdle(_, _, _) => MarkIdle
    case Answering(_, _) => Answer
    case Exited => SeeShutdown
  }

  lemma BusyWorkerMoves(c: Config, s: State, w: nat)
    requires JobInv(c, s) && !s.crashed && w < |s.workers| && !s.workers[w].Waiting? && !s.workers[w].Exited?
    requires s.mu.None? || WorkerLocks(s.workers[w])
    ensures CanStep(c, s, w)
  {
    JobAlone(c, s, w);
    var p := s.workers[w];
    if p.Scanning? && p.pass < MAX_RETRIES && !NoneIdle(s.pool.containers) {
      var id :| id in s.pool.containers && s.pool.containers[id] == Idle;
      assert Enabled(c, s, ByWorker(w, Hit(id)));
    } else {
      assert Enabled(c, s, ByWorker(w, NextAct(s, p)));
    }
  }

  lemma SomebodyMoves(c: Config, s: State)
    requires LockInv(s) && JobInv(c, s) && OpenInv(s) && |s.workers| >= 1
    requires s.closer.Open? && !s.crashed && !Drained(s)
    ensures WorkerCanMove(c, s) || s.mu == Some(MonitorThread)
  {
    if s.mu.Some? && s.mu.value.WorkerThread? {
      BusyWorkerMoves(c, s, s.mu.value.w);
    } else if s.mu.None? {
      if w: nat :| w < |s.workers| && !s.workers[w].Waiting? {
        BusyWorkerMoves(c, s, w);
      } else {
        assert forall w, j :: !Handles(s, w, j);
        assert Enabled(c, s, ByWorker(0, Dequeue)) && CanStep(c, s, 0);
      }
    }
  }

  /** The monitor has a step that releases the mutex. */
  ghost predicate MonitorCanRelease(c: Config, s: State) {
    exists a :: Enabled(c, s, ByMonitor(a)) && s.mu == Some(MonitorThread) && MonitorApply(c, s, a).mu.None?
  }

  lemma MonitorReleases(c: Config, s: State)
    requires LockInv(s) && MonitorInv(c, s) && !s.crashed && s.mu == Some(MonitorThread)
    ensures MonitorCanRelease(c, s)
  {
    var a := if s.monitor.Sweeping? then Sweep else if s.monitor.Guarding? then Guard else Insert;
    assert Enabled(c, s, ByMonitor(a)) && MonitorApply(c, s, a).mu.None?;
  }

  /**
   While an accepted job is unanswered some worker can move, unless the monitor holds the mutex, and then the
   monitor can release it at once.
   */
  lemma Progress(c: Config, s: State)
    requires Reachable(c, s) && !s.crashed && s.closer.Open? && !Drained(s)
    ensures WorkerCanMove(c, s) || MonitorCanRelease(c, s)
  {
    assert LockInv(s) && JobInv(c, s) && OpenInv(s) && MonitorInv(c, s) && |s.workers| >= 1 by {
      ReachableInv(c, s);
    }
    SomebodyMoves(c, s);
    if s.mu == Some(MonitorThread) {
      MonitorReleases(c, s);
    }
  }

  // ---------------------------------------------------------------- infinite runs

  ghost predicate Linked(c: Config, st: nat -> State, lb: nat -> Label, i: nat) {
    Enabled(c, st(i), lb(i)) && st(i + 1) == Apply(c, st(i), lb(i))
  }

  ghost predicate Trace(c: Config, st: nat -> State, lb: nat -> Label) {
    Reachable(c, st(0)) && forall i: nat :: Linked(c, st, lb, i)
  }

  /** From `i` on nothing is submitted and Shutdown is not called. */
  ghost predicate QuietFrom(st: nat -> State, lb: nat -> Label, i: nat) {
    st(i).closer.Open? && forall k: nat :: i <= k ==> !Accepts(lb(k)) && !lb(k).ByCloser?
  }

  /** Either a worker steps, or no worker can, not even once the monitor has released the mutex. */
  ghost predicate Turn(c: Config, s: State, l: Label) {
    l.ByWorker? || !(WorkerCanMove(c, s) || s.mu == Some(MonitorThread))
  }

  ghost predicate TurnAfter(c: Config, st: nat -> State, lb: nat -> Label, i: nat) {
    exists j: nat :: i <= j && Turn(c, st(j), lb(j))
  }

  /** Executions end and workers are scheduled: they are not passed over for ever. */
  ghost predicate Fair(c: Config, st: nat -> State, lb: nat -> Label) {
    forall i: nat :: TurnAfter(c, st, lb, i)
  }

  lemma {:induction false} TraceReaches(c: Config, st: nat -> State, lb: nat -> Label, i: nat)
    requires Trace(c, st, lb)
    ensures Reachable(c, st(i))
  {
    if i > 0 {
      TraceReaches(c, st, lb, i - 1);
      assert Linked(c, st, lb, i - 1);
      NextReachable(c, st(i - 1), lb(i - 1));
    }
  }

  lemma TraceKeeps(c: Config, st: nat -> State, lb: nat -> Label, i: nat)
    requires Trace(c, st, lb)
    ensures Inv(c, st(i))
  {
    TraceReaches(c, st, lb, i);
    ReachableInv(c, st(i));
  }

  lemma QuietStep(c: Config, st: nat -> State, lb: nat -> Label, i: nat)
    requires Trace(c, st, lb) && QuietFrom(st, lb, i)
    ensures QuietFrom(st, lb, i + 1)
    ensures Work(st(i + 1)) + (if lb(i).ByWorker? then 1 else 0) <= Work(st(i))
  {
    assert Linked(c, st, lb, i);
    StepWorks(c, st(i), lb(i));
  }

  lemma {:induction false} QuietWorks(c: Config, st: nat -> State, lb: nat -> Label, i: nat, j: nat)
    requires Trace(c, st, lb) && QuietFrom(st, lb, i) && i <= j
    ensures QuietFrom(st, lb, j) && Work(st(j)) <= Work(st(i))
    decreases j - i
  {
    if i < j {
      QuietStep(c, st, lb, i);
      QuietWorks(c, st, lb, i + 1, j);
    }
  }

  /**
   Drain: in every fair infinite run, once nothing more is submitted, there comes a moment at which the
   channel is empty and no worker has a job in hand.
   */
  lemma {:induction false} EventuallyDrained(c: Config, st: nat -> State, lb: nat -> Label, i: nat) returns (d: nat)
    requires Trace(c, st, lb) && Fair(c, st, lb) && QuietFrom(st, lb, i)
    ensures i <= d && Drained(st(d))
    decreases Work(st(i))
  {
    assert TurnAfter(c, st, lb, i);
    var j: nat :| i <= j && Turn(c, st(j), lb(j));
    QuietWorks(c, st, lb, i, j);
    if lb(j).ByWorker? {
      QuietStep(c, st, lb, j);
      d := EventuallyDrained(c, st, lb, j + 1);
    } else {
      d := j;
      if !Drained(st(j)) {
        TraceKeeps(c, st, lb, j);
        assert Linked(c, st, lb, j);
        SomebodyMoves(c, st(j));
        assert false;
      }
    }
  }

  /** And at that moment every accepted job has its answer. */
  lemma AllAnswered(c: Config, st: nat -> State, lb: nat -> Label, i: nat) returns (d: nat)
    requires Trace(c, st, lb) && Fair(c, st, lb) && QuietFrom(st, lb, i)
    ensures i <= d
    ensures forall j: JobId :: j < |st(d).ledger.jobs| && j !in st(d).ledger.rejected ==>
      exists r :: HasAnswer(st(d), j, r)
  {
    d := EventuallyDrained(c, st, lb, i);
    TraceKeeps(c, st, lb, d);
    var s := st(d);
    forall j: JobId | j < |s.ledger.jobs| && j !in s.ledger.rejected ensures exists r :: HasAnswer(s, j, r) {
      OnePlace(c, s, j);
      assert !At(s, j, Queued) && !At(s, j, InHand) && !At(s, j, Rejected);
      if j in s.ledger.slots {
        assert HasAnswer(s, j, s.ledger.slots[j]);
      } else {
        assert At(s, j, Answered) || At(s, j, Delivered);
        assert HasAnswer(s, j, s.ledger.delivered[j]);
      }
    }
  }
}
