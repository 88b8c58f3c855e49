/**
 If every single worker is treated fairly, every accepted job is answered, however many jobs keep coming: the
 channel is first in, first out, and each worker comes back to it.
 */
module Fairness {
  import opened Types
  import opened Bags
  import opened Machine
  import opened Invariants
  import opened CallerSteps
  import opened JobSafety
  import opened Safety
  import opened Liveness
  import Locks
  import WorkerSteps
  import MonitorSteps

  /** Shutdown is never called. Submissions are not restricted. */
  ghost predicate NeverShut(st: nat -> State, lb: nat -> Label) {
    st(0).closer.Open? && forall i: nat :: !lb(i).ByCloser?
  }

  predicate StepOf(l: Label, w: nat) {
    l.ByWorker? && l.w == w
  }

  ghost predicate StepsAfter(lb: nat -> Label, w: nat, i: nat) {
    exists k: nat :: i <= k && StepOf(lb(k), w)
  }

  ghost predicate CanAfter(c: Config, st: nat -> State, w: nat, i: nat) {
    exists k: nat :: i <= k && CanStep(c, st(k), w)
  }

  /**
   A worker that again and again could step, does step again and again: executions end, and no mutex or
   channel starves it.
   */
  ghost predicate FairTo(c: Config, st: nat -> State, lb: nat -> Label, w: nat) {
    (forall i: nat :: CanAfter(c, st, w, i)) ==> forall i: nat :: StepsAfter(lb, w, i)
  }

  ghost predicate MonitorAfter(lb: nat -> Label, i: nat) {
    exists k: nat :: i <= k && lb(k).ByMonitor?
  }

  /** Fair to each worker, and to the monitor while it holds the mutex. */
  ghost predicate FairToEach(c: Config, st: nat -> State, lb: nat -> Label) {
    && (forall w: nat :: FairTo(c, st, lb, w))
    && (forall i: nat :: st(i).mu == Some(MonitorThread) ==> MonitorAfter(lb, i))
  }

  ghost predicate FairRun(c: Config, st: nat -> State, lb: nat -> Label) {
    Trace(c, st, lb) && NeverShut(st, lb) && FairToEach(c, st, lb)
  }

  lemma OpenStep(c: Config, st: nat -> State, lb: nat -> Label, i: nat)
    requires Trace(c, st, lb) && !lb(i).ByCloser? && st(i).closer.Open?
    ensures st(i + 1).closer.Open?
  {
    assert Linked(c, st, lb, i);
    StepWorks(c, st(i), lb(i));
  }

  lemma {:induction false} StaysOpen(c: Config, st: nat -> State, lb: nat -> Label, i: nat)
    requires Trace(c, st, lb) && NeverShut(st, lb)
    ensures st(i).closer.Open?
  {
    if i > 0 {
      StaysOpen(c, st, lb, i - 1);
      OpenStep(c, st, lb, i - 1);
    }
  }

  lemma At(c: Config, st: nat -> State, lb: nat -> Label, i: nat)
    requires Trace(c, st, lb) && NeverShut(st, lb)
    ensures Inv(c, st(i)) && st(i).closer.Open? && !st(i).crashed
  {
    TraceKeeps(c, st, lb, i);
    StaysOpen(c, st, lb, i);
    assert Linked(c, st, lb, i);
  }

  // ---------------------------------------------------------------- the mutex becomes free again and again

  lemma MutexStep(c: Config, st: nat -> State, lb: nat -> Label, i: nat)
    requires Trace(c, st, lb) && NeverShut(st, lb) && st(i).mu.Some?
    ensures if Locks.TakenBy(st(i).mu.value, lb(i)) then Locks.HoldRank(st(i + 1)) < Locks.HoldRank(st(i))
            else st(i + 1).mu == st(i).mu && Locks.HoldRank(st(i + 1)) == Locks.HoldRank(st(i))
  {
    At(c, st, lb, i);
    assert Linked(c, st, lb, i);
    Locks.HoldRankFalls(c, st(i), lb(i));
  }

  lemma {:induction false} OwnerStays(c: Config, st: nat -> State, lb: nat -> Label, w: nat, i: nat, j: nat)
    requires Trace(c, st, lb) && NeverShut(st, lb) && st(i).mu == Some(WorkerThread(w)) && !StepsAfter(lb, w, i)
      && i <= j
    ensures st(j).mu == st(i).mu
    decreases j - i
  {
    if i < j {
      OwnerStays(c, st, lb, w, i, j - 1);
      assert !StepOf(lb(j - 1), w);
      MutexStep(c, st, lb, j - 1);
    }
  }

  lemma OwnerCan(c: Config, s: State, w: nat)
    requires Inv(c, s) && !s.crashed && s.mu == Some(WorkerThread(w))
    ensures CanStep(c, s, w)
  {
    Locks.OwnerEnabled(c, s);
    var l :| Locks.TakenBy(s.mu.value, l) && Enabled(c, s, l);
    assert Enabled(c, s, ByWorker(w, l.worker));
  }

  lemma OwnerSteps(c: Config, st: nat -> State, lb: nat -> Label, w: nat, i: nat)
    requires FairRun(c, st, lb) && st(i).mu == Some(WorkerThread(w))
    ensures StepsAfter(lb, w, i)
  {
    assert FairTo(c, st, lb, w);
    if !StepsAfter(lb, w, i) {
      forall j: nat ensures CanAfter(c, st, w, j) {
        var k := if i <= j then j else i;
        OwnerStays(c, st, lb, w, i, k);
        At(c, st, lb, k);
        OwnerCan(c, st(k), w);
      }
    }
  }

  /** The owner's next step finds the mutex as it left it. */
  lemma {:induction false} FirstOwnerStep(c: Config, st: nat -> State, lb: nat -> Label, t: Thread, i: nat, k: nat)
    returns (j: nat)
    requires Trace(c, st, lb) && NeverShut(st, lb) && st(i).mu == Some(t) && i <= k && Locks.TakenBy(t, lb(k))
    ensures i <= j && Locks.TakenBy(t, lb(j)) && st(j).mu == Some(t) && Locks.HoldRank(st(j)) == Locks.HoldRank(st(i))
    decreases k - i
  {
    if Locks.TakenBy(t, lb(i)) {
      j := i;
    } else {
      MutexStep(c, st, lb, i);
      j := FirstOwnerStep(c, st, lb, t, i + 1, k);
    }
  }

  lemma OwnerMovesOn(c: Config, st: nat -> State, lb: nat -> Label, t: Thread, i: nat) returns (k: nat)
    requires FairRun(c, st, lb) && st(i).mu == Some(t)
    ensures i <= k && Locks.TakenBy(t, lb(k))
  {
    match t
    case WorkerThread(w) =>
      OwnerSteps(c, st, lb, w, i);
      k :| i <= k && StepOf(lb(k), w);
    case MonitorThread =>
      assert MonitorAfter(lb, i);
      k :| i <= k && lb(k).ByMonitor?;
    case CloserThread =>
      At(c, st, lb, i);
      assert false;
  }

  lemma {:induction false} FreeAgain(c: Config, st: nat -> State, lb: nat -> Label, i: nat) returns (k: nat)
    requires FairRun(c, st, lb)
    ensures i <= k && st(k).mu.None?
    decreases Locks.HoldRank(st(i))
  {
    if st(i).mu.None? {
      k := i;
    } else {
      var t := st(i).mu.value;
      k := OwnerMovesOn(c, st, lb, t, i);
      k := FirstOwnerStep(c, st, lb, t, i, k);
      MutexStep(c, st, lb, k);
      k := FreeAgain(c, st, lb, k + 1);
    }
  }

  // ---------------------------------------------------------------- a busy worker comes back

  ghost predicate InPhase(s: State, w: nat, p: Worker) {
    w < |s.workers| && s.workers[w] == p
  }

  lemma OthersLeavePhase(c: Config, s: State, l: Label, w: nat, p: Worker)
    requires Enabled(c, s, l) && InPhase(s, w, p) && !p.Waiting? && !StepOf(l, w)
    ensures InPhase(Apply(c, s, l), w, p)
  {
    match l
    case ByWorker(v, a) => WorkerSteps.WorkerFrame(s, v, a);
    case ByMonitor(a) => MonitorSteps.MonitorFrame(c, s, a);
    case ByRemoval(id, a) =>
    case ByCloser =>
    case ByCaller(k, a) => CallerFrame(c, s, k, a);
  }

  lemma PhaseStep(c: Config, st: nat -> State, lb: nat -> Label, w: nat, p: Worker, i: nat)
    requires Trace(c, st, lb) && InPhase(st(i), w, p) && !p.Waiting? && !StepOf(lb(i), w)
    ensures InPhase(st(i + 1), w, p)
  {
    assert Linked(c, st, lb, i);
    OthersLeavePhase(c, st(i), lb(i), w, p);
  }

  lemma {:induction false} PhaseStays(c: Config, st: nat -> State, lb: nat -> Label, w: nat, p: Worker, i: nat, j: nat)
    requires Trace(c, st, lb) && InPhase(st(i), w, p) && !p.Waiting? && !StepsAfter(lb, w, i) && i <= j
    ensures InPhase(st(j), w, p)
    decreases j - i
  {
    if i < j {
      PhaseStays(c, st, lb, w, p, i, j - 1);
      assert !StepOf(lb(j - 1), w);
      PhaseStep(c, st, lb, w, p, j - 1);
    }
  }

  lemma FreeCan(c: Config, s: State, w: nat, p: Worker)
    requires Inv(c, s) && !s.crashed && InPhase(s, w, p) && !p.Waiting? && !p.Exited? && s.mu.None?
    ensures CanStep(c, s, w)
  {
    BusyWorkerMoves(c, s, w);
  }

  lemma BusySteps(c: Config, st: nat -> State, lb: nat -> Label, w: nat, p: Worker, i: nat)
    requires FairRun(c, st, lb) && InPhase(st(i), w, p) && !p.Waiting? && !p.Exited?
    ensures StepsAfter(lb, w, i)
  {
    assert FairTo(c, st, lb, w);
    if !StepsAfter(lb, w, i) {
      forall j: nat ensures CanAfter(c, st, w, j) {
        var k := FreeAgain(c, st, lb, if i <= j then j else i);
        PhaseStays(c, st, lb, w, p, i, k);
        At(c, st, lb, k);
        FreeCan(c, st(k), w, p);
      }
    }
  }

  lemma {:induction false} FirstStep(c: Config, st: nat -> State, lb: nat -> Label, w: nat, p: Worker, i: nat, k: nat)
    returns (j: nat)
    requires Trace(c, st, lb) && InPhase(st(i), w, p) && !p.Waiting? && i <= k && StepOf(lb(k), w)
    ensures i <= j && StepOf(lb(j), w) && InPhase(st(j), w, p)
    decreases k - i
  {
    if StepOf(lb(i), w) {
      j := i;
    } else {
      PhaseStep(c, st, lb, w, p, i);
      j := FirstStep(c, st, lb, w, p, i + 1, k);
    }
  }

  /** A step of a busy worker brings it closer to its select, with its job in hand or answered. */
  lemma OwnStep(c: Config, st: nat -> State, lb: nat -> Label, w: nat, p: Worker, i: nat)
    requires Trace(c, st, lb) && NeverShut(st, lb) && InPhase(st(i), w, p) && !p.Waiting? && StepOf(lb(i), w)
    ensures w < |st(i + 1).workers| && Rank(st(i + 1).workers[w]) < Rank(p)
    ensures forall j :: j in JobOf(p) ==> j in JobOf(st(i + 1).workers[w]) || j in st(i + 1).ledger.slots
  {
    At(c, st, lb, i);
    assert Linked(c, st, lb, i);
    RankFalls(st(i), w, lb(i).worker);
    WorkerSteps.WorkerFrame(st(i), w, lb(i).worker);
    WorkerSteps.WorkerHandles(st(i), w, lb(i).worker);
  }

  lemma NotExited(c: Config, st: nat -> State, lb: nat -> Label, w: nat, i: nat)
    requires Trace(c, st, lb) && NeverShut(st, lb) && w < |st(i).workers|
    ensures !st(i).workers[w].Exited?
  {
    At(c, st, lb, i);
  }

  /** The next step of a busy worker. */
  lemma NextStep(c: Config, st: nat -> State, lb: nat -> Label, w: nat, i: nat) returns (k: nat)
    requires FairRun(c, st, lb) && w < |st(i).workers| && !st(i).workers[w].Waiting?
    ensures i < k && w < |st(k).workers| && Rank(st(k).workers[w]) < Rank(st(i).workers[w])
    ensures forall j :: j in JobOf(st(i).workers[w]) ==> j in JobOf(st(k).workers[w]) || j in st(k).ledger.slots
  {
    var p := st(i).workers[w];
    NotExited(c, st, lb, w, i);
    BusySteps(c, st, lb, w, p, i);
    k :| i <= k && StepOf(lb(k), w);
    k := FirstStep(c, st, lb, w, p, i, k);
    OwnStep(c, st, lb, w, p, k);
    k := k + 1;
  }

  lemma {:induction false} ComesBack(c: Config, st: nat -> State, lb: nat -> Label, w: nat, i: nat) returns (k: nat)
    requires FairRun(c, st, lb) && w < |st(i).workers|
    ensures i <= k && InPhase(st(k), w, Waiting)
    decreases Rank(st(i).workers[w])
  {
    if st(i).workers[w].Waiting? {
      k := i;
    } else {
      k := NextStep(c, st, lb, w, i);
      k := ComesBack(c, st, lb, w, k);
    }
  }

  /** And it answers its job on the way. */
  lemma {:induction false} JobInHandIsAnswered(c: Config, st: nat -> State, lb: nat -> Label, w: nat, i: nat, j: JobId)
    returns (d: nat)
    requires FairRun(c, st, lb) && Handles(st(i), w, j)
    ensures i <= d && j in st(d).ledger.slots
    decreases Rank(st(i).workers[w])
  {
    d := NextStep(c, st, lb, w, i);
    if j !in st(d).ledger.slots {
      d := JobInHandIsAnswered(c, st, lb, w, d, j);
    }
  }

  // ---------------------------------------------------------------- the channel moves

  /** What has been accepted and what has been taken from the channel only grows. */
  ghost predicate Moved(g: Ledger, g': Ledger) {
    g.accepted <= g'.accepted && g.dequeued <= g'.dequeued
  }

  lemma StepMoves(c: Config, s: State, l: Label)
    requires Enabled(c, s, l)
    ensures Moved(s.ledger, Apply(c, s, l).ledger)
  {
    match l
    case ByWorker(w, a) => WorkerSteps.WorkerFiles(s, w, a);
    case ByMonitor(a) => MonitorSteps.MonitorFrame(c, s, a);
    case ByRemoval(id, a) =>
    case ByCloser =>
    case ByCaller(k, a) =>
  }

  lemma MoveStep(c: Config, st: nat -> State, lb: nat -> Label, i: nat)
    requires Trace(c, st, lb)
    ensures Moved(st(i).ledger, st(i + 1).ledger)
  {
    assert Linked(c, st, lb, i);
    StepMoves(c, st(i), lb(i));
  }

  lemma {:induction false} RunMoves(c: Config, st: nat -> State, lb: nat -> Label, i: nat, j: nat)
    requires Trace(c, st, lb) && i <= j
    ensures Moved(st(i).ledger, st(j).ledger)
    decreases j - i
  {
    if i < j {
      RunMoves(c, st, lb, i, j - 1);
      MoveStep(c, st, lb, j - 1);
    }
  }

  /** A waiting worker waits on as long as nothing leaves the channel. */
  lemma StepWaits(c: Config, s: State, l: Label, w: nat)
    requires Enabled(c, s, l) && s.closer.Open? && InPhase(s, w, Waiting)
    requires |Apply(c, s, l).ledger.dequeued| == |s.ledger.dequeued|
    ensures InPhase(Apply(c, s, l), w, Waiting)
  {
    match l
    case ByWorker(v, a) =>
      WorkerSteps.WorkerFrame(s, v, a);
      WorkerSteps.WorkerFiles(s, v, a);
    case ByMonitor(a) => MonitorSteps.MonitorFrame(c, s, a);
    case ByRemoval(id, a) =>
    case ByCloser =>
    case ByCaller(k, a) => CallerFrame(c, s, k, a);
  }

  lemma WaitStep(c: Config, st: nat -> State, lb: nat -> Label, w: nat, i: nat)
    requires Trace(c, st, lb) && NeverShut(st, lb) && InPhase(st(i), w, Waiting)
    requires |st(i + 1).ledger.dequeued| == |st(i).ledger.dequeued|
    ensures InPhase(st(i + 1), w, Waiting) && !StepOf(lb(i), w)
  {
    At(c, st, lb, i);
    assert Linked(c, st, lb, i);
    StepWaits(c, st(i), lb(i), w);
    if lb(i).ByWorker? {
      WorkerSteps.WorkerFiles(st(i), lb(i).w, lb(i).worker);
    }
  }

  lemma {:induction false} WaitsOn(c: Config, st: nat -> State, lb: nat -> Label, w: nat, i: nat, j: nat)
    requires Trace(c, st, lb) && NeverShut(st, lb) && i <= j && InPhase(st(i), w, Waiting)
    requires |st(j).ledger.dequeued| == |st(i).ledger.dequeued|
    ensures InPhase(st(j), w, Waiting)
    decreases j - i
  {
    if i < j {
      RunMoves(c, st, lb, i, j - 1);
      MoveStep(c, st, lb, j - 1);
      WaitsOn(c, st, lb, w, i, j - 1);
      WaitStep(c, st, lb, w, j - 1);
    }
  }

  ghost predicate TakenAfter(st: nat -> State, i: nat, n: nat) {
    exists k: nat :: i <= k && |st(k).ledger.dequeued| > n
  }

  lemma NothingTaken(c: Config, st: nat -> State, lb: nat -> Label, i: nat, k: nat)
    requires Trace(c, st, lb) && i <= k && !TakenAfter(st, i, |st(i).ledger.dequeued|)
    ensures |st(k).ledger.dequeued| == |st(i).ledger.dequeued| && st(i).ledger.accepted <= st(k).ledger.accepted
  {
    RunMoves(c, st, lb, i, k);
    assert |st(k).ledger.dequeued| <= |st(i).ledger.dequeued|;
  }

  /** As long as nothing is taken the waiting worker 0 could take the job at the head, and does not. */
  lemma StillWaiting(c: Config, st: nat -> State, lb: nat -> Label, i: nat, k: nat)
    requires Trace(c, st, lb) && NeverShut(st, lb) && InPhase(st(i), 0, Waiting) && i <= k
    requires |st(i).ledger.dequeued| < |st(i).ledger.accepted| && !TakenAfter(st, i, |st(i).ledger.dequeued|)
    ensures CanStep(c, st(k), 0) && !StepOf(lb(k), 0)
  {
    NothingTaken(c, st, lb, i, k);
    NothingTaken(c, st, lb, i, k + 1);
    WaitsOn(c, st, lb, 0, i, k);
    WaitStep(c, st, lb, 0, k);
    At(c, st, lb, k);
    assert Enabled(c, st(k), ByWorker(0, Dequeue));
  }

  /** While the channel holds a job, some job leaves it sooner or later. */
  lemma SomeJobIsTaken(c: Config, st: nat -> State, lb: nat -> Label, i: nat)
    requires FairRun(c, st, lb) && InPhase(st(i), 0, Waiting) && |st(i).ledger.dequeued| < |st(i).ledger.accepted|
    ensures TakenAfter(st, i, |st(i).ledger.dequeued|)
  {
    assert FairTo(c, st, lb, 0);
    if !TakenAfter(st, i, |st(i).ledger.dequeued|) {
      forall k: nat | i <= k ensures CanStep(c, st(k), 0) && !StepOf(lb(k), 0) {
        StillWaiting(c, st, lb, i, k);
      }
      assert !StepsAfter(lb, 0, i);
      forall j: nat ensures CanAfter(c, st, 0, j) {
        var k := if i <= j then j else i;
        assert CanStep(c, st(k), 0);
      }
    }
  }

  /** The job that was accepted as number `n` leaves the channel. */
  lemma {:induction false} IsTaken(c: Config, st: nat -> State, lb: nat -> Label, i: nat, n: nat) returns (k: nat)
    requires FairRun(c, st, lb) && n < |st(i).ledger.accepted|
    ensures i <= k && n < |st(k).ledger.dequeued|
    decreases n - |st(i).ledger.dequeued|
  {
    if n < |st(i).ledger.dequeued| {
      k := i;
    } else {
      At(c, st, lb, i);
      k := ComesBack(c, st, lb, 0, i);
      RunMoves(c, st, lb, i, k);
      if |st(k).ledger.dequeued| <= n {
        SomeJobIsTaken(c, st, lb, k);
        var next: nat :| k <= next && |st(next).ledger.dequeued| > |st(k).ledger.dequeued|;
        RunMoves(c, st, lb, k, next);
        k := IsTaken(c, st, lb, next, n);
      }
    }
  }

  // ---------------------------------------------------------------- every job

  /** A job taken from the channel is with a worker or already answered. */
  lemma TakenIsServed(c: Config, s: State, n: nat)
    requires JobInv(c, s) && n < |s.ledger.dequeued|
    ensures var j := s.ledger.dequeued[n]; Served(s, j)
  {
    var g, j := s.ledger, s.ledger.dequeued[n];
    assert multiset(g.accepted) == multiset(g.dequeued) + multiset(g.queue);
    assert j in multiset(g.dequeued) && j in multiset(g.accepted) + multiset(g.rejected);
    assert (multiset(g.accepted) + multiset(g.rejected))[j] <= 1;
    OnePlace(c, s, j);
  }

  ghost predicate Served(s: State, j: JobId) {
    (exists w :: Handles(s, w, j)) || j in s.ledger.slots || j in s.ledger.delivered
  }

  /** The place of an accepted job in the order of acceptance. */
  lemma AcceptedHasNumber(c: Config, s: State, j: JobId) returns (n: nat)
    requires JobInv(c, s) && j < |s.ledger.jobs| && j !in s.ledger.rejected
    ensures n < |s.ledger.accepted| && s.ledger.accepted[n] == j
  {
    var g := s.ledger;
    assert (multiset(g.accepted) + multiset(g.rejected))[j] == multiset(Below(|g.jobs|))[j] == 1;
    assert j in multiset(g.accepted) && j in g.accepted;
    n :| n < |g.accepted| && g.accepted[n] == j;
  }

  /** A job that has left the channel is answered. */
  lemma TakenIsAnswered(c: Config, st: nat -> State, lb: nat -> Label, i: nat, j: JobId) returns (d: nat)
    requires FairRun(c, st, lb) && Served(st(i), j)
    ensures i <= d && exists r :: HasAnswer(st(d), j, r)
  {
    d := i;
    if w :| Handles(st(i), w, j) {
      d := JobInHandIsAnswered(c, st, lb, w, i, j);
      assert HasAnswer(st(d), j, st(d).ledger.slots[j]);
    } else if j in st(i).ledger.slots {
      assert HasAnswer(st(i), j, st(i).ledger.slots[j]);
    } else {
      assert HasAnswer(st(i), j, st(i).ledger.delivered[j]);
    }
  }

  /** The job that is number `n` of those accepted is also number `n` of those taken. */
  lemma TakenInOrder(c: Config, st: nat -> State, lb: nat -> Label, i: nat, d: nat, n: nat)
    requires Trace(c, st, lb) && NeverShut(st, lb) && i <= d
    requires n < |st(i).ledger.accepted| && n < |st(d).ledger.dequeued|
    ensures Served(st(d), st(i).ledger.accepted[n])
  {
    RunMoves(c, st, lb, i, d);
    At(c, st, lb, d);
    assert st(d).ledger.accepted[n] == st(i).ledger.accepted[n] == st(d).ledger.dequeued[n];
    TakenIsServed(c, st(d), n);
  }

  /**
   No accepted job starves: in a run that is fair to each worker every accepted job is answered, while new
   jobs keep being submitted.
   */
  lemma EveryJobIsAnswered(c: Config, st: nat -> State, lb: nat -> Label, i: nat, j: JobId) returns (d: nat)
    requires FairRun(c, st, lb) && j < |st(i).ledger.jobs| && j !in st(i).ledger.rejected
    ensures i <= d && exists r :: HasAnswer(st(d), j, r)
  {
    assert JobInv(c, st(i)) by {
      At(c, st, lb, i);
    }
    var n := AcceptedHasNumber(c, st(i), j);
    d := IsTaken(c, st, lb, i, n);
    TakenInOrder(c, st, lb, i, d, n);
    d := TakenIsAnswered(c, st, lb, d, j);
  }
}
