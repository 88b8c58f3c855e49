/** How often GetAvailableContainer looks before it gives up. */
module Scans {
  import opened Types
  import opened Machine
  import opened Invariants
  import opened CallerSteps
  import opened RunProofs
  import WorkerSteps
  import MonitorSteps

  /** The fruitless scans worker `w` has made since it last took the mutex to look for a container. */
  function Fruitless(n: nat, l: Label, w: nat): nat {
    if !(l.ByWorker? && l.w == w) then n
    else if l.worker.LockPool? then 0
    else if l.worker.Miss? then n + 1
    else n
  }

  function FruitlessAfter(n: nat, ls: seq<Label>, w: nat): nat
    decreases |ls|
  {
    if ls == [] then n else FruitlessAfter(Fruitless(n, ls[0], w), ls[1..], w)
  }

  ghost predicate Counted(s: State, w: nat, n: nat) {
    w < |s.workers| && s.workers[w].Scanning? ==> s.workers[w].pass == n
  }

  lemma WorkerCounts(s: State, v: nat, a: WorkerAct, w: nat, n: nat)
    requires WorkerEnabled(s, v, a) && Counted(s, w, n)
    ensures Counted(WorkerApply(s, v, a), w, Fruitless(n, ByWorker(v, a), w))
  {
    WorkerSteps.WorkerFrame(s, v, a);
    if v == w {
      OwnCounts(s, w, a, n);
    }
  }

  lemma OwnCounts(s: State, w: nat, a: WorkerAct, n: nat)
    requires WorkerEnabled(s, w, a) && Counted(s, w, n)
    ensures Counted(WorkerApply(s, w, a), w, Fruitless(n, ByWorker(w, a), w))
  {
  }

  lemma StepCounts(c: Config, s: State, l: Label, w: nat, n: nat)
    requires Enabled(c, s, l) && Counted(s, w, n)
    ensures Counted(Apply(c, s, l), w, Fruitless(n, l, w))
  {
    match l
    case ByWorker(v, a) => WorkerCounts(s, v, a, w, n);
    case ByMonitor(a) => MonitorSteps.MonitorFrame(c, s, a);
    case ByRemoval(id, a) =>
    case ByCloser =>
    case ByCaller(k, a) => CallerFrame(c, s, k, a);
  }

  lemma {:induction false} RunCounts(c: Config, s: State, ls: seq<Label>, w: nat, n: nat)
    requires Runs(c, s, ls) && Counted(s, w, n)
    ensures Counted(After(c, s, ls), w, FruitlessAfter(n, ls, w))
    decreases |ls|
  {
    if ls != [] {
      StepCounts(c, s, ls[0], w, n);
      RunCounts(c, Apply(c, s, ls[0]), ls[1..], w, Fruitless(n, ls[0], w));
    }
  }

  lemma MayGiveUp(s: State, w: nat, n: nat)
    requires RetryInv(s) && Counted(s, w, n) && w < |s.workers| && s.workers[w].Scanning?
    ensures WorkerEnabled(s, w, GiveUp) <==> n == 10
  {
  }

  /** A worker can give up exactly when it has made ten fruitless scans in a row, no fewer and no more. */
  lemma GivesUpAfterTenScans(c: Config, s0: State, ls: seq<Label>, w: nat)
    requires Init(c, s0) && Runs(c, s0, ls)
    requires w < |After(c, s0, ls).workers| && After(c, s0, ls).workers[w].Scanning?
    ensures WorkerEnabled(After(c, s0, ls), w, GiveUp) <==> FruitlessAfter(0, ls, w) == 10
  {
    RunCounts(c, s0, ls, w, 0);
    assert RetryInv(After(c, s0, ls)) by {
      InitHolds(c, s0);
      RunKeeps(c, s0, ls);
    }
    MayGiveUp(After(c, s0, ls), w, FruitlessAfter(0, ls, w));
  }
}
