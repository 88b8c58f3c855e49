/** Runs: the joint invariant holds all along, and runs can be put together. */
module RunProofs {
  import opened Bags
  import opened Machine
  import opened Invariants
  import WorkerSteps
  import MonitorSteps
  import CallerSteps

  /** Every step of every thread keeps the joint invariant. */
  lemma StepKeeps(c: Config, s: State, l: Label)
    requires Inv(c, s) && Enabled(c, s, l)
    ensures Inv(c, Apply(c, s, l))
  {
    match l
    case ByWorker(w, a) => WorkerSteps.WorkerKeeps(c, s, w, a);
    case ByMonitor(a) => MonitorSteps.MonitorKeeps(c, s, a);
    case ByRemoval(id, a) => MonitorSteps.RemovalKeeps(c, s, id, a);
    case ByCloser => MonitorSteps.CloserKeeps(c, s);
    case ByCaller(k, a) => CallerSteps.CallerKeeps(c, s, k, a);
  }

  lemma InitCounts(c: Config, s: State)
    requires Init(c, s)
    ensures Held(s) == multiset{} && InFlight(s) == multiset{} && Awaited(s) == multiset{}
  {
    GatherNothing(HeldBy, s.workers);
    GatherNothing(JobOf, s.workers);
    GatherNothing(BlockedOn, s.callers);
  }

  lemma InitHolds(c: Config, s: State)
    requires Init(c, s)
    ensures Inv(c, s)
  {
    InitThreads(c, s);
    InitPool(c, s);
    InitJobs(c, s);
  }

  lemma InitThreads(c: Config, s: State)
    requires Init(c, s)
    ensures LockInv(s) && RetryInv(s) && OpenInv(s) && MonitorInv(c, s) && ErrorInv(s) && ResultInv(s)
  {
  }

  lemma InitPool(c: Config, s: State)
    requires Init(c, s)
    ensures PoolInv(c, s)
  {
    InitCounts(c, s);
  }

  lemma InitJobs(c: Config, s: State)
    requires Init(c, s)
    ensures JobInv(c, s)
  {
    InitCounts(c, s);
    assert OnTheWay(s) == multiset{} == Accounted(s);
  }

  lemma {:induction false} RunKeeps(c: Config, s: State, ls: seq<Label>)
    requires Inv(c, s) && Runs(c, s, ls)
    ensures Inv(c, After(c, s, ls))
    decreases |ls|
  {
    if ls != [] {
      StepKeeps(c, s, ls[0]);
      RunKeeps(c, Apply(c, s, ls[0]), ls[1..]);
    }
  }

  lemma ReachableInv(c: Config, s: State)
    requires Reachable(c, s)
    ensures Inv(c, s)
  {
    var s0, ls :| Init(c, s0) && Runs(c, s0, ls) && After(c, s0, ls) == s;
    InitHolds(c, s0);
    RunKeeps(c, s0, ls);
  }

  // ---------------------------------------------------------------- composing runs

  lemma {:induction false} RunsAppend(c: Config, s: State, ls: seq<Label>, more: seq<Label>)
    requires Runs(c, s, ls) && Runs(c, After(c, s, ls), more)
    ensures Runs(c, s, ls + more) && After(c, s, ls + more) == After(c, After(c, s, ls), more)
    decreases |ls|
  {
    if ls == [] {
      assert ls + more == more;
    } else {
      RunsAppend(c, Apply(c, s, ls[0]), ls[1..], more);
      AppendStep(c, s, ls, more, ls + more);
    }
  }

  lemma AppendStep(c: Config, s: State, ls: seq<Label>, more: seq<Label>, all: seq<Label>)
    requires ls != [] && all == ls + more && Enabled(c, s, ls[0]) && Runs(c, Apply(c, s, ls[0]), ls[1..] + more)
    ensures Runs(c, s, all) && After(c, s, all) == After(c, Apply(c, s, ls[0]), ls[1..] + more)
  {
    assert all[0] == ls[0] && all[1..] == ls[1..] + more;
  }

  lemma OneStep(c: Config, s: State, l: Label)
    requires Enabled(c, s, l)
    ensures Runs(c, s, [l]) && After(c, s, [l]) == Apply(c, s, l)
  {
    assert [l][1..] == [];
    assert Runs(c, Apply(c, s, l), []);
  }

  /** A run is made one step longer. */
  lemma RunsThen(c: Config, s: State, ls: seq<Label>, l: Label) returns (longer: seq<Label>)
    requires Runs(c, s, ls) && Enabled(c, After(c, s, ls), l)
    ensures longer == ls + [l]
    ensures Runs(c, s, longer) && After(c, s, longer) == Apply(c, After(c, s, ls), l)
  {
    OneStep(c, After(c, s, ls), l);
    RunsAppend(c, s, ls, [l]);
    longer := ls + [l];
  }

  lemma StaysReachable(c: Config, s: State, ls: seq<Label>)
    requires Reachable(c, s) && Runs(c, s, ls)
    ensures Reachable(c, After(c, s, ls))
  {
    var s0, before :| Init(c, s0) && Runs(c, s0, before) && After(c, s0, before) == s;
    RunsAppend(c, s0, before, ls);
  }

  lemma NextReachable(c: Config, s: State, l: Label)
    requires Reachable(c, s) && Enabled(c, s, l)
    ensures Reachable(c, Apply(c, s, l))
  {
    OneStep(c, s, l);
    StaysReachable(c, s, [l]);
  }

  lemma StartReachable(c: Config, s: State)
    requires Init(c, s)
    ensures Reachable(c, s)
  {
    assert Runs(c, s, []) && After(c, s, []) == s;
  }
}
