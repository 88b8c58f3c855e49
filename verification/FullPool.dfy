/** What a full pool guarantees over whole runs: as long as nothing is deleted, no job goes without a container. */
module FullPools {
  import opened Types
  import Bags
  import opened Machine
  import opened Invariants
  import opened CallerSteps
  import opened RunProofs
  import opened Safety
  import opened JobSafety
  import WorkerSteps
  import MonitorSteps

  /** All places are taken and none of the containers is in state Error. */
  ghost predicate Full(c: Config, s: State) {
    |s.pool.containers.Keys| == c.maxWorkers && InState(s.pool.containers, Error) == {}
  }

  /**
   Steps that unregister a container: asynchronous removals, the monitor's removals, and the clearing step of Shutdown.
   */
  predicate Unregisters(s: State, l: Label) {
    || (l.ByRemoval? && l.removal.MapDelete?)
    || (l.ByMonitor? && l.monitor.Delete?)
    || (l.ByCloser? && s.closer.Clearing?)
  }

  ghost predicate NoneUnregistered(c: Config, s: State, ls: seq<Label>)
    requires Runs(c, s, ls)
    decreases |ls|
  {
    ls == [] || (!Unregisters(s, ls[0]) && NoneUnregistered(c, Apply(c, s, ls[0]), ls[1..]))
  }

  lemma WorkerKeepsKeys(s: State, w: nat, a: WorkerAct)
    requires WorkerEnabled(s, w, a)
    ensures WorkerApply(s, w, a).pool.containers.Keys == s.pool.containers.Keys
  {
    WorkerSteps.WorkerRegisters(s, w, a);
  }

  lemma MonitorKeepsKeys(c: Config, s: State, a: MonitorAct)
    requires MonitorInv(c, s) && MonitorEnabled(s, a) && !a.Delete?
    ensures s.pool.containers.Keys <= MonitorApply(c, s, a).pool.containers.Keys
  {
    MonitorSteps.MonitorRegisters(c, s, a);
  }

  lemma StepKeepsKeys(c: Config, s: State, l: Label)
    requires MonitorInv(c, s) && Enabled(c, s, l) && !Unregisters(s, l)
    ensures s.pool.containers.Keys <= Apply(c, s, l).pool.containers.Keys
  {
    match l
    case ByWorker(w, a) => WorkerKeepsKeys(s, w, a);
    case ByMonitor(a) => MonitorKeepsKeys(c, s, a);
    case ByRemoval(id, a) =>
    case ByCloser =>
    case ByCaller(k, a) => CallerFrame(c, s, k, a);
  }

  /** A full pool stays full: nothing leaves it, and there is no room for more. */
  lemma StepKeepsFull(c: Config, s: State, l: Label)
    requires PoolInv(c, s) && MonitorInv(c, s) && Full(c, s) && Enabled(c, s, l) && !Unregisters(s, l)
    requires |Apply(c, s, l).pool.containers.Keys| <= c.maxWorkers
    ensures Full(c, Apply(c, s, l))
  {
    StepKeepsKeys(c, s, l);
    StepDecays(c, s, l);
    Bags.SubsetSize(s.pool.containers.Keys, Apply(c, s, l).pool.containers.Keys);
  }

  // ---------------------------------------------------------------- nobody gives up

  /** Every job that is answered or about to be was given a container. */
  ghost predicate AllLeased(s: State) {
    && (forall w: nat :: w < |s.workers| && s.workers[w].Answering? ==> s.workers[w].j in s.ledger.leases)
    && (forall j <- s.ledger.slots :: j in s.ledger.leases)
    && (forall j <- s.ledger.delivered :: j in s.ledger.leases)
  }

  lemma NobodyGivesUp(c: Config, s: State, w: nat, a: WorkerAct)
    requires PoolInv(c, s) && RetryInv(s) && Full(c, s) && WorkerEnabled(s, w, a)
    ensures !a.GiveUp?
  {
    if a.GiveUp? {
      IdleLeft(c, s, w);
    }
  }

  lemma WorkerAnswersLeased(s: State, w: nat, a: WorkerAct)
    requires WorkerEnabled(s, w, a) && !a.GiveUp? && WorkerResultInv(s.ledger, w, s.workers[w])
    ensures var s' := WorkerApply(s, w, a);
      s'.workers[w].Answering? ==> s.workers[w].MarkingIdle? && s'.workers[w].j in s.ledger.leases
  {
  }

  lemma WorkerKeepsLeased(s: State, w: nat, a: WorkerAct)
    requires ResultInv(s) && AllLeased(s) && WorkerEnabled(s, w, a) && !a.GiveUp?
    ensures AllLeased(WorkerApply(s, w, a))
  {
    var s' := WorkerApply(s, w, a);
    WorkerSteps.WorkerFrame(s, w, a);
    WorkerSteps.WorkerFiles(s, w, a);
    WorkerAnswersLeased(s, w, a);
    assert s.ledger.leases.Keys <= s'.ledger.leases.Keys;
  }

  lemma CallerKeepsLeased(c: Config, s: State, k: nat, a: CallerAct)
    requires AllLeased(s) && CallerEnabled(c, s, k, a)
    ensures AllLeased(CallerApply(c, s, k, a))
  {
    CallerFrame(c, s, k, a);
  }

  lemma SameKeepLeased(s: State, s': State)
    requires AllLeased(s) && s'.workers == s.workers && s'.ledger == s.ledger
    ensures AllLeased(s')
  {
  }

  lemma StepKeepsLeased(c: Config, s: State, l: Label)
    requires PoolInv(c, s) && RetryInv(s) && ResultInv(s) && Full(c, s) && AllLeased(s) && Enabled(c, s, l)
    ensures AllLeased(Apply(c, s, l))
  {
    match l
    case ByWorker(w, a) =>
      NobodyGivesUp(c, s, w, a);
      WorkerKeepsLeased(s, w, a);
    case ByMonitor(a) =>
      MonitorSteps.MonitorFrame(c, s, a);
      SameKeepLeased(s, Apply(c, s, l));
    case ByRemoval(id, a) => SameKeepLeased(s, Apply(c, s, l));
    case ByCloser => SameKeepLeased(s, Apply(c, s, l));
    case ByCaller(k, a) => CallerKeepsLeased(c, s, k, a);
  }

  lemma StepStaysFull(c: Config, s: State, l: Label)
    requires Inv(c, s) && Full(c, s) && AllLeased(s) && Enabled(c, s, l) && !Unregisters(s, l)
    ensures var s' := Apply(c, s, l); Inv(c, s') && Full(c, s') && AllLeased(s')
  {
    StepKeeps(c, s, l);
    StepKeepsFull(c, s, l);
    StepKeepsLeased(c, s, l);
  }

  lemma {:induction false} StaysFull(c: Config, s: State, ls: seq<Label>)
    requires Inv(c, s) && Full(c, s) && AllLeased(s) && Runs(c, s, ls) && NoneUnregistered(c, s, ls)
    ensures var s' := After(c, s, ls); Inv(c, s') && Full(c, s') && AllLeased(s')
    decreases |ls|
  {
    if ls != [] {
      StepStaysFull(c, s, ls[0]);
      StaysFull(c, Apply(c, s, ls[0]), ls[1..]);
    }
  }

  lemma LeasedAnswer(s: State, j: JobId, r: Result)
    requires LedgerInv(s.ledger) && AllLeased(s) && HasAnswer(s, j, r)
    ensures r != NoContainer() && j in s.ledger.leases
  {
    assert Faithful(s.ledger, j, r);
  }

  /**
   From a full and healthy pool, no run in which nothing is unregistered answers any job with a missing
   container, however many callers there are and however the threads interleave.
   */
  lemma NoJobGoesWithout(c: Config, s0: State, ls: seq<Label>, j: JobId, r: Result)
    requires Init(c, s0) && Full(c, s0) && Runs(c, s0, ls) && NoneUnregistered(c, s0, ls)
    requires HasAnswer(After(c, s0, ls), j, r)
    ensures r != NoContainer() && j in After(c, s0, ls).ledger.leases
  {
    InitHolds(c, s0);
    StaysFull(c, s0, ls);
    LeasedAnswer(After(c, s0, ls), j, r);
  }
}
