/**
 The running engine as an object: a state of the concurrent machine, advanced by the steps of all its goroutines.
 A caller's ExecuteJob is two or three of these steps; between them the others do whatever they like.
 */
module Engines {
  import opened Types
  import opened PoolSpec
  import opened Reconcile
  import opened Machine
  import opened Invariants
  import opened RunProofs
  import opened JobSafety
  import opened Safety
  import opened Liveness
  import ContainerManagers
  import WorkerPools
  import WorkerSteps
  import MonitorSteps

  /** What a caller of ExecuteJob gets for its job: the answer sent to it, or the rejection. */
  ghost predicate Replied(s: State, j: JobId, r: Result) {
    HasAnswer(s, j, r) || (j in s.ledger.rejected && r == QueueFull())
  }

  // ---------------------------------------------------------------- what others leave alone

  predicate NotBy(k: nat, ls: seq<Label>) {
    forall l <- ls :: l.ByCaller? ==> l.k != k
  }

  lemma StepSparesCaller(c: Config, s: State, l: Label, k: nat)
    requires Enabled(c, s, l) && k < |s.callers| && (l.ByCaller? ==> l.k != k)
    ensures var s' := Apply(c, s, l); k < |s'.callers| && s'.callers[k] == s.callers[k]
  {
    match l
    case ByWorker(w, a) => WorkerSteps.WorkerFrame(s, w, a);
    case ByMonitor(a) => MonitorSteps.MonitorFrame(c, s, a);
    case ByRemoval(id, a) =>
    case ByCloser =>
    case ByCaller(i, a) =>
  }

  /** The history of submissions only grows. */
  ghost predicate Extends(g: Ledger, g': Ledger) {
    g.jobs <= g'.jobs && g.rejected <= g'.rejected
  }

  lemma StepExtends(c: Config, s: State, l: Label)
    requires Enabled(c, s, l)
    ensures Extends(s.ledger, Apply(c, s, l).ledger)
  {
    match l
    case ByWorker(w, a) => WorkerSteps.WorkerFiles(s, w, a);
    case ByMonitor(a) => MonitorSteps.MonitorFrame(c, s, a);
    case ByRemoval(id, a) =>
    case ByCloser =>
    case ByCaller(k, a) =>
  }

  /** The jobs a step submits. */
  function Submitted(l: Label): seq<Job> {
    if l.ByCaller? && !l.caller.Receive? then [l.caller.job] else []
  }

  lemma StepSubmits(c: Config, s: State, l: Label)
    requires Enabled(c, s, l)
    ensures Apply(c, s, l).ledger.jobs == s.ledger.jobs + Submitted(l)
  {
    match l
    case ByWorker(w, a) => WorkerSteps.WorkerFiles(s, w, a);
    case ByMonitor(a) => MonitorSteps.MonitorFrame(c, s, a);
    case ByRemoval(id, a) =>
    case ByCloser =>
    case ByCaller(k, a) =>
  }

  lemma {:induction false} OthersSpare(c: Config, s: State, ls: seq<Label>, k: nat)
    requires Runs(c, s, ls) && k < |s.callers| && NotBy(k, ls)
    ensures var s' := After(c, s, ls); Extends(s.ledger, s'.ledger) && k < |s'.callers| && s'.callers[k] == s.callers[k]
    decreases |ls|
  {
    if ls != [] {
      StepSparesCaller(c, s, ls[0], k);
      StepExtends(c, s, ls[0]);
      OthersSpare(c, Apply(c, s, ls[0]), ls[1..], k);
    }
  }

  // ---------------------------------------------------------------- a call of ExecuteJob

  /**
   One interleaving of a call: the others' steps up to the send on the job channel, the parked worker that
   receives the job directly if there is one, and the others' steps up to the answer.
   */
  datatype Schedule = Schedule(before: seq<Label>, receiver: Option<nat>, during: seq<Label>)

  /** The `select` of ExecuteJob: a parked receiver, else a place in the channel, else the default branch. */
  function Send(c: Config, s: State, receiver: Option<nat>, job: Job): CallerAct {
    if receiver.Some? then Handoff(job, receiver.value)
    else if |s.ledger.queue| < c.maxJobs then Submit(job)
    else Reject(job)
  }

  /** `sched` is an interleaving in which caller `k` is free to send and, unless it is rejected, is answered. */
  ghost predicate Fits(c: Config, s: State, k: nat, job: Job, sched: Schedule) {
    && k < |s.callers| && NotBy(k, sched.before) && Runs(c, s, sched.before)
    && var s1 := After(c, s, sched.before);
    var send := Send(c, s1, sched.receiver, job);
    && Enabled(c, s1, ByCaller(k, send))
    && (!send.Reject? ==>
          var s2 := Apply(c, s1, ByCaller(k, send));
          && NotBy(k, sched.during) && Runs(c, s2, sched.during)
          && var s3 := After(c, s2, sched.during);
          !s3.crashed && |s1.ledger.jobs| in s3.ledger.slots)
  }

  /** Worker `w` has job `j` in hand, and nothing keeps it from going on. */
  ghost predicate Unhindered(s: State, w: nat, j: JobId) {
    s.closer.Open? && !s.crashed && Handles(s, w, j) && (s.mu.None? || WorkerLocks(s.workers[w]))
  }

  lemma StepStaysUnhindered(s: State, w: nat, j: JobId, a: WorkerAct)
    requires LockInv(s) && Unhindered(s, w, j) && WorkerEnabled(s, w, a)
    ensures var s' := WorkerApply(s, w, a);
      && !s'.crashed && w < |s'.workers| && Rank(s'.workers[w]) < Rank(s.workers[w])
      && (j in s'.ledger.slots || Unhindered(s', w, j))
  {
    WorkerSteps.WorkerFrame(s, w, a);
    RankFalls(s, w, a);
    WorkerSteps.WorkerHandles(s, w, a);
    WorkerSteps.WorkerMutex(s, w, a);
  }

  lemma NextUnhindered(c: Config, s: State, w: nat, j: JobId) returns (a: WorkerAct)
    requires Reachable(c, s) && Unhindered(s, w, j)
    ensures WorkerEnabled(s, w, a)
    ensures var s' := WorkerApply(s, w, a);
      && !s'.crashed && w < |s'.workers| && Rank(s'.workers[w]) < Rank(s.workers[w])
      && (j in s'.ledger.slots || Unhindered(s', w, j))
  {
    assert LockInv(s) && JobInv(c, s) by {
      ReachableInv(c, s);
    }
    BusyWorkerMoves(c, s, w);
    a :| Enabled(c, s, ByWorker(w, a));
    StepStaysUnhindered(s, w, j, a);
  }

  /** With the mutex free or its own, a worker can finish its job without anybody else's help. */
  lemma {:induction false} FinishAlone(c: Config, s: State, w: nat, j: JobId) returns (ls: seq<Label>)
    requires Reachable(c, s) && Unhindered(s, w, j)
    ensures Runs(c, s, ls) && forall l <- ls :: l.ByWorker?
    ensures j in After(c, s, ls).ledger.slots && !After(c, s, ls).crashed
    decreases Rank(s.workers[w])
  {
    var a := NextUnhindered(c, s, w, j);
    var l := ByWorker(w, a);
    ls := [l];
    OneStep(c, s, l);
    NextReachable(c, s, l);
    if j !in Apply(c, s, l).ledger.slots {
      var more := FinishAlone(c, Apply(c, s, l), w, j);
      RunsAppend(c, s, ls, more);
      ls := ls + more;
    }
  }

  lemma HandedIsUnhindered(c: Config, s: State, k: nat, w: nat, job: Job)
    requires !s.crashed && s.closer.Open? && s.mu.None? && CallerEnabled(c, s, k, Handoff(job, w))
    ensures Unhindered(CallerApply(c, s, k, Handoff(job, w)), w, |s.ledger.jobs|)
  {
  }

  /** A call that meets a parked worker can complete. */
  lemma CallCanComplete(c: Config, s: State, k: nat, w: nat, job: Job) returns (sched: Schedule)
    requires Reachable(c, s) && !s.crashed && s.closer.Open? && s.mu.None? && s.ledger.queue == []
    requires k < |s.callers| && s.callers[k].Free? && w < |s.workers| && s.workers[w].Waiting?
    ensures Fits(c, s, k, job, sched)
  {
    var l := ByCaller(k, Handoff(job, w));
    HandedIsUnhindered(c, s, k, w, job);
    NextReachable(c, s, l);
    var during := FinishAlone(c, Apply(c, s, l), w, |s.ledger.jobs|);
    sched := Schedule([], Some(w), during);
  }

  class Engine {
    const config: Config
    var state: State

    ghost predicate Valid()
      reads this
    {
      Reachable(config, state)
    }

    constructor (config: Config, containers: Register)
      requires Launchable(config.maxWorkers, containers)
      ensures this.config == config && state == Boot(config, containers, containers.Keys)
      ensures Init(config, state) && Valid()
    {
      this.config := config;
      state := Boot(config, containers, containers.Keys);
      new;
      StartReachable(config, state);
    }

    /** One step of whichever goroutine the label names. */
    method Step(l: Label)
      requires Valid() && Enabled(config, state, l)
      modifies this`state
      ensures Valid() && state == Apply(config, old(state), l)
    {
      NextReachable(config, state, l);
      state := Apply(config, state, l);
    }

    method Steps(ls: seq<Label>)
      requires Valid() && Runs(config, state, ls)
      modifies this`state
      ensures Valid() && state == After(config, old(state), ls)
    {
      var rest := ls;
      while rest != []
        invariant Valid() && Runs(config, state, rest) && After(config, state, rest) == After(config, old(state), ls)
        decreases |rest|
      {
        Step(rest[0]);
        rest := rest[1..];
      }
    }

    /** The send of goroutine `k`: its job gets the next number, and `k` waits unless the job is rejected. */
    method Submit(k: nat, job: Job, receiver: Option<nat>) returns (ticket: JobId, rejected: bool)
      requires Valid() && Enabled(config, state, ByCaller(k, Send(config, state, receiver, job)))
      modifies this`state
      ensures Valid() && state == Apply(config, old(state), ByCaller(k, Send(config, old(state), receiver, job)))
      ensures ticket == |old(state).ledger.jobs| && state.ledger.jobs == old(state).ledger.jobs + [job]
      ensures Extends(old(state).ledger, state.ledger) && k < |state.callers|
      ensures rejected <==> Send(config, old(state), receiver, job).Reject?
      ensures if rejected then state.callers[k].Free? && ticket in state.ledger.rejected
              else state.callers[k] == Blocked(ticket)
    {
      ticket := |state.ledger.jobs|;
      var send := Send(config, state, receiver, job);
      StepExtends(config, state, ByCaller(k, send));
      StepSubmits(config, state, ByCaller(k, send));
      Step(ByCaller(k, send));
      rejected := send.Reject?;
    }

    /** The receive of goroutine `k`, after the others have taken the steps `during`. */
    method Await(k: nat, ticket: JobId, during: seq<Label>) returns (r: Result)
      requires Valid() && k < |state.callers| && state.callers[k] == Blocked(ticket)
      requires NotBy(k, during) && Runs(config, state, during)
      requires ticket in After(config, state, during).ledger.slots && !After(config, state, during).crashed
      modifies this`state
      ensures Valid() && Extends(old(state).ledger, state.ledger) && k < |state.callers| && state.callers[k].Free?
      ensures HasAnswer(state, ticket, r) && r != QueueFull() && ticket !in state.ledger.rejected
    {
      OthersSpare(config, state, during, k);
      Steps(during);
      r := state.ledger.slots[ticket];
      Receipt(config, state, k, r);
      StepExtends(config, state, ByCaller(k, Receive));
      Step(ByCaller(k, Receive));
    }

    /**
     ExecuteJob, called by goroutine `k`: the job is rejected at once or waits for its answer. Either way the
     job has a number of its own in the history, and what is returned is the reply to this job and no other.
     */
    method ExecuteJob(k: nat, language: string, code: string, sched: Schedule) returns (r: Result, ghost j: JobId)
      requires Valid() && Fits(config, state, k, Job(language, code), sched)
      modifies this`state
      ensures Valid() && Extends(old(state).ledger, state.ledger)
      ensures |old(state).ledger.jobs| <= j < |state.ledger.jobs| && state.ledger.jobs[j] == Job(language, code)
      ensures Replied(state, j, r) && k < |state.callers| && state.callers[k].Free?
      ensures r == QueueFull() <==> j in state.ledger.rejected
    {
      OthersSpare(config, state, sched.before, k);
      Steps(sched.before);
      var ticket, rejected := Submit(k, Job(language, code), sched.receiver);
      j := ticket;
      if rejected {
        return QueueFull(), j;
      }
      r := Await(k, ticket, sched.during);
    }
  }

  /** A received answer is one the workers gave, so it is not a rejection. */
  lemma Receipt(c: Config, s: State, k: nat, r: Result)
    requires Reachable(c, s) && k < |s.callers| && s.callers[k].Blocked?
    requires s.callers[k].j in s.ledger.slots && s.ledger.slots[s.callers[k].j] == r
    ensures r != QueueFull() && s.callers[k].j !in s.ledger.rejected
  {
    var j := s.callers[k].j;
    assert JobInv(c, s) && LedgerInv(s.ledger) by {
      ReachableInv(c, s);
    }
    assert Faithful(s.ledger, j, r);
    AnsweredIsDone(c, s, j, r);
  }

  /**
   NewWorkerPool: there is a pool exactly if its containers could be initialised, and then all goroutines
   have been started on what InitializePool left: the engine is in an initial state of the machine.
   */
  method NewWorkerPool(maxWorkers: int, maxJobCount: nat, callers: nat, listing: Option<seq<ListEntry>>,
                       outcomes: seq<StartOutcome>)
    returns (engine: Engine?, err: Option<ContainerManagers.ManagerError>)
    requires |outcomes| >= maxWorkers
    requires listing.Some? ==> FreshIds(outcomes, WorkerIds(listing.value))
    ensures err == if listing.None? then Some(ContainerManagers.ListFailed)
                   else if !ComesUp(maxWorkers, listing.value, outcomes) then Some(ContainerManagers.NoContainers)
                   else None
    ensures engine == null <==> err.Some?
    ensures engine != null ==>
      && fresh(engine) && engine.Valid() && Init(engine.config, engine.state)
      && maxWorkers >= 0 && engine.config == Config(maxWorkers, maxJobCount, callers) && listing.Some?
      && Adjusted(maxWorkers, outcomes, Registered(map[], listing.value), engine.state.pool.containers)
      && Initialised(maxWorkers, map[], listing.value, outcomes, engine.state.pool.containers)
  {
    var containerMgr := new ContainerManagers.ContainerManager(maxWorkers);
    if listing.Some? {
      RegisteredIs(map[], listing.value);
    }
    err := containerMgr.InitializePool(listing, outcomes);
    if listing.Some? {
      ComesUpExactly(maxWorkers, listing.value, outcomes, containerMgr.containers);
    }
    if err.Some? {
      return null, err;
    }
    WorkerPools.AdjustedLaunches(maxWorkers, listing.value, outcomes, containerMgr.containers);
    engine := new Engine(Config(maxWorkers, maxJobCount, callers), containerMgr.containers);
  }
}
