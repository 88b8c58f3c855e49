/** The joint invariant of all threads, and the proof that every step keeps it. */
module Invariants {
  import opened Types
  import opened Bags
  import opened LanguageConfigs
  import opened Machine

  ghost function Held(s: State): multiset<ContainerId> { Gather(HeldBy, s.workers) }

  ghost function InFlight(s: State): multiset<JobId> { Gather(JobOf, s.workers) }

  ghost function Awaited(s: State): multiset<JobId> { Gather(BlockedOn, s.callers) }

  // ---------------------------------------------------------------- the invariant

  /** The mutex is owned by exactly the thread that stands in a locked phase. */
  ghost predicate LockInv(s: State) {
    && (forall w: nat :: w < |s.workers| ==> (WorkerLocks(s.workers[w]) <==> s.mu == Some(WorkerThread(w))))
    && (MonitorLocks(s.monitor) <==> s.mu == Some(MonitorThread))
    && (CloserLocks(s.closer) <==> s.mu == Some(CloserThread))
    && (s.mu.Some? && s.mu.value.WorkerThread? ==> s.mu.value.w < |s.workers|)
  }

  /** Registered ids fit, were seen before, and are Busy exactly while one worker holds them. */
  ghost predicate PoolInv(c: Config, s: State) {
    && 1 <= c.maxWorkers == |s.workers|
    && |s.pool.containers.Keys| <= c.maxWorkers
    && s.pool.containers.Keys <= s.pool.used
    && (forall id :: Held(s)[id] <= 1)
    && (forall id :: id in Held(s) ==> id in s.pool.used)
    && (forall id <- s.pool.containers :: s.pool.containers[id] == Busy <==> id in Held(s))
  }

  /** What the monitor's local snapshot says about the register that others keep changing. */
  ghost predicate MonitorInv(c: Config, s: State) {
    match s.monitor
    case Resting => true
    case Listing => true
    case Checking(listed, todo, running) => SnapshotInv(c, s, listed, todo, running)
    case Rereading(listed, todo, running) => todo != [] && SnapshotInv(c, s, listed, todo, running)
    case Sweeping(listed, running) => SnapshotInv(c, s, listed, [], running)
    case Removing(listed, running, stale, count) => StaleInv(c, s, listed, running, stale)
    case Deleting(listed, running, stale, count, id) => id in stale && StaleInv(c, s, listed, running, stale)
    case Starting(_) => InState(s.pool.containers, Error) == {}
    case Guarding(_) => InState(s.pool.containers, Error) == {}
    case Creating(_) => InState(s.pool.containers, Error) == {} && |s.pool.containers.Keys| < c.maxWorkers
    case Registering(_, id) => NewInv(c, s, id)
    case Inserting(_, id) => NewInv(c, s, id)
    case Excess(_) => false
    case Trimming(_) => false
  }

  /**
   While listing entries are being looked up: every listed, registered, healthy id looked up so far is in `running`.
   */
  ghost predicate SnapshotInv(c: Config, s: State, listed: set<ContainerId>, todo: seq<ContainerId>,
                              running: set<ContainerId>) {
    && |running + s.pool.containers.Keys| <= c.maxWorkers
    && (forall id <- running :: id in s.pool.containers ==> s.pool.containers[id] != Error)
    && (forall id <- listed :: id in s.pool.containers && s.pool.containers[id] != Error ==>
      id in todo || id in running)
  }

  /** Ids marked for removal were not listed or are in state Error; all Error entries are marked. */
  ghost predicate StaleInv(c: Config, s: State, listed: set<ContainerId>, running: set<ContainerId>,
                           stale: set<ContainerId>) {
    && |running| <= c.maxWorkers
    && (forall id <- stale :: id in s.pool.containers && id in listed ==> s.pool.containers[id] == Error)
    && InState(s.pool.containers, Error) <= stale
  }

  /** A container docker has just created: room is kept for it and nobody knows it yet. */
  ghost predicate NewInv(c: Config, s: State, id: ContainerId) {
    && InState(s.pool.containers, Error) == {}
    && |s.pool.containers.Keys| < c.maxWorkers
    && id !in s.pool.used
  }

  ghost predicate ErrorInv(s: State) {
    s.passes > 0 ==> InState(s.pool.containers, Error) == {}
  }

  /** After one fruitless scan under the mutex there is nothing for a later scan to find. */
  ghost predicate RetryInv(s: State) {
    forall w: nat :: w < |s.workers| && s.workers[w].Scanning? ==>
      s.workers[w].pass <= MAX_RETRIES && (s.workers[w].pass > 0 ==> NoneIdle(s.pool.containers))
  }

  /** Every submitted job is in exactly one place, and every awaited job is still on its way. */
  ghost predicate JobInv(c: Config, s: State) {
    && |s.callers| == c.callers
    && Accounted(s) == multiset(Below(|s.ledger.jobs|))
    && Awaited(s) == OnTheWay(s)
    && multiset(s.ledger.accepted) + multiset(s.ledger.rejected) == multiset(Below(|s.ledger.jobs|))
    && s.ledger.accepted == s.ledger.dequeued + s.ledger.queue
    && |s.ledger.queue| <= c.maxJobs
  }

  /** Workers leave only after Shutdown was called. */
  ghost predicate OpenInv(s: State) {
    s.closer.Open? ==> forall w: nat :: w < |s.workers| ==> !s.workers[w].Exited?
  }

  /** Accepted jobs whose caller still waits: in the channel, with a worker, or answered but not received. */
  ghost function OnTheWay(s: State): multiset<JobId> {
    multiset(s.ledger.queue) + InFlight(s) + multiset(s.ledger.slots.Keys)
  }

  ghost function Accounted(s: State): multiset<JobId> {
    multiset(s.ledger.rejected) + OnTheWay(s) + multiset(s.ledger.delivered.Keys)
  }

  /**
   `r` is an answer job `j` can get: its own command's outcome in the container leased for it, or a reason why none ran.
   */
  predicate Faithful(g: Ledger, j: JobId, r: Result) {
    j < |g.jobs| &&
    if j !in g.leases then r == NoContainer() && j !in g.execs
    else if !Supported(g.jobs[j].language) then r == Unsupported(g.jobs[j].language) && j !in g.execs
    else j in g.execs && r == FromRun(g.execs[j].output, g.execs[j].failure)
  }

  /** Leases and executions belong to the job they are filed under, and every answer sent is faithful. */
  ghost predicate LedgerInv(g: Ledger) {
    && g.execs.Keys <= g.leases.Keys
    && (forall j <- g.leases :: j < |g.jobs|)
    && (forall j <- g.execs :: g.execs[j].lease == g.leases[j] && g.execs[j].job == JobAt(g, j))
    && (forall j <- g.queue :: j !in g.leases)
    && (forall j <- g.rejected :: j !in g.leases)
    && (forall j <- g.slots :: Faithful(g, j, g.slots[j]))
    && (forall j <- g.delivered :: Faithful(g, j, g.delivered[j]))
  }

  /** What worker `w`, standing in phase `p`, may rely on about its job. */
  ghost predicate WorkerResultInv(g: Ledger, w: nat, p: Worker) {
    match p
    case Waiting => true
    case Exited => true
    case Requesting(j) => j !in g.leases
    case Scanning(j, _) => j !in g.leases
    case Acquired(j, id) => Leased(g, w, j, id) && j !in g.execs
    case MarkingBusy(j, id) => Leased(g, w, j, id) && j !in g.execs
    case Launching(j, id) => Leased(g, w, j, id) && j !in g.execs
    case Running(j, id) => Leased(g, w, j, id) && j !in g.execs && Supported(JobAt(g, j).language)
    case Returned(j, id, r) => Leased(g, w, j, id) && Faithful(g, j, r)
    case MarkingIdle(j, id, r) => Leased(g, w, j, id) && Faithful(g, j, r)
    case Answering(j, r) => Faithful(g, j, r)
  }

  predicate Leased(g: Ledger, w: nat, j: JobId, id: ContainerId) {
    j in g.leases && g.leases[j] == Lease(w, id)
  }

  ghost predicate ResultInv(s: State) {
    LedgerInv(s.ledger) && forall w: nat :: w < |s.workers| ==> WorkerResultInv(s.ledger, w, s.workers[w])
  }

  ghost predicate Inv(c: Config, s: State) {
    && LockInv(s) && PoolInv(c, s) && MonitorInv(c, s) && ErrorInv(s) && RetryInv(s) && JobInv(c, s) && OpenInv(s)
      && ResultInv(s)
  }

  // ---------------------------------------------------------------- consequences used in the steps

  /** The job a worker is handling is nowhere else. */
  lemma JobAlone(c: Config, s: State, w: nat)
    requires JobInv(c, s) && w < |s.workers| && !s.workers[w].Waiting? && !s.workers[w].Exited?
    ensures var j := s.workers[w].j;
      && j < |s.ledger.jobs| && j !in s.ledger.queue && j !in s.ledger.slots && j !in s.ledger.delivered
        && j !in s.ledger.rejected
      && forall v: nat :: v < |s.workers| && v != w ==> j !in JobOf(s.workers[v])
  {
    var j := s.workers[w].j;
    GatherHas(JobOf, s.workers, w);
    assert JobOf(s.workers[w])[j] == 1;
    assert InFlight(s)[j] >= 1;
    assert Accounted(s)[j] >= 1 && j in multiset(Below(|s.ledger.jobs|));
    assert Accounted(s)[j] <= 1;
    forall v: nat | v < |s.workers| && v != w ensures j !in JobOf(s.workers[v]) {
      GatherPair(JobOf, s.workers, if v < w then v else w, if v < w then w else v);
    }
  }

  /** The container a worker holds is held by nobody else. */
  lemma HolderAlone(c: Config, s: State, w: nat, id: ContainerId)
    requires PoolInv(c, s) && w < |s.workers| && id in HeldBy(s.workers[w])
    ensures id in Held(s) && Held(s)[id] == 1
    ensures forall v: nat :: v < |s.workers| && v != w ==> id !in HeldBy(s.workers[v])
  {
    GatherHas(HeldBy, s.workers, w);
    assert id in Held(s);
    forall v: nat | v < |s.workers| && v != w ensures id !in HeldBy(s.workers[v]) {
      GatherPair(HeldBy, s.workers, if v < w then v else w, if v < w then w else v);
      assert Held(s)[id] <= 1;
    }
  }

  /** The monitor only cares about which ids are registered, which are Error, and who is held. */
  lemma MonitorIgnores(c: Config, s: State, s': State)
    requires MonitorInv(c, s) && ErrorInv(s)
    requires s'.monitor == s.monitor && s'.passes == s.passes && s'.pool.used == s.pool.used
    requires s'.pool.containers.Keys <= s.pool.containers.Keys
    requires forall id <- s'.pool.containers :: s'.pool.containers[id] == Error <==> s.pool.containers[id] == Error
    ensures MonitorInv(c, s') && ErrorInv(s')
  {
    SubsetSize(s'.pool.containers.Keys, s.pool.containers.Keys);
    assert InState(s'.pool.containers, Error) <= InState(s.pool.containers, Error);
    if s.monitor.Checking? || s.monitor.Rereading? || s.monitor.Sweeping? {
      SubsetSize(s.monitor.running + s'.pool.containers.Keys, s.monitor.running + s.pool.containers.Keys);
    }
  }
}
