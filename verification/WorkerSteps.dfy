/** Every step of a worker keeps the joint invariant. */
module WorkerSteps {
  import opened Types
  import opened Bags
  import opened Machine
  import opened Invariants

  /** What a worker step does to the register, and to the one id the worker may hold. */
  datatype Move = Quiet | Take(id: ContainerId) | Touch(id: ContainerId) | Give(id: ContainerId)

  function MoveOf(p: Worker, a: WorkerAct): Move {
    if a.Hit? then Take(a.id)
    else if a.MarkBusy? && p.MarkingBusy? then Touch(p.id)
    else if a.MarkIdle? && p.MarkingIdle? then Give(p.id)
    else Quiet
  }

  ghost predicate HeldMoved(m: Move, held: multiset<ContainerId>, held': multiset<ContainerId>) {
    match m
    case Quiet => held' == held
    case Take(id) => held == multiset{} && held' == multiset{id}
    case Touch(id) => held == held' == multiset{id}
    case Give(id) => held == multiset{id} && held' == multiset{}
  }

  ghost predicate RegisterMoved(m: Move, r: Register, r': Register) {
    match m
    case Quiet => r' == r
    case Take(id) => id in r && r[id] == Idle && r' == r[id := Busy]
    case Touch(id) => r' == WithState(r, id, Busy)
    case Give(id) => r' == WithState(r, id, Idle)
  }

  lemma WorkerFrame(s: State, w: nat, a: WorkerAct)
    requires WorkerEnabled(s, w, a)
    ensures var s' := WorkerApply(s, w, a);
      s'.workers == s.workers[w := s'.workers[w]] && s'.pool.used == s.pool.used
      && s'.monitor == s.monitor && s'.closer == s.closer && s'.callers == s.callers && s'.passes == s.passes
  {
  }

  lemma QuietHolds(s: State, w: nat, a: WorkerAct)
    requires WorkerEnabled(s, w, a) && MoveOf(s.workers[w], a).Quiet?
    ensures HeldBy(WorkerApply(s, w, a).workers[w]) == HeldBy(s.workers[w])
  {
    if a.Launch? || a.Finish? || a.LockBusy? || a.LockIdle? {
      assert HeldBy(s.workers[w]) == multiset{s.workers[w].id};
    } else {
      assert HeldBy(s.workers[w]) == multiset{};
    }
  }

  lemma MovingHolds(s: State, w: nat, a: WorkerAct)
    requires WorkerEnabled(s, w, a) && (a.Hit? || a.MarkBusy? || a.MarkIdle?)
    ensures HeldMoved(MoveOf(s.workers[w], a), HeldBy(s.workers[w]), HeldBy(WorkerApply(s, w, a).workers[w]))
  {
  }

  lemma WorkerHolds(s: State, w: nat, a: WorkerAct)
    requires WorkerEnabled(s, w, a)
    ensures HeldMoved(MoveOf(s.workers[w], a), HeldBy(s.workers[w]), HeldBy(WorkerApply(s, w, a).workers[w]))
  {
    if a.Hit? || a.MarkBusy? || a.MarkIdle? {
      MovingHolds(s, w, a);
    } else {
      QuietHolds(s, w, a);
    }
  }

  lemma WorkerRegisters(s: State, w: nat, a: WorkerAct)
    requires WorkerEnabled(s, w, a)
    ensures RegisterMoved(MoveOf(s.workers[w], a), s.pool.containers, WorkerApply(s, w, a).pool.containers)
  {
  }

  lemma WorkerMutex(s: State, w: nat, a: WorkerAct)
    requires LockInv(s) && WorkerEnabled(s, w, a)
    ensures var s' := WorkerApply(s, w, a);
      s'.mu == if WorkerLocks(s'.workers[w]) then Some(WorkerThread(w))
               else if WorkerLocks(s.workers[w]) then None else s.mu
    ensures WorkerLocks(WorkerApply(s, w, a).workers[w]) ==> s.mu.None? || s.mu == Some(WorkerThread(w))
  {
  }

  lemma WorkerKeepsLock(s: State, s': State, w: nat)
    requires LockInv(s) && w < |s.workers| == |s'.workers| && s'.workers == s.workers[w := s'.workers[w]]
    requires s'.monitor == s.monitor && s'.closer == s.closer
    requires s'.mu == if WorkerLocks(s'.workers[w]) then Some(WorkerThread(w))
                      else if WorkerLocks(s.workers[w]) then None else s.mu
    requires WorkerLocks(s'.workers[w]) ==> s.mu.None? || s.mu == Some(WorkerThread(w))
    ensures LockInv(s')
  {
  }

  /** Worker `w` alone has moved on. */
  predicate OnlyWorker(s: State, s': State, w: nat) {
    w < |s.workers| == |s'.workers| && s'.workers == s.workers[w := s'.workers[w]]
  }

  lemma TakeShifts(c: Config, s: State, s': State, w: nat, id: ContainerId)
    requires PoolInv(c, s) && OnlyWorker(s, s', w)
    requires HeldBy(s.workers[w]) == multiset{} && HeldBy(s'.workers[w]) == multiset{id}
    requires id in s.pool.containers && s.pool.containers[id] == Idle
    ensures id !in Held(s) && Held(s') == Held(s)[id := 1]
  {
    GatherUpdate(HeldBy, s.workers, w, s'.workers[w]);
    BagMember(Held(s), id);
  }

  lemma GiveShifts(c: Config, s: State, s': State, w: nat, id: ContainerId)
    requires PoolInv(c, s) && OnlyWorker(s, s', w)
    requires HeldBy(s.workers[w]) == multiset{id} && HeldBy(s'.workers[w]) == multiset{}
    ensures id in Held(s) && Held(s') == Held(s)[id := 0]
  {
    GatherUpdate(HeldBy, s.workers, w, s'.workers[w]);
    HolderAlone(c, s, w, id);
    assert Held(s) == Held(s') + multiset{id};
    BagMember(Held(s'), id);
  }

  lemma SameShifts(s: State, s': State, w: nat)
    requires OnlyWorker(s, s', w) && HeldBy(s'.workers[w]) == HeldBy(s.workers[w])
    ensures Held(s') == Held(s)
  {
    GatherUpdate(HeldBy, s.workers, w, s'.workers[w]);
  }

  /** A move shifts the bag of held ids by exactly the id it names. */
  lemma HeldShift(c: Config, s: State, s': State, w: nat, m: Move)
    requires PoolInv(c, s) && OnlyWorker(s, s', w)
    requires HeldMoved(m, HeldBy(s.workers[w]), HeldBy(s'.workers[w]))
    requires RegisterMoved(m, s.pool.containers, s'.pool.containers)
    ensures m.Take? ==> m.id !in Held(s) && Held(s') == Held(s)[m.id := 1]
    ensures m.Touch? ==> m.id in Held(s)
    ensures m.Give? ==> m.id in Held(s) && Held(s') == Held(s)[m.id := 0]
    ensures m.Quiet? || m.Touch? ==> Held(s') == Held(s)
  {
    match m
    case Quiet => SameShifts(s, s', w);
    case Take(id) => TakeShifts(c, s, s', w, id);
    case Touch(id) =>
      SameShifts(s, s', w);
      HolderAlone(c, s, w, id);
    case Give(id) => GiveShifts(c, s, s', w, id);
  }

  /** The register changes at most at the id the move names, and never to or from Error. */
  lemma RegisterShift(c: Config, s: State, s': State, w: nat, m: Move)
    requires PoolInv(c, s) && RegisterMoved(m, s.pool.containers, s'.pool.containers)
    requires m.Touch? || m.Give? ==> m.id in Held(s)
    ensures s'.pool.containers.Keys == s.pool.containers.Keys
    ensures forall id <- s.pool.containers :: s'.pool.containers[id] == Error <==> s.pool.containers[id] == Error
    ensures forall id <- s.pool.containers :: m.Quiet? || id != m.id ==> s'.pool.containers[id] == s.pool.containers[id]
    ensures !m.Quiet? && m.id in s.pool.containers ==> (s'.pool.containers[m.id] == Busy <==> !m.Give?)
  {
    assert s'.pool.containers.Keys == s.pool.containers.Keys;
  }

  lemma WorkerKeepsPool(c: Config, s: State, s': State, w: nat, m: Move)
    requires PoolInv(c, s) && w < |s.workers| == |s'.workers| && s'.workers == s.workers[w := s'.workers[w]]
    requires s'.pool.used == s.pool.used
    requires HeldMoved(m, HeldBy(s.workers[w]), HeldBy(s'.workers[w]))
    requires RegisterMoved(m, s.pool.containers, s'.pool.containers)
    ensures PoolInv(c, s')
    ensures s'.pool.containers.Keys == s.pool.containers.Keys
    ensures forall id <- s.pool.containers :: s'.pool.containers[id] == Error <==> s.pool.containers[id] == Error
  {
    HeldShift(c, s, s', w, m);
    RegisterShift(c, s, s', w, m);
    BagMoved(m, Held(s), Held(s'));
  }

  lemma BagMoved(m: Move, held: multiset<ContainerId>, held': multiset<ContainerId>)
    requires m.Take? ==> held' == held[m.id := 1]
    requires m.Give? ==> held' == held[m.id := 0]
    requires m.Quiet? || m.Touch? ==> held' == held
    requires forall id :: held[id] <= 1
    ensures forall id :: held'[id] <= 1
    ensures forall id :: id in held' <==> (id in held && m != Give(id)) || m == Take(id)
  {
  }

  lemma WorkerKeepsRetry(s: State, w: nat, a: WorkerAct)
    requires LockInv(s) && RetryInv(s) && WorkerEnabled(s, w, a)
    ensures RetryInv(WorkerApply(s, w, a))
  {
    var s' := WorkerApply(s, w, a);
    WorkerFrame(s, w, a);
    WorkerRegisters(s, w, a);
    forall v: nat | v < |s'.workers| && s'.workers[v].Scanning?
      ensures s'.workers[v].pass <= MAX_RETRIES && (s'.workers[v].pass > 0 ==> NoneIdle(s'.pool.containers))
    {
      if v != w {
        assert WorkerLocks(s.workers[v]) && !WorkerLocks(s.workers[w]);
      }
    }
  }

  lemma WorkerHandles(s: State, w: nat, a: WorkerAct)
    requires WorkerEnabled(s, w, a)
    ensures var p, p' := s.workers[w], WorkerApply(s, w, a).workers[w];
      match a
      case Dequeue => JobOf(p) == multiset{} && JobOf(p') == multiset{s.ledger.queue[0]}
      case Answer => JobOf(p) == multiset{p.j} && JobOf(p') == multiset{}
      case _ => JobOf(p') == JobOf(p)
  {
    if a.Dequeue? || a.Answer? {
    } else if a.SeeShutdown? {
    } else {
      JobStaysInHand(s, w, a);
    }
  }

  lemma JobStaysInHand(s: State, w: nat, a: WorkerAct)
    requires WorkerEnabled(s, w, a) && !a.Dequeue? && !a.Answer? && !a.SeeShutdown?
    ensures JobOf(WorkerApply(s, w, a).workers[w]) == JobOf(s.workers[w])
  {
    var p, p' := s.workers[w], WorkerApply(s, w, a).workers[w];
    assert !p.Waiting? && !p.Exited? && !p'.Waiting? && !p'.Exited? && p'.j == p.j;
  }

  lemma WorkerExits(s: State, w: nat, a: WorkerAct)
    requires WorkerEnabled(s, w, a)
    ensures WorkerApply(s, w, a).workers[w].Exited? ==> !s.closer.Open?
  {
  }

  lemma WorkerFiles(s: State, w: nat, a: WorkerAct)
    requires WorkerEnabled(s, w, a)
    ensures var p, g, g' := s.workers[w], s.ledger, WorkerApply(s, w, a).ledger;
      match a
      case Dequeue => g' == g.(queue := g.queue[1..], dequeued := g.dequeued + [g.queue[0]])
      case Hit(id) => g' == g.(leases := g.leases[p.j := Lease(w, id)])
      case Finish(output, failure) =>
        g' == g.(execs := g.execs[p.j := Execution(Lease(w, p.id), JobAt(g, p.j), output, failure)])
      case Answer => g' == g.(slots := g.slots[p.j := p.r])
      case _ => g' == g
  {
  }

  lemma DequeueShift(s: State, s': State, w: nat)
    requires w < |s.workers| == |s'.workers| && s'.workers == s.workers[w := s'.workers[w]]
    requires s.ledger.queue != [] && s'.ledger.queue == s.ledger.queue[1..] && s'.ledger.slots == s.ledger.slots
    requires JobOf(s.workers[w]) == multiset{} && JobOf(s'.workers[w]) == multiset{s.ledger.queue[0]}
    ensures OnTheWay(s') == OnTheWay(s)
  {
    GatherUpdate(JobOf, s.workers, w, s'.workers[w]);
    assert s.ledger.queue == [s.ledger.queue[0]] + s'.ledger.queue;
    assert multiset(s.ledger.queue) == multiset{s.ledger.queue[0]} + multiset(s'.ledger.queue);
  }

  lemma AnswerShift(s: State, s': State, w: nat, j: JobId, r: Result)
    requires w < |s.workers| == |s'.workers| && s'.workers == s.workers[w := s'.workers[w]]
    requires j !in s.ledger.slots && s'.ledger.slots == s.ledger.slots[j := r] && s'.ledger.queue == s.ledger.queue
    requires JobOf(s.workers[w]) == multiset{j} && JobOf(s'.workers[w]) == multiset{}
    ensures OnTheWay(s') == OnTheWay(s)
  {
    GatherUpdate(JobOf, s.workers, w, s'.workers[w]);
    var slots := s.ledger.slots.Keys;
    assert s'.ledger.slots.Keys == slots + {j};
    BagOfSet(slots, j);
    BagHandOver(multiset(s.ledger.queue), InFlight(s'), multiset(slots), multiset{j});
  }

  /** The job of a worker moves from the queue to the worker and from there to its result slot. */
  lemma WorkerShifts(s: State, w: nat, a: WorkerAct)
    requires WorkerEnabled(s, w, a)
    ensures OnTheWay(WorkerApply(s, w, a)) == OnTheWay(s)
  {
    var s' := WorkerApply(s, w, a);
    WorkerFrame(s, w, a);
    WorkerHandles(s, w, a);
    WorkerFiles(s, w, a);
    if a.Dequeue? {
      DequeueShift(s, s', w);
    } else if a.Answer? {
      AnswerShift(s, s', w, s.workers[w].j, s.workers[w].r);
    } else {
      GatherUpdate(JobOf, s.workers, w, s'.workers[w]);
    }
  }

  lemma WorkerKeepsJobs(c: Config, s: State, w: nat, a: WorkerAct)
    requires JobInv(c, s) && WorkerEnabled(s, w, a)
    ensures JobInv(c, WorkerApply(s, w, a))
  {
    var s' := WorkerApply(s, w, a);
    WorkerFrame(s, w, a);
    WorkerHandles(s, w, a);
    WorkerFiles(s, w, a);
    WorkerShifts(s, w, a);
    if a.Dequeue? {
      assert s'.ledger.dequeued + s'.ledger.queue == s.ledger.dequeued + s.ledger.queue;
    }
  }

  lemma OwnResultEarly(c: Config, s: State, w: nat, a: WorkerAct)
    requires JobInv(c, s) && ResultInv(s) && WorkerEnabled(s, w, a)
    requires a.LockPool? || a.Hit? || a.Miss? || a.GiveUp? || a.LockBusy? || a.MarkBusy?
    ensures WorkerResultInv(WorkerApply(s, w, a).ledger, w, WorkerApply(s, w, a).workers[w])
  {
    JobAlone(c, s, w);
    assert WorkerResultInv(s.ledger, w, s.workers[w]);
  }

  lemma OwnResultLate(c: Config, s: State, w: nat, a: WorkerAct)
    requires JobInv(c, s) && ResultInv(s) && WorkerEnabled(s, w, a)
    requires a.Launch? || a.LockIdle? || a.MarkIdle? || a.Answer?
    ensures WorkerResultInv(WorkerApply(s, w, a).ledger, w, WorkerApply(s, w, a).workers[w])
  {
    JobAlone(c, s, w);
    assert WorkerResultInv(s.ledger, w, s.workers[w]);
  }

  lemma OwnResultRun(c: Config, s: State, w: nat, output: string, failure: Option<string>)
    requires JobInv(c, s) && WorkerEnabled(s, w, Finish(output, failure)) && WorkerResultInv(s.ledger, w, s.workers[w])
    ensures var s' := WorkerApply(s, w, Finish(output, failure)); WorkerResultInv(s'.ledger, w, s'.workers[w])
  {
    JobAlone(c, s, w);
  }

  lemma OwnResultFresh(s: State, w: nat, a: WorkerAct)
    requires LedgerInv(s.ledger) && WorkerEnabled(s, w, a) && (a.Dequeue? || a.SeeShutdown?)
    ensures WorkerResultInv(WorkerApply(s, w, a).ledger, w, WorkerApply(s, w, a).workers[w])
  {
  }

  lemma WorkerKeepsOwnResult(c: Config, s: State, w: nat, a: WorkerAct)
    requires JobInv(c, s) && ResultInv(s) && WorkerEnabled(s, w, a)
    ensures WorkerResultInv(WorkerApply(s, w, a).ledger, w, WorkerApply(s, w, a).workers[w])
  {
    if a.Dequeue? || a.SeeShutdown? {
      OwnResultFresh(s, w, a);
    } else if a.Finish? {
      assert WorkerResultInv(s.ledger, w, s.workers[w]);
      OwnResultRun(c, s, w, a.output, a.failure);
    } else if a.Launch? || a.LockIdle? || a.MarkIdle? || a.Answer? {
      OwnResultLate(c, s, w, a);
    } else {
      OwnResultEarly(c, s, w, a);
    }
  }

  /** Only facts filed under `j` changed, so whoever handles another job keeps what it relied on. */
  ghost predicate SameBut(j: JobId, g: Ledger, g': Ledger) {
    && g'.jobs == g.jobs
    && g'.leases.Keys - {j} == g.leases.Keys - {j} && g'.execs.Keys - {j} == g.execs.Keys - {j}
    && (forall i <- g.leases :: i != j && i in g'.leases ==> g'.leases[i] == g.leases[i])
    && (forall i <- g.execs :: i != j && i in g'.execs ==> g'.execs[i] == g.execs[i])
  }

  lemma FaithfulElsewhere(j: JobId, g: Ledger, g': Ledger, i: JobId, r: Result)
    requires SameBut(j, g, g') && i != j
    ensures Faithful(g', i, r) == Faithful(g, i, r)
  {
    assert i in g.leases <==> i in g.leases.Keys - {j};
    assert i in g'.leases <==> i in g'.leases.Keys - {j};
    assert i in g.execs <==> i in g.execs.Keys - {j};
    assert i in g'.execs <==> i in g'.execs.Keys - {j};
  }

  lemma WorkerResultElsewhere(j: JobId, g: Ledger, g': Ledger, v: nat, p: Worker)
    requires SameBut(j, g, g') && j !in JobOf(p) && WorkerResultInv(g, v, p)
    ensures WorkerResultInv(g', v, p)
  {
    if !p.Waiting? && !p.Exited? {
      assert p.j in JobOf(p);
      assert p.j in g.leases <==> p.j in g.leases.Keys - {j};
      assert p.j in g'.leases <==> p.j in g'.leases.Keys - {j};
      assert p.j in g.execs <==> p.j in g.execs.Keys - {j};
      assert p.j in g'.execs <==> p.j in g'.execs.Keys - {j};
      if p.Returned? || p.MarkingIdle? || p.Answering? {
        FaithfulElsewhere(j, g, g', p.j, p.r);
      }
    }
  }

  lemma LeaseFiled(g: Ledger, j: JobId, lease: Lease)
    requires LedgerInv(g) && j < |g.jobs| && j !in g.leases
    requires j !in g.queue && j !in g.rejected && j !in g.slots && j !in g.delivered
    ensures LedgerInv(g.(leases := g.leases[j := lease]))
  {
    var g' := g.(leases := g.leases[j := lease]);
    forall i, r | i != j ensures Faithful(g', i, r) == Faithful(g, i, r) {
      FaithfulElsewhere(j, g, g', i, r);
    }
  }

  lemma ExecFiled(g: Ledger, j: JobId, exec: Exec)
    requires LedgerInv(g) && j in g.leases && exec.lease == g.leases[j] && exec.job == JobAt(g, j)
    requires j !in g.slots && j !in g.delivered
    ensures LedgerInv(g.(execs := g.execs[j := exec]))
  {
    var g' := g.(execs := g.execs[j := exec]);
    forall i, r | i != j ensures Faithful(g', i, r) == Faithful(g, i, r) {
      FaithfulElsewhere(j, g, g', i, r);
    }
  }

  lemma AnswerFiled(g: Ledger, j: JobId, r: Result)
    requires LedgerInv(g) && Faithful(g, j, r)
    ensures LedgerInv(g.(slots := g.slots[j := r]))
  {
    var g' := g.(slots := g.slots[j := r]);
    forall i, q ensures Faithful(g', i, q) == Faithful(g, i, q) {
    }
  }

  lemma HeadTaken(g: Ledger)
    requires LedgerInv(g) && g.queue != []
    ensures LedgerInv(g.(queue := g.queue[1..], dequeued := g.dequeued + [g.queue[0]]))
  {
    var g' := g.(queue := g.queue[1..], dequeued := g.dequeued + [g.queue[0]]);
    forall i, q ensures Faithful(g', i, q) == Faithful(g, i, q) {
    }
  }

  lemma WorkerKeepsLedger(c: Config, s: State, w: nat, a: WorkerAct)
    requires JobInv(c, s) && ResultInv(s) && WorkerEnabled(s, w, a)
    ensures LedgerInv(WorkerApply(s, w, a).ledger)
  {
    WorkerFiles(s, w, a);
    var p := s.workers[w];
    if a.Dequeue? {
      HeadTaken(s.ledger);
    } else if a.Hit? {
      JobAlone(c, s, w);
      LeaseFiled(s.ledger, p.j, Lease(w, a.id));
    } else if a.Finish? {
      JobAlone(c, s, w);
      ExecFiled(s.ledger, p.j, Execution(Lease(w, p.id), JobAt(s.ledger, p.j), a.output, a.failure));
    } else if a.Answer? {
      AnswerFiled(s.ledger, p.j, p.r);
    }
  }

  lemma WorkerChangesOwn(s: State, w: nat, a: WorkerAct, j: JobId)
    requires WorkerEnabled(s, w, a) && (!s.workers[w].Waiting? && !s.workers[w].Exited? ==> j == s.workers[w].j)
    ensures SameBut(j, s.ledger, WorkerApply(s, w, a).ledger)
  {
    WorkerFiles(s, w, a);
  }

  lemma WorkerKeepsResults(c: Config, s: State, w: nat, a: WorkerAct)
    requires JobInv(c, s) && ResultInv(s) && WorkerEnabled(s, w, a)
    ensures ResultInv(WorkerApply(s, w, a))
  {
    var s' := WorkerApply(s, w, a);
    WorkerFrame(s, w, a);
    WorkerKeepsOwnResult(c, s, w, a);
    WorkerKeepsLedger(c, s, w, a);
    forall v: nat | v < |s'.workers| && v != w ensures WorkerResultInv(s'.ledger, v, s'.workers[v]) {
      WorkerKeepsOther(c, s, w, a, v);
    }
  }

  lemma WorkerKeepsOther(c: Config, s: State, w: nat, a: WorkerAct, v: nat)
    requires JobInv(c, s) && ResultInv(s) && WorkerEnabled(s, w, a) && v < |s.workers| && v != w
    ensures WorkerResultInv(WorkerApply(s, w, a).ledger, v, s.workers[v])
  {
    var q := s.workers[v];
    var j := if s.workers[w].Waiting? then (if q.Waiting? || q.Exited? then 0 else q.j + 1) else s.workers[w].j;
    if !s.workers[w].Waiting? {
      JobAlone(c, s, w);
    }
    WorkerChangesOwn(s, w, a, j);
    WorkerResultElsewhere(j, s.ledger, WorkerApply(s, w, a).ledger, v, q);
  }

  lemma WorkerKeepsThreads(c: Config, s: State, w: nat, a: WorkerAct)
    requires LockInv(s) && RetryInv(s) && OpenInv(s) && WorkerEnabled(s, w, a)
    ensures var s' := WorkerApply(s, w, a); LockInv(s') && RetryInv(s') && OpenInv(s')
  {
    var s' := WorkerApply(s, w, a);
    WorkerFrame(s, w, a);
    WorkerMutex(s, w, a);
    WorkerKeepsLock(s, s', w);
    WorkerKeepsRetry(s, w, a);
    WorkerExits(s, w, a);
  }

  lemma WorkerKeepsMonitor(c: Config, s: State, w: nat, a: WorkerAct)
    requires PoolInv(c, s) && MonitorInv(c, s) && ErrorInv(s) && WorkerEnabled(s, w, a)
    ensures var s' := WorkerApply(s, w, a); PoolInv(c, s') && MonitorInv(c, s') && ErrorInv(s')
  {
    var s' := WorkerApply(s, w, a);
    WorkerFrame(s, w, a);
    WorkerHolds(s, w, a);
    WorkerRegisters(s, w, a);
    WorkerKeepsPool(c, s, s', w, MoveOf(s.workers[w], a));
    MonitorIgnores(c, s, s');
  }

  lemma WorkerKeeps(c: Config, s: State, w: nat, a: WorkerAct)
    requires Inv(c, s) && WorkerEnabled(s, w, a)
    ensures Inv(c, WorkerApply(s, w, a))
  {
    WorkerKeepsThreads(c, s, w, a);
    WorkerKeepsMonitor(c, s, w, a);
    WorkerKeepsJobs(c, s, w, a);
    WorkerKeepsResults(c, s, w, a);
  }
}
