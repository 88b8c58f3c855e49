/** Every step of a caller of ExecuteJob keeps the joint invariant. */
module CallerSteps {
  import opened Types
  import opened Bags
  import opened Machine
  import opened Invariants

  /** A new job number is one that nothing refers to yet. */
  lemma Unseen(c: Config, s: State)
    requires JobInv(c, s) && ResultInv(s)
    ensures var j := |s.ledger.jobs|;
      && j !in s.ledger.queue && j !in s.ledger.slots && j !in s.ledger.delivered && j !in s.ledger.rejected
      && j !in s.ledger.leases && j !in s.ledger.execs
    ensures forall w: nat :: w < |s.workers| ==> |s.ledger.jobs| !in JobOf(s.workers[w])
  {
    var j := |s.ledger.jobs|;
    assert j !in Accounted(s);
    forall w: nat | w < |s.workers| ensures j !in JobOf(s.workers[w]) {
      GatherHas(JobOf, s.workers, w);
    }
  }

  lemma BelowGrows(n: nat)
    ensures multiset(Below(n + 1)) == multiset(Below(n)) + multiset{n}
  {
    assert n !in Below(n);
  }

  lemma CallerFrame(c: Config, s: State, k: nat, a: CallerAct)
    requires CallerEnabled(c, s, k, a)
    ensures var s' := CallerApply(c, s, k, a);
      && s'.pool == s.pool && s'.mu == s.mu && s'.monitor == s.monitor && s'.closer == s.closer && s'.passes == s.passes
      && (if a.Handoff? then s'.workers == s.workers[a.w := Requesting(|s.ledger.jobs|)] else s'.workers == s.workers)
  {
  }

  // ---------------------------------------------------------------- where jobs are

  /** The counting behind an accepted submission: the new number joins the jobs on the way and the awaited ones. */
  lemma JoinKeeps(c: Config, s: State, s': State)
    requires JobInv(c, s)
    requires var g, g', j := s.ledger, s'.ledger, |s.ledger.jobs|;
      && |g'.jobs| == j + 1 && g'.rejected == g.rejected && g'.delivered == g.delivered
      && g'.accepted == g.accepted + [j] && g'.accepted == g'.dequeued + g'.queue && |g'.queue| <= c.maxJobs
      && OnTheWay(s') == OnTheWay(s) + multiset{j} && Awaited(s') == Awaited(s) + multiset{j}
    requires |s'.callers| == |s.callers|
    ensures JobInv(c, s')
  {
    var g, g', j := s.ledger, s'.ledger, multiset{|s.ledger.jobs|};
    BelowGrows(|g.jobs|);
    BagShuffle(multiset(g.rejected), OnTheWay(s), j);
    BagShuffle(multiset(g.rejected) + OnTheWay(s), multiset(g.delivered.Keys), j);
    BagShuffle(multiset(g.accepted), multiset(g.rejected), j);
  }

  lemma CallerBlocks(s: State, s': State, k: nat, j: JobId)
    requires k < |s.callers| && s.callers[k].Free? && s'.callers == s.callers[k := Blocked(j)]
    ensures Awaited(s') == Awaited(s) + multiset{j}
  {
    GatherUpdate(BlockedOn, s.callers, k, Blocked(j));
  }

  lemma CallerReturns(s: State, s': State, k: nat)
    requires k < |s.callers| && s.callers[k].Blocked? && s'.callers == s.callers[k := Free]
    ensures Awaited(s) == Awaited(s') + multiset{s.callers[k].j}
  {
    GatherUpdate(BlockedOn, s.callers, k, Free);
  }

  lemma QueuedShift(s: State, s': State, j: JobId)
    requires s'.workers == s.workers && s'.ledger.slots == s.ledger.slots && s'.ledger.queue == s.ledger.queue + [j]
    ensures OnTheWay(s') == OnTheWay(s) + multiset{j}
  {
    assert multiset(s'.ledger.queue) == multiset(s.ledger.queue) + multiset{j};
    BagShuffle(multiset(s.ledger.queue), InFlight(s), multiset{j});
    BagShuffle(multiset(s.ledger.queue) + InFlight(s), multiset(s.ledger.slots.Keys), multiset{j});
  }

  lemma SubmitKeepsJobs(c: Config, s: State, k: nat, job: Job)
    requires JobInv(c, s) && CallerEnabled(c, s, k, Submit(job))
    ensures JobInv(c, CallerApply(c, s, k, Submit(job)))
  {
    var s', j := CallerApply(c, s, k, Submit(job)), |s.ledger.jobs|;
    CallerBlocks(s, s', k, j);
    QueuedShift(s, s', j);
    assert s'.ledger.accepted == s'.ledger.dequeued + s'.ledger.queue;
    JoinKeeps(c, s, s');
  }

  lemma HandoffShift(s: State, s': State, w: nat, j: JobId)
    requires w < |s.workers| && s.workers[w].Waiting? && s'.workers == s.workers[w := Requesting(j)]
    requires s'.ledger.queue == s.ledger.queue && s'.ledger.slots == s.ledger.slots
    ensures OnTheWay(s') == OnTheWay(s) + multiset{j}
  {
    GatherUpdate(JobOf, s.workers, w, Requesting(j));
    BagShuffle(multiset(s.ledger.queue), InFlight(s), multiset{j});
    BagShuffle(multiset(s.ledger.queue) + InFlight(s), multiset(s.ledger.slots.Keys), multiset{j});
  }

  lemma HandoffFrame(c: Config, s: State, k: nat, job: Job, w: nat)
    requires CallerEnabled(c, s, k, Handoff(job, w))
    ensures var s', g, j := CallerApply(c, s, k, Handoff(job, w)), s.ledger, |s.ledger.jobs|;
      && s'.callers == s.callers[k := Blocked(j)] && s'.workers == s.workers[w := Requesting(j)]
      && s'.ledger == g.(jobs := g.jobs + [job], accepted := g.accepted + [j], dequeued := g.dequeued + [j])
  {
  }

  lemma HandoffJoins(c: Config, s: State, s': State, k: nat, job: Job, w: nat)
    requires JobInv(c, s) && k < |s.callers| && s.callers[k].Free?
    requires s.ledger.queue == [] && w < |s.workers| && s.workers[w].Waiting?
    requires var g, j := s.ledger, |s.ledger.jobs|;
      && s'.callers == s.callers[k := Blocked(j)] && s'.workers == s.workers[w := Requesting(j)]
      && s'.ledger == g.(jobs := g.jobs + [job], accepted := g.accepted + [j], dequeued := g.dequeued + [j])
    ensures JobInv(c, s')
  {
    var j := |s.ledger.jobs|;
    CallerBlocks(s, s', k, j);
    HandoffShift(s, s', w, j);
    assert s'.ledger.accepted == s'.ledger.dequeued + s'.ledger.queue;
    JoinKeeps(c, s, s');
  }

  lemma HandoffKeepsJobs(c: Config, s: State, k: nat, job: Job, w: nat)
    requires JobInv(c, s) && CallerEnabled(c, s, k, Handoff(job, w))
    ensures JobInv(c, CallerApply(c, s, k, Handoff(job, w)))
  {
    HandoffFrame(c, s, k, job, w);
    HandoffJoins(c, s, CallerApply(c, s, k, Handoff(job, w)), k, job, w);
  }

  /** The counting behind a rejection. */
  lemma RejectedKeeps(c: Config, s: State, s': State)
    requires JobInv(c, s) && |s.ledger.jobs| !in s.ledger.rejected
    requires s'.workers == s.workers && s'.callers == s.callers
    requires |s'.ledger.jobs| == |s.ledger.jobs| + 1
    requires s'.ledger == s.ledger.(jobs := s'.ledger.jobs, rejected := s.ledger.rejected + {|s.ledger.jobs|})
    ensures JobInv(c, s')
  {
    var g, j := s.ledger, multiset{|s.ledger.jobs|};
    BelowGrows(|g.jobs|);
    BagOfSet(g.rejected, |g.jobs|);
    assert OnTheWay(s') == OnTheWay(s) && Awaited(s') == Awaited(s);
    BagShuffle(multiset(g.rejected), OnTheWay(s), j);
    BagShuffle(multiset(g.rejected) + OnTheWay(s), multiset(g.delivered.Keys), j);
    BagShuffle(multiset(g.accepted), multiset(g.rejected), j);
  }

  lemma RejectKeepsJobs(c: Config, s: State, k: nat, job: Job)
    requires JobInv(c, s) && ResultInv(s) && CallerEnabled(c, s, k, Reject(job))
    ensures JobInv(c, CallerApply(c, s, k, Reject(job)))
  {
    Unseen(c, s);
    RejectedKeeps(c, s, CallerApply(c, s, k, Reject(job)));
  }

  /** The counting behind a receipt: the number leaves the jobs on the way and joins the delivered ones. */
  lemma LeaveKeeps(c: Config, s: State, s': State, j: JobId)
    requires JobInv(c, s)
    requires var g, g' := s.ledger, s'.ledger;
      && g'.jobs == g.jobs && g'.rejected == g.rejected
      && g'.accepted == g.accepted && g'.dequeued == g.dequeued && g'.queue == g.queue
      && multiset(g'.delivered.Keys) == multiset(g.delivered.Keys) + multiset{j}
      && OnTheWay(s) == OnTheWay(s') + multiset{j} && Awaited(s) == Awaited(s') + multiset{j}
    requires |s'.callers| == |s.callers|
    ensures JobInv(c, s')
  {
    Cancel(Awaited(s'), OnTheWay(s'), multiset{j});
    assert Accounted(s') == Accounted(s);
  }

  lemma ReceiptShift(s: State, s': State, j: JobId)
    requires j in s.ledger.slots && j !in s.ledger.delivered
    requires s'.workers == s.workers && s'.ledger.queue == s.ledger.queue
    requires s'.ledger.slots.Keys == s.ledger.slots.Keys - {j}
    requires s'.ledger.delivered.Keys == s.ledger.delivered.Keys + {j}
    ensures OnTheWay(s) == OnTheWay(s') + multiset{j}
    ensures multiset(s'.ledger.delivered.Keys) == multiset(s.ledger.delivered.Keys) + multiset{j}
  {
    assert s.ledger.slots.Keys == s'.ledger.slots.Keys + {j};
    BagOfSet(s'.ledger.slots.Keys, j);
    BagOfSet(s.ledger.delivered.Keys, j);
    BagShuffle(multiset(s.ledger.queue) + InFlight(s), multiset(s'.ledger.slots.Keys), multiset{j});
  }

  lemma SlotNotDelivered(c: Config, s: State, j: JobId)
    requires JobInv(c, s) && j in s.ledger.slots
    ensures j !in s.ledger.delivered
  {
    assert OnTheWay(s)[j] >= 1;
    assert Accounted(s)[j] <= 1;
  }

  lemma ReceiveKeepsJobs(c: Config, s: State, k: nat)
    requires JobInv(c, s) && CallerEnabled(c, s, k, Receive)
    ensures JobInv(c, CallerApply(c, s, k, Receive))
  {
    var s', j := CallerApply(c, s, k, Receive), s.callers[k].j;
    CallerReturns(s, s', k);
    SlotNotDelivered(c, s, j);
    ReceiptShift(s, s', j);
    LeaveKeeps(c, s, s', j);
  }

  lemma CallerKeepsJobs(c: Config, s: State, k: nat, a: CallerAct)
    requires JobInv(c, s) && ResultInv(s) && CallerEnabled(c, s, k, a)
    ensures JobInv(c, CallerApply(c, s, k, a))
  {
    match a
    case Submit(job) => SubmitKeepsJobs(c, s, k, job);
    case Handoff(job, w) => HandoffKeepsJobs(c, s, k, job, w);
    case Reject(job) => RejectKeepsJobs(c, s, k, job);
    case Receive => ReceiveKeepsJobs(c, s, k);
  }

  // ---------------------------------------------------------------- what is known about results

  /** The history grew by one job, and perhaps the queue by its number. */
  ghost predicate Grown(g: Ledger, g': Ledger) {
    && |g'.jobs| == |g.jobs| + 1 && g'.jobs[..|g.jobs|] == g.jobs && g'.leases == g.leases && g'.execs == g.execs
    && g'.slots == g.slots && g'.delivered == g.delivered
    && (g'.queue == g.queue || g'.queue == g.queue + [|g.jobs|])
    && (g'.rejected == g.rejected || g'.rejected == g.rejected + {|g.jobs|})
  }

  lemma GrownFaithful(g: Ledger, g': Ledger, j: JobId, r: Result)
    requires Grown(g, g') && Faithful(g, j, r)
    ensures Faithful(g', j, r)
  {
    assert g'.jobs[j] == g'.jobs[..|g.jobs|][j];
  }

  lemma GrownKeepsWorker(g: Ledger, g': Ledger, w: nat, p: Worker)
    requires Grown(g, g') && LedgerInv(g) && WorkerResultInv(g, w, p)
    ensures WorkerResultInv(g', w, p)
  {
    if p.Returned? || p.MarkingIdle? || p.Answering? {
      GrownFaithful(g, g', p.j, p.r);
    } else if p.Running? {
      assert g'.jobs[p.j] == g'.jobs[..|g.jobs|][p.j];
    }
  }

  lemma GrownKeepsLedger(g: Ledger, g': Ledger)
    requires Grown(g, g') && LedgerInv(g) && |g.jobs| !in g.leases
    ensures LedgerInv(g')
  {
    forall j | j in g.slots ensures Faithful(g', j, g.slots[j]) {
      GrownFaithful(g, g', j, g.slots[j]);
    }
    forall j | j in g.delivered ensures Faithful(g', j, g.delivered[j]) {
      GrownFaithful(g, g', j, g.delivered[j]);
    }
    forall j | j in g.execs ensures JobAt(g', j) == JobAt(g, j) {
      assert g'.jobs[j] == g'.jobs[..|g.jobs|][j];
    }
  }

  lemma SubmissionGrows(c: Config, s: State, k: nat, a: CallerAct)
    requires CallerEnabled(c, s, k, a) && !a.Receive?
    ensures Grown(s.ledger, CallerApply(c, s, k, a).ledger)
  {
  }

  lemma SubmissionKeepsResults(c: Config, s: State, k: nat, a: CallerAct)
    requires JobInv(c, s) && ResultInv(s) && CallerEnabled(c, s, k, a) && !a.Receive?
    ensures ResultInv(CallerApply(c, s, k, a))
  {
    var s' := CallerApply(c, s, k, a);
    Unseen(c, s);
    CallerFrame(c, s, k, a);
    SubmissionGrows(c, s, k, a);
    GrownKeepsLedger(s.ledger, s'.ledger);
    forall w: nat | w < |s.workers| ensures WorkerResultInv(s'.ledger, w, s.workers[w]) {
      GrownKeepsWorker(s.ledger, s'.ledger, w, s.workers[w]);
    }
  }

  /** An answer goes from its slot to the caller. */
  lemma ReceiptKeepsLedger(g: Ledger, j: JobId)
    requires LedgerInv(g) && j in g.slots
    ensures LedgerInv(g.(delivered := g.delivered[j := g.slots[j]], slots := g.slots - {j}))
  {
    var g' := g.(delivered := g.delivered[j := g.slots[j]], slots := g.slots - {j});
    forall i, r ensures Faithful(g', i, r) == Faithful(g, i, r) {
    }
  }

  lemma ReceiptKeepsWorker(g: Ledger, g': Ledger, w: nat, p: Worker)
    requires g'.jobs == g.jobs && g'.leases == g.leases && g'.execs == g.execs && WorkerResultInv(g, w, p)
    ensures WorkerResultInv(g', w, p)
  {
    forall i, r ensures Faithful(g', i, r) == Faithful(g, i, r) {
    }
  }

  lemma ReceiptKeepsResults(c: Config, s: State, k: nat)
    requires ResultInv(s) && CallerEnabled(c, s, k, Receive)
    ensures ResultInv(CallerApply(c, s, k, Receive))
  {
    var g' := CallerApply(c, s, k, Receive).ledger;
    ReceiptKeepsLedger(s.ledger, s.callers[k].j);
    forall w: nat | w < |s.workers| ensures WorkerResultInv(g', w, s.workers[w]) {
      ReceiptKeepsWorker(s.ledger, g', w, s.workers[w]);
    }
  }

  // ---------------------------------------------------------------- everything else

  lemma SameWorkersKeep(c: Config, s: State, s': State)
    requires LockInv(s) && PoolInv(c, s) && RetryInv(s) && OpenInv(s)
    requires s'.workers == s.workers && s'.pool == s.pool && s'.mu == s.mu
    requires s'.monitor == s.monitor && s'.closer == s.closer
    ensures LockInv(s') && PoolInv(c, s') && RetryInv(s') && OpenInv(s') && Held(s') == Held(s)
  {
    assert Held(s') == Held(s);
  }

  /** A waiting worker that is handed a job holds neither the mutex nor a container, before or after. */
  lemma HandedKeepsThreads(s: State, s': State, w: nat, j: JobId)
    requires LockInv(s) && RetryInv(s) && OpenInv(s)
    requires w < |s.workers| && s.workers[w].Waiting? && s'.workers == s.workers[w := Requesting(j)]
    requires s'.pool == s.pool && s'.mu == s.mu && s'.monitor == s.monitor && s'.closer == s.closer
    ensures LockInv(s') && RetryInv(s') && OpenInv(s')
  {
  }

  lemma HandedKeepsPool(c: Config, s: State, s': State, w: nat, j: JobId)
    requires PoolInv(c, s)
    requires w < |s.workers| && s.workers[w].Waiting? && s'.workers == s.workers[w := Requesting(j)]
    requires s'.pool == s.pool
    ensures PoolInv(c, s') && Held(s') == Held(s)
  {
    var p := Requesting(j);
    assert HeldBy(p) == HeldBy(s.workers[w]);
    GatherUpdate(HeldBy, s.workers, w, p);
    assert Held(s') == Held(s);
  }

  lemma CallerKeepsPool(c: Config, s: State, k: nat, a: CallerAct)
    requires LockInv(s) && PoolInv(c, s) && RetryInv(s) && OpenInv(s) && CallerEnabled(c, s, k, a)
    ensures var s' := CallerApply(c, s, k, a);
      LockInv(s') && PoolInv(c, s') && RetryInv(s') && OpenInv(s') && Held(s') == Held(s)
  {
    var s' := CallerApply(c, s, k, a);
    CallerFrame(c, s, k, a);
    if a.Handoff? {
      HandedKeepsThreads(s, s', a.w, |s.ledger.jobs|);
      HandedKeepsPool(c, s, s', a.w, |s.ledger.jobs|);
    } else {
      SameWorkersKeep(c, s, s');
    }
  }

  lemma CallerKeeps(c: Config, s: State, k: nat, a: CallerAct)
    requires Inv(c, s) && CallerEnabled(c, s, k, a)
    ensures Inv(c, CallerApply(c, s, k, a))
  {
    CallerFrame(c, s, k, a);
    CallerKeepsPool(c, s, k, a);
    MonitorIgnores(c, s, CallerApply(c, s, k, a));
    CallerKeepsJobs(c, s, k, a);
    if a.Receive? {
      ReceiptKeepsResults(c, s, k);
    } else {
      SubmissionKeepsResults(c, s, k, a);
    }
  }
}
