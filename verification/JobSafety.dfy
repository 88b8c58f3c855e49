/** What every run guarantees about submitted jobs and their answers. */
module JobSafety {
  import opened Types
  import opened Bags
  import opened LanguageConfigs
  import opened Machine
  import opened Invariants
  import opened CallerSteps
  import opened RunProofs
  import opened Safety
  import WorkerSteps
  import MonitorSteps

  /** The five places a submitted job can be. */
  datatype Place = Rejected | Queued | InHand | Answered | Delivered

  ghost predicate At(s: State, j: JobId, p: Place) {
    match p
    case Rejected => j in s.ledger.rejected
    case Queued => j in s.ledger.queue
    case InHand => exists w :: Handles(s, w, j)
    case Answered => j in s.ledger.slots
    case Delivered => j in s.ledger.delivered
  }

  lemma AtCounts(c: Config, s: State, j: JobId, p: Place)
    requires JobInv(c, s)
    ensures At(s, j, p) <==>
      match p
      case Rejected => multiset(s.ledger.rejected)[j] > 0
      case Queued => multiset(s.ledger.queue)[j] > 0
      case InHand => InFlight(s)[j] > 0
      case Answered => multiset(s.ledger.slots.Keys)[j] > 0
      case Delivered => multiset(s.ledger.delivered.Keys)[j] > 0
  {
    if p.InHand? {
      if j in InFlight(s) {
        var w := GatherOwner(JobOf, s.workers, j);
        assert Handles(s, w, j);
      }
      if w :| Handles(s, w, j) {
        GatherHas(JobOf, s.workers, w);
      }
    }
  }

  ghost predicate Somewhere(s: State, j: JobId) {
    exists p :: At(s, j, p)
  }

  lemma OnePlace(c: Config, s: State, j: JobId)
    requires JobInv(c, s)
    ensures Somewhere(s, j) <==> j < |s.ledger.jobs|
    ensures forall p, q :: At(s, j, p) && At(s, j, q) ==> p == q
  {
    assert Accounted(s)[j] == if j < |s.ledger.jobs| then 1 else 0;
    AtCounts(c, s, j, Rejected);
    AtCounts(c, s, j, Queued);
    AtCounts(c, s, j, InHand);
    AtCounts(c, s, j, Answered);
    AtCounts(c, s, j, Delivered);
  }

  lemma InTwoHands(c: Config, s: State, j: JobId, v: nat, w: nat)
    requires JobInv(c, s) && Handles(s, v, j) && Handles(s, w, j)
    ensures v == w
  {
    JobAlone(c, s, w);
  }

  /** A sequence whose bag has no repetition lists nothing twice. */
  lemma NoRepeats<T>(q: seq<T>, a: nat, b: nat)
    requires a < b < |q| && multiset(q)[q[a]] <= 1
    ensures q[a] != q[b]
  {
    assert q == q[..b] + [q[b]] + q[b + 1..];
    assert q[a] == q[..b][a] && q[a] in multiset(q[..b]);
  }

  /**
   Job conservation: each submitted job is rejected, queued, with a worker, answered or delivered, and in
   one of these places only; nothing else is anywhere; no job is with two workers.
   */
  lemma JobConservation(c: Config, s: State)
    requires Reachable(c, s)
    ensures forall j: JobId :: Somewhere(s, j) <==> j < |s.ledger.jobs|
    ensures forall j, p, q :: At(s, j, p) && At(s, j, q) ==> p == q
    ensures forall j, v, w :: Handles(s, v, j) && Handles(s, w, j) ==> v == w
  {
    assert JobInv(c, s) by {
      ReachableInv(c, s);
    }
    forall j: JobId ensures Somewhere(s, j) <==> j < |s.ledger.jobs| {
      OnePlace(c, s, j);
    }
    forall j, p, q | At(s, j, p) && At(s, j, q) ensures p == q {
      OnePlace(c, s, j);
    }
    forall j, v, w | Handles(s, v, j) && Handles(s, w, j) ensures v == w {
      InTwoHands(c, s, j, v, w);
    }
  }

  /** The channel keeps its capacity, lists no job twice, and gives jobs out in the order it took them. */
  lemma ChannelDiscipline(c: Config, s: State)
    requires Reachable(c, s)
    ensures |s.ledger.queue| <= c.maxJobs && |InFlight(s)| <= c.maxWorkers
    ensures forall a: nat, b: nat :: a < b < |s.ledger.queue| ==> s.ledger.queue[a] != s.ledger.queue[b]
    ensures s.ledger.accepted == s.ledger.dequeued + s.ledger.queue
    ensures multiset(s.ledger.accepted) == multiset(Below(|s.ledger.jobs|) - s.ledger.rejected)
  {
    assert JobInv(c, s) && |s.workers| == c.maxWorkers by {
      ReachableInv(c, s);
    }
    forall a: nat, b: nat | a < b < |s.ledger.queue| ensures s.ledger.queue[a] != s.ledger.queue[b] {
      assert Accounted(s)[s.ledger.queue[a]] <= 1;
      NoRepeats(s.ledger.queue, a, b);
    }
    GatherSize(JobOf, s.workers);
    AcceptedAreTheRest(multiset(s.ledger.accepted), s.ledger.rejected, Below(|s.ledger.jobs|));
  }

  lemma AcceptedAreTheRest(accepted: multiset<JobId>, rejected: set<JobId>, all: set<JobId>)
    requires accepted + multiset(rejected) == multiset(all)
    ensures accepted == multiset(all - rejected)
  {
    forall j: JobId ensures accepted[j] == multiset(all - rejected)[j] {
      assert (accepted + multiset(rejected))[j] == multiset(all)[j];
    }
  }

  // ---------------------------------------------------------------- answers

  /** A worker never blocks on delivering its result, and the job it answers has no answer yet. */
  lemma AnswerNeverBlocks(c: Config, s: State, w: nat)
    requires Reachable(c, s) && w < |s.workers| && s.workers[w].Answering?
    ensures WorkerEnabled(s, w, Answer)
    ensures s.workers[w].j !in s.ledger.slots && s.workers[w].j !in s.ledger.delivered
  {
    assert JobInv(c, s) by {
      ReachableInv(c, s);
    }
    JobAlone(c, s, w);
  }

  /** The answer sent for `j`, whether its caller has received it or not. */
  ghost predicate HasAnswer(s: State, j: JobId, r: Result) {
    (j in s.ledger.slots && s.ledger.slots[j] == r) || (j in s.ledger.delivered && s.ledger.delivered[j] == r)
  }

  lemma WorkerKeepsAnswer(c: Config, s: State, w: nat, a: WorkerAct, j: JobId, r: Result)
    requires JobInv(c, s) && WorkerEnabled(s, w, a) && HasAnswer(s, j, r)
    ensures HasAnswer(WorkerApply(s, w, a), j, r)
  {
    WorkerSteps.WorkerFiles(s, w, a);
    if a.Answer? {
      JobAlone(c, s, w);
    }
  }

  lemma CallerKeepsAnswer(c: Config, s: State, k: nat, a: CallerAct, j: JobId, r: Result)
    requires JobInv(c, s) && CallerEnabled(c, s, k, a) && HasAnswer(s, j, r)
    ensures HasAnswer(CallerApply(c, s, k, a), j, r)
  {
    if a.Receive? {
      SlotNotDelivered(c, s, s.callers[k].j);
    }
  }

  lemma SameLedgerKeepsAnswer(s: State, s': State, j: JobId, r: Result)
    requires s'.ledger == s.ledger && HasAnswer(s, j, r)
    ensures HasAnswer(s', j, r)
  {
  }

  lemma MonitorKeepsAnswer(c: Config, s: State, a: MonitorAct, j: JobId, r: Result)
    requires MonitorEnabled(s, a) && HasAnswer(s, j, r)
    ensures HasAnswer(MonitorApply(c, s, a), j, r)
  {
    MonitorSteps.MonitorFrame(c, s, a);
    SameLedgerKeepsAnswer(s, MonitorApply(c, s, a), j, r);
  }

  lemma StepKeepsAnswer(c: Config, s: State, l: Label, j: JobId, r: Result)
    requires JobInv(c, s) && Enabled(c, s, l) && HasAnswer(s, j, r)
    ensures HasAnswer(Apply(c, s, l), j, r)
  {
    match l
    case ByWorker(w, a) => WorkerKeepsAnswer(c, s, w, a, j, r);
    case ByMonitor(a) => MonitorKeepsAnswer(c, s, a, j, r);
    case ByRemoval(id, a) => SameLedgerKeepsAnswer(s, RemovalApply(s, id, a), j, r);
    case ByCloser => SameLedgerKeepsAnswer(s, CloserApply(s), j, r);
    case ByCaller(k, a) => CallerKeepsAnswer(c, s, k, a, j, r);
  }

  lemma {:induction false} AnswerStays(c: Config, s: State, ls: seq<Label>, j: JobId, r: Result)
    requires Inv(c, s) && Runs(c, s, ls) && HasAnswer(s, j, r)
    ensures HasAnswer(After(c, s, ls), j, r)
    decreases |ls|
  {
    if ls != [] {
      StepKeepsAnswer(c, s, ls[0], j, r);
      StepKeeps(c, s, ls[0]);
      AnswerStays(c, Apply(c, s, ls[0]), ls[1..], j, r);
    }
  }

  lemma OneAnswerAt(c: Config, s: State, j: JobId, r: Result, r': Result)
    requires JobInv(c, s) && HasAnswer(s, j, r) && HasAnswer(s, j, r')
    ensures r == r'
  {
    if j in s.ledger.slots {
      SlotNotDelivered(c, s, j);
    }
  }

  lemma AnsweredIsDone(c: Config, s: State, j: JobId, r: Result)
    requires JobInv(c, s) && HasAnswer(s, j, r)
    ensures !At(s, j, Queued) && !At(s, j, InHand) && !At(s, j, Rejected)
  {
    OnePlace(c, s, j);
    assert At(s, j, Answered) || At(s, j, Delivered);
  }

  /** Exactly one answer: once a job is answered it is done, and no run gives it a second or a different answer. */
  lemma AnswerIsFinal(c: Config, s: State, ls: seq<Label>, j: JobId, r: Result, r': Result)
    requires Reachable(c, s) && Runs(c, s, ls)
    requires HasAnswer(s, j, r) && HasAnswer(After(c, s, ls), j, r')
    ensures r == r'
    ensures !At(After(c, s, ls), j, Queued) && !At(After(c, s, ls), j, InHand) && !At(After(c, s, ls), j, Rejected)
  {
    var t := After(c, s, ls);
    assert HasAnswer(t, j, r) && JobInv(c, t) by {
      ReachableInv(c, s);
      AnswerStays(c, s, ls, j, r);
      RunKeeps(c, s, ls);
    }
    OneAnswerAt(c, t, j, r, r');
    AnsweredIsDone(c, t, j, r);
  }

  /**
   Every answer belongs to its own job. Success is true iff there is no error, and iff the job's own
   language and code were run without error, in the container leased to the worker that handled it.
   */
  lemma AnswersAreFaithful(c: Config, s: State, j: JobId, r: Result)
    requires Reachable(c, s) && HasAnswer(s, j, r)
    ensures j < |s.ledger.jobs|
    ensures r.success <==> r.error.None?
    ensures r.success <==> j in s.ledger.execs && s.ledger.execs[j].failure.None?
    ensures j in s.ledger.execs ==>
      var e := s.ledger.execs[j];
      && e.job == s.ledger.jobs[j] && Supported(e.job.language) && r.output == e.output
      && j in s.ledger.leases && e.lease == s.ledger.leases[j]
    ensures r.error == Some(NoAvailableContainer) <==> j !in s.ledger.leases
    ensures j in s.ledger.leases ==>
      (r.error == Some(UnsupportedLanguage(s.ledger.jobs[j].language)) <==> !Supported(s.ledger.jobs[j].language))
  {
    assert LedgerInv(s.ledger) by {
      ReachableInv(c, s);
    }
    assert Faithful(s.ledger, j, r);
  }

  /** The answer to a job in a supported language is its own run's outcome, or that there was no container. */
  lemma SupportedJobAnswer(c: Config, s: State, j: JobId, r: Result)
    requires Reachable(c, s) && HasAnswer(s, j, r) && Supported(JobAt(s.ledger, j).language)
    ensures r == NoContainer()
      || (j in s.ledger.execs && r == FromRun(s.ledger.execs[j].output, s.ledger.execs[j].failure))
  {
    assert LedgerInv(s.ledger) by {
      ReachableInv(c, s);
    }
    assert Faithful(s.ledger, j, r);
  }

  /** A job is leased at most one container and executed at most once: neither entry is ever overwritten. */
  lemma OneLeaseOneExecution(c: Config, s: State, w: nat, a: WorkerAct)
    requires Reachable(c, s) && WorkerEnabled(s, w, a)
    ensures a.Hit? ==> s.workers[w].j !in s.ledger.leases
    ensures a.Finish? ==> s.workers[w].j !in s.ledger.execs && Leased(s.ledger, w, s.workers[w].j, s.workers[w].id)
  {
    assert WorkerResultInv(s.ledger, w, s.workers[w]) by {
      ReachableInv(c, s);
    }
  }
}
