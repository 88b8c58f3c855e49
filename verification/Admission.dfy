/** When ExecuteJob rejects a job because the channel is full. */
module Admission {
  import opened Types
  import opened Bags
  import opened Machine
  import opened Invariants
  import opened RunProofs
  import WorkerSteps
  import MonitorSteps

  /** A blocked caller waits for one job, so the channel cannot hold more jobs than there are blocked callers. */
  lemma QueueWithinCallers(c: Config, s: State, k: nat)
    requires JobInv(c, s) && k < |s.callers| && s.callers[k].Free?
    ensures |s.ledger.queue| < c.callers
  {
    assert BlockedOn(s.callers[k]) == multiset{};
    GatherSize(BlockedOn, s.callers);
    assert |multiset(s.ledger.queue)| <= |OnTheWay(s)|;
  }

  lemma FewCallersAreAdmitted(c: Config, s: State, k: nat, job: Job)
    requires JobInv(c, s) && c.callers <= c.maxJobs
    ensures !CallerEnabled(c, s, k, Reject(job))
  {
    if k < |s.callers| && s.callers[k].Free? {
      QueueWithinCallers(c, s, k);
    }
  }

  lemma OnlyRejectRejects(c: Config, s: State, l: Label)
    requires Enabled(c, s, l) && !(l.ByCaller? && l.caller.Reject?)
    ensures Apply(c, s, l).ledger.rejected == s.ledger.rejected
  {
    match l
    case ByWorker(w, a) => WorkerSteps.WorkerFiles(s, w, a);
    case ByMonitor(a) => MonitorSteps.MonitorFrame(c, s, a);
    case ByRemoval(id, a) =>
    case ByCloser =>
    case ByCaller(k, a) =>
  }

  lemma {:induction false} NoneRejected(c: Config, s: State, ls: seq<Label>)
    requires Inv(c, s) && Runs(c, s, ls) && c.callers <= c.maxJobs && s.ledger.rejected == {}
    ensures After(c, s, ls).ledger.rejected == {}
    decreases |ls|
  {
    if ls != [] {
      if ls[0].ByCaller? && ls[0].caller.Reject? {
        FewCallersAreAdmitted(c, s, ls[0].k, ls[0].caller.job);
        assert false;
      } else {
        OnlyRejectRejects(c, s, ls[0]);
      }
      StepKeeps(c, s, ls[0]);
      NoneRejected(c, Apply(c, s, ls[0]), ls[1..]);
    }
  }

  // ---------------------------------------------------------------- the other direction

  /** The first `n` callers submit one job each before any worker moves. */
  lemma {:induction false} Fill(c: Config, s0: State, n: nat, job: Job) returns (ls: seq<Label>)
    requires Init(c, s0) && n <= c.maxJobs && n <= c.callers
    ensures Runs(c, s0, ls)
    ensures var s := After(c, s0, ls);
      && |s.ledger.queue| == n && s.closer.Open? && !s.crashed
      && |s.callers| == c.callers && forall k: nat :: n <= k < c.callers ==> s.callers[k].Free?
  {
    if n == 0 {
      ls := [];
    } else {
      var before := Fill(c, s0, n - 1, job);
      var l := ByCaller(n - 1, Submit(job));
      ls := RunsThen(c, s0, before, l);
    }
  }

  lemma ManyCallersCanBeRejected(c: Config, s0: State) returns (ls: seq<Label>)
    requires Init(c, s0) && c.callers > c.maxJobs
    ensures Runs(c, s0, ls) && After(c, s0, ls).ledger.rejected != {}
  {
    var job := Job("go", "");
    var full := Fill(c, s0, c.maxJobs, job);
    var l := ByCaller(c.maxJobs, Reject(job));
    assert Enabled(c, After(c, s0, full), l);
    ls := RunsThen(c, s0, full, l);
  }

  /** Callers block until answered: no run rejects a job if and only if there are at most maxJobs callers. */
  lemma AdmissionBound(c: Config, s0: State)
    requires Init(c, s0)
    ensures (forall ls :: Runs(c, s0, ls) ==> After(c, s0, ls).ledger.rejected == {}) <==> c.callers <= c.maxJobs
  {
    if c.callers <= c.maxJobs {
      InitHolds(c, s0);
      forall ls | Runs(c, s0, ls) ensures After(c, s0, ls).ledger.rejected == {} {
        NoneRejected(c, s0, ls);
      }
    } else {
      var ls := ManyCallersCanBeRejected(c, s0);
    }
  }
}
