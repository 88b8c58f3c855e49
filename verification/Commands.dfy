/** What the workers of the concurrent engine run: in every execution, the job's own program in the leased container. */
module Commands {
  import opened Types
  import opened LanguageConfigs
  import opened Machine
  import opened Invariants
  import opened RunProofs
  import Shell
  import WorkerSteps
  import MonitorSteps

  ghost predicate AllCommanded(g: Ledger) {
    forall j <- g.execs :: Commanded(g.execs[j])
  }

  predicate Commanded(e: Exec) {
    Supported(e.job.language) && e.argv == DockerExec(e.lease.id.hash, e.job)
  }

  lemma FinishCommands(s: State, w: nat, output: string, failure: Option<string>)
    requires WorkerEnabled(s, w, Finish(output, failure)) && WorkerResultInv(s.ledger, w, s.workers[w])
    ensures var p, g' := s.workers[w], WorkerApply(s, w, Finish(output, failure)).ledger;
      g'.execs.Keys == s.ledger.execs.Keys + {p.j} && Commanded(g'.execs[p.j])
      && forall j <- s.ledger.execs :: j != p.j ==> g'.execs[j] == s.ledger.execs[j]
  {
  }

  lemma WorkerKeepsExecs(s: State, w: nat, a: WorkerAct)
    requires WorkerEnabled(s, w, a) && !a.Finish?
    ensures WorkerApply(s, w, a).ledger.execs == s.ledger.execs
  {
    WorkerSteps.WorkerFiles(s, w, a);
  }

  lemma CallerKeepsExecs(c: Config, s: State, k: nat, a: CallerAct)
    requires CallerEnabled(c, s, k, a)
    ensures CallerApply(c, s, k, a).ledger.execs == s.ledger.execs
  {
  }

  /** Only a worker whose command has ended files an execution. */
  lemma OthersKeepExecs(c: Config, s: State, l: Label)
    requires Enabled(c, s, l) && !(l.ByWorker? && l.worker.Finish?)
    ensures Apply(c, s, l).ledger.execs == s.ledger.execs
  {
    match l
    case ByWorker(w, a) => WorkerKeepsExecs(s, w, a);
    case ByMonitor(a) => MonitorSteps.MonitorFrame(c, s, a);
    case ByRemoval(id, a) =>
    case ByCloser =>
    case ByCaller(k, a) => CallerKeepsExecs(c, s, k, a);
  }

  lemma StepCommands(c: Config, s: State, l: Label)
    requires ResultInv(s) && AllCommanded(s.ledger) && Enabled(c, s, l)
    ensures AllCommanded(Apply(c, s, l).ledger)
  {
    if l.ByWorker? && l.worker.Finish? {
      assert WorkerResultInv(s.ledger, l.w, s.workers[l.w]);
      FinishCommands(s, l.w, l.worker.output, l.worker.failure);
      OneMoreCommanded(s.ledger, Apply(c, s, l).ledger, s.workers[l.w].j);
    } else {
      OthersKeepExecs(c, s, l);
      SameCommanded(s.ledger, Apply(c, s, l).ledger);
    }
  }

  lemma OneMoreCommanded(g: Ledger, g': Ledger, j: JobId)
    requires AllCommanded(g) && g'.execs.Keys == g.execs.Keys + {j} && Commanded(g'.execs[j])
    requires forall i <- g.execs :: i != j ==> g'.execs[i] == g.execs[i]
    ensures AllCommanded(g')
  {
  }

  lemma SameCommanded(g: Ledger, g': Ledger)
    requires AllCommanded(g) && g'.execs == g.execs
    ensures AllCommanded(g')
  {
  }

  lemma {:induction false} RunCommands(c: Config, s: State, ls: seq<Label>)
    requires Reachable(c, s) && AllCommanded(s.ledger) && Runs(c, s, ls)
    ensures AllCommanded(After(c, s, ls).ledger)
    decreases |ls|
  {
    if ls != [] {
      assert ResultInv(s) by {
        ReachableInv(c, s);
      }
      StepCommands(c, s, ls[0]);
      NextReachable(c, s, ls[0]);
      RunCommands(c, Apply(c, s, ls[0]), ls[1..]);
    }
  }

  lemma ReachableCommands(c: Config, s: State)
    requires Reachable(c, s)
    ensures AllCommanded(s.ledger)
  {
    var s0, ls :| Init(c, s0) && Runs(c, s0, ls) && After(c, s0, ls) == s;
    StartReachable(c, s0);
    RunCommands(c, s0, ls);
  }

  /**
   Every execution of every run is docker's execution of the job's own program, by its own language's tool, in
   the container leased for the job.
   */
  lemma ExecutionsRunTheirJobs(c: Config, s: State, j: JobId)
    requires Reachable(c, s) && j in s.ledger.execs
    ensures j < |s.ledger.jobs| && j in s.ledger.leases
    ensures Shell.RunsJobIn(s.ledger.execs[j].argv, s.ledger.leases[j].id.hash, s.ledger.jobs[j])
  {
    assert LedgerInv(s.ledger) by {
      ReachableInv(c, s);
    }
    ReachableCommands(c, s);
    var e := s.ledger.execs[j];
    assert Commanded(e) && e.job == s.ledger.jobs[j] && e.lease == s.ledger.leases[j];
    CommandedRuns(e);
  }

  lemma CommandedRuns(e: Exec)
    requires Commanded(e)
    ensures Shell.RunsJobIn(e.argv, e.lease.id.hash, e.job)
  {
    Shell.DockerRunsJob(e.lease.id.hash, e.job);
  }
}
