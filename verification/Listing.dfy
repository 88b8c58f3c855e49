/**
 What the monitor does to the register over whole runs, told from docker's answers: it acts on its last
 successful listing, and a failed listing has no effect.
 */
module Listings {
  import opened Types
  import opened Machine
  import opened Invariants
  import opened CallerSteps
  import opened RunProofs
  import WorkerSteps
  import MonitorSteps

  /** Docker's answer to the monitor's last list call in a run. */
  datatype Answer = NotAsked | Failed | Listed(ids: seq<ContainerId>)

  function LastAnswer(ls: seq<Label>): Answer {
    if ls == [] then NotAsked
    else
      var l := ls[|ls| - 1];
      if l.ByMonitor? && l.monitor.List? then Listed(l.monitor.ids)
      else if l.ByMonitor? && l.monitor.ListFails? then Failed
      else LastAnswer(ls[..|ls| - 1])
  }

  /** The answer after one more step. */
  function NextAnswer(a: Answer, l: Label): Answer {
    if l.ByMonitor? && l.monitor.List? then Listed(l.monitor.ids)
    else if l.ByMonitor? && l.monitor.ListFails? then Failed
    else a
  }

  /**
   While a pass is deciding and removing, its list is docker's last answer: it keeps only ids of that list,
   and what it does not keep it has marked. Without a successful last answer no pass is under way.
   */
  ghost predicate Tied(a: Answer, m: Monitor, ids: set<ContainerId>) {
    match m
    case Resting => true
    case Listing => true
    case Checking(listed, todo, running) => a.Listed? && Names(a, listed, running) && forall id <- todo :: id in a.ids
    case Rereading(listed, todo, running) => a.Listed? && Names(a, listed, running) && forall id <- todo :: id in a.ids
    case Sweeping(listed, running) => a.Listed? && Names(a, listed, running)
    case Removing(listed, running, stale, _) => a.Listed? && Names(a, listed, running) && ids <= running + stale
    case Deleting(listed, running, stale, _, _) => a.Listed? && Names(a, listed, running) && ids <= running + stale
    case _ => a.Listed?
  }

  ghost predicate Names(a: Answer, listed: set<ContainerId>, running: set<ContainerId>) {
    a.Listed? && (forall id :: id in listed <==> id in a.ids) && running <= listed
  }

  lemma MonitorTies(c: Config, s: State, a: MonitorAct, last: Answer)
    requires MonitorEnabled(s, a) && Tied(last, s.monitor, s.pool.containers.Keys)
    ensures var s' := MonitorApply(c, s, a);
      Tied(NextAnswer(last, ByMonitor(a)), s'.monitor, s'.pool.containers.Keys)
  {
    match a
    case Look => LookTies(c, s, last);
    case Reread => RereadTies(c, s, last);
    case Sweep => SweepTies(c, s, last);
    case Delete => DeleteTies(c, s, last);
    case List(_) =>
    case LockSweep =>
    case DockerRemove(_) =>
    case Branch =>
    case _ => RestTies(c, s, a, last);
  }

  lemma LookTies(c: Config, s: State, last: Answer)
    requires MonitorEnabled(s, Look) && Tied(last, s.monitor, s.pool.containers.Keys)
    ensures var s' := MonitorApply(c, s, Look); Tied(last, s'.monitor, s'.pool.containers.Keys)
  {
  }

  lemma RereadTies(c: Config, s: State, last: Answer)
    requires MonitorEnabled(s, Reread) && Tied(last, s.monitor, s.pool.containers.Keys)
    ensures var s' := MonitorApply(c, s, Reread); Tied(last, s'.monitor, s'.pool.containers.Keys)
  {
    assert s.monitor.todo[0] in s.monitor.todo;
  }

  lemma SweepTies(c: Config, s: State, last: Answer)
    requires MonitorEnabled(s, Sweep) && Tied(last, s.monitor, s.pool.containers.Keys)
    ensures var s' := MonitorApply(c, s, Sweep); Tied(last, s'.monitor, s'.pool.containers.Keys)
  {
  }

  lemma DeleteTies(c: Config, s: State, last: Answer)
    requires MonitorEnabled(s, Delete) && Tied(last, s.monitor, s.pool.containers.Keys)
    ensures var s' := MonitorApply(c, s, Delete); Tied(last, s'.monitor, s'.pool.containers.Keys)
  {
    assert MonitorApply(c, s, Delete).pool.containers.Keys == s.pool.containers.Keys - {s.monitor.id};
  }

  lemma RestTies(c: Config, s: State, a: MonitorAct, last: Answer)
    requires MonitorEnabled(s, a) && Tied(last, s.monitor, s.pool.containers.Keys)
    requires !a.Look? && !a.Reread? && !a.Sweep? && !a.Delete? && !a.List? && !a.LockSweep? && !a.DockerRemove?
      && !a.Branch?
    ensures var s' := MonitorApply(c, s, a);
      Tied(NextAnswer(last, ByMonitor(a)), s'.monitor, s'.pool.containers.Keys)
  {
  }

  lemma ShrinkTies(last: Answer, m: Monitor, ids: set<ContainerId>, ids': set<ContainerId>)
    requires Tied(last, m, ids) && ids' <= ids
    ensures Tied(last, m, ids')
  {
  }

  lemma WorkerTies(s: State, w: nat, a: WorkerAct, last: Answer)
    requires WorkerEnabled(s, w, a) && Tied(last, s.monitor, s.pool.containers.Keys)
    ensures var s' := WorkerApply(s, w, a); Tied(last, s'.monitor, s'.pool.containers.Keys)
  {
    WorkerSteps.WorkerFrame(s, w, a);
    WorkerSteps.WorkerRegisters(s, w, a);
    ShrinkTies(last, s.monitor, s.pool.containers.Keys, WorkerApply(s, w, a).pool.containers.Keys);
  }

  lemma StepTies(c: Config, s: State, l: Label, last: Answer)
    requires Enabled(c, s, l) && Tied(last, s.monitor, s.pool.containers.Keys)
    ensures var s' := Apply(c, s, l); Tied(NextAnswer(last, l), s'.monitor, s'.pool.containers.Keys)
  {
    var s' := Apply(c, s, l);
    match l
    case ByWorker(w, a) => WorkerTies(s, w, a, last);
    case ByMonitor(a) => MonitorTies(c, s, a, last);
    case ByRemoval(id, a) => ShrinkTies(last, s.monitor, s.pool.containers.Keys, s'.pool.containers.Keys);
    case ByCloser => ShrinkTies(last, s.monitor, s.pool.containers.Keys, s'.pool.containers.Keys);
    case ByCaller(k, a) => CallerFrame(c, s, k, a);
  }

  /** The answer after the steps `ls`, if it was `last` before them. */
  function AnswerAfter(last: Answer, ls: seq<Label>): Answer
    decreases |ls|
  {
    if ls == [] then last else AnswerAfter(NextAnswer(last, ls[0]), ls[1..])
  }

  lemma {:induction false} AnswerAppend(last: Answer, ls: seq<Label>, l: Label)
    ensures AnswerAfter(last, ls + [l]) == NextAnswer(AnswerAfter(last, ls), l)
    decreases |ls|
  {
    if ls == [] {
      assert ([l])[1..] == [];
      assert ls + [l] == [l];
    } else {
      assert (ls + [l])[0] == ls[0] && (ls + [l])[1..] == ls[1..] + [l];
      AnswerAppend(NextAnswer(last, ls[0]), ls[1..], l);
    }
  }

  lemma {:induction false} AnswersAgree(ls: seq<Label>)
    ensures AnswerAfter(NotAsked, ls) == LastAnswer(ls)
    decreases |ls|
  {
    if ls != [] {
      var init, l := ls[..|ls| - 1], ls[|ls| - 1];
      AnswersAgree(init);
      AnswerAppend(NotAsked, init, l);
      assert ls == init + [l];
    }
  }

  lemma {:induction false} RunTies(c: Config, s: State, ls: seq<Label>, last: Answer)
    requires Runs(c, s, ls) && Tied(last, s.monitor, s.pool.containers.Keys)
    ensures var s' := After(c, s, ls); Tied(AnswerAfter(last, ls), s'.monitor, s'.pool.containers.Keys)
    decreases |ls|
  {
    if ls != [] {
      StepTies(c, s, ls[0], last);
      RunTies(c, Apply(c, s, ls[0]), ls[1..], NextAnswer(last, ls[0]));
    }
  }

  lemma InitTies(c: Config, s0: State, ls: seq<Label>)
    requires Init(c, s0) && Runs(c, s0, ls)
    ensures var s := After(c, s0, ls); Tied(LastAnswer(ls), s.monitor, s.pool.containers.Keys)
  {
    RunTies(c, s0, ls, NotAsked);
    AnswersAgree(ls);
  }

  // ---------------------------------------------------------------- what the monitor may touch

  /**
   A healthy container is unregistered by the monitor only if docker's last answer was a list without it: in
   particular never after a list call that failed.
   */
  lemma HealthyIsReapedOnlyIfUnlisted(c: Config, s0: State, ls: seq<Label>, a: MonitorAct, id: ContainerId)
    requires Init(c, s0) && Runs(c, s0, ls) && Enabled(c, After(c, s0, ls), ByMonitor(a))
    requires var s := After(c, s0, ls);
      id in s.pool.containers && s.pool.containers[id] != Error && id !in MonitorApply(c, s, a).pool.containers
    ensures LastAnswer(ls).Listed? && id !in LastAnswer(ls).ids
  {
    var s := After(c, s0, ls);
    InitTies(c, s0, ls);
    assert MonitorInv(c, s) by {
      InitHolds(c, s0);
      RunKeeps(c, s0, ls);
    }
    MonitorSteps.MonitorRegisters(c, s, a);
    ReapedIsStale(c, s, a, id);
  }

  lemma ReapedIsStale(c: Config, s: State, a: MonitorAct, id: ContainerId)
    requires MonitorInv(c, s) && MonitorEnabled(s, a) && id in s.pool.containers && s.pool.containers[id] != Error
    requires id !in MonitorApply(c, s, a).pool.containers
    ensures s.monitor.Deleting? && id !in s.monitor.listed
  {
    MonitorSteps.MonitorRegisters(c, s, a);
  }

  /** From a failed list call until the next successful one the monitor leaves the register alone. */
  lemma FailedListingTouchesNothing(c: Config, s0: State, ls: seq<Label>, a: MonitorAct)
    requires Init(c, s0) && Runs(c, s0, ls) && Enabled(c, After(c, s0, ls), ByMonitor(a))
    requires !LastAnswer(ls).Listed?
    ensures MonitorApply(c, After(c, s0, ls), a).pool == After(c, s0, ls).pool
  {
    InitTies(c, s0, ls);
    NoListNoTouch(c, After(c, s0, ls), a, LastAnswer(ls));
  }

  lemma NoListNoTouch(c: Config, s: State, a: MonitorAct, last: Answer)
    requires Tied(last, s.monitor, s.pool.containers.Keys) && !last.Listed? && MonitorEnabled(s, a)
    ensures MonitorApply(c, s, a).pool == s.pool
  {
    assert s.monitor.Resting? || s.monitor.Listing?;
  }

  /** When a pass has removed what it had marked, only containers of docker's last answer are left. */
  lemma OnlyListedAreLeft(c: Config, s0: State, ls: seq<Label>, id: ContainerId)
    requires Init(c, s0) && Runs(c, s0, ls) && Enabled(c, After(c, s0, ls), ByMonitor(Branch))
    requires id in After(c, s0, ls).pool.containers
    ensures LastAnswer(ls).Listed? && id in LastAnswer(ls).ids
  {
    InitTies(c, s0, ls);
    LeftIsListed(After(c, s0, ls), LastAnswer(ls), id);
  }

  lemma LeftIsListed(s: State, last: Answer, id: ContainerId)
    requires Tied(last, s.monitor, s.pool.containers.Keys) && MonitorEnabled(s, Branch) && id in s.pool.containers
    ensures last.Listed? && id in last.ids
  {
  }
}
