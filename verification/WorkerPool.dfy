/**
 One worker's code in executor/worker_pool.go, with nobody else moving: the path of one job and the worker's
 loop over the jobs queued so far. Module Engines has the pool with all its goroutines.
 */
module WorkerPools {
  import opened Types
  import opened LanguageConfigs
  import opened Machine
  import opened Reconcile
  import opened ContainerManagers
  import Shell

  /** When a watcher's removal reaches the register, relative to the release of the container. */
  datatype Surge = NoSurge | BeforeRelease | AfterRelease

  /** How a command given to `docker exec` ended. */
  datatype Ending = Ending(output: string, failure: Option<string>)

  /** What the world does while one job is handled; `run` says how each command line would end. */
  datatype Environment = Environment(deleted: seq<set<ContainerId>>, surge: Surge, run: seq<string> -> Ending)

  /** A queued job; `ticket` names its result channel. */
  datatype Queued = Queued(ticket: nat, job: Job)

  /** What executeCode returns for a job in container `id`: how the command line for its language and code ended. */
  function Outcome(id: ContainerId, job: Job, env: Environment): Result {
    if Supported(job.language) then
      var ending := env.run(DockerExec(id.hash, job));
      FromRun(ending.output, ending.failure)
    else Unsupported(job.language)
  }

  /** `r` says how docker's run of the job's own program in container `id` ended. */
  ghost predicate RanIn(id: ContainerId, job: Job, env: Environment, r: Result) {
    exists argv :: Shell.RunsJobIn(argv, id.hash, job) && r == FromRun(env.run(argv).output, env.run(argv).failure)
  }

  lemma OutcomeRuns(id: ContainerId, job: Job, env: Environment)
    requires Supported(job.language)
    ensures RanIn(id, job, env, Outcome(id, job, env))
  {
    Shell.DockerRunsJob(id.hash, job);
  }

  lemma ConfiguredOutcome(id: ContainerId, job: Job, env: Environment, config: LanguageConfig)
    requires GetLanguageConfig(job.language) == Some(config)
    ensures var ending := env.run(["docker", "exec", id.hash] + config.Args(job.code));
      var r := FromRun(ending.output, ending.failure);
      Supported(job.language) && r == Outcome(id, job, env) && RanIn(id, job, env, r)
  {
    OutcomeRuns(id, job, env);
  }

  /** `docker exec` is started with the arguments the configuration gives, and waited for. */
  method RunCommand(id: ContainerId, job: Job, env: Environment, config: LanguageConfig) returns (r: Result)
    requires GetLanguageConfig(job.language) == Some(config)
    ensures Supported(job.language) && r == Outcome(id, job, env) && RanIn(id, job, env, r)
  {
    var argv := ["docker", "exec", id.hash] + config.Args(job.code);
    var ending := env.run(argv);
    r := FromRun(ending.output, ending.failure);
    ConfiguredOutcome(id, job, env, config);
  }

  /** `r` is what executeCode can return for the job, in whichever container. */
  ghost predicate OwnOutcome(job: Job, env: Environment, r: Result) {
    exists id :: r == Outcome(id, job, env) && (Supported(job.language) ==> RanIn(id, job, env, r))
  }

  ghost predicate CanAnswer(job: Job, env: Environment, r: Result) {
    r == NoContainer() || OwnOutcome(job, env, r)
  }

  /**
   The first `n` jobs are answered: as CanAnswer says, all without a container if none was Idle at the start,
   and all with their own outcome if one is still Idle now.
   */
  ghost predicate Answered(jobs: seq<Queued>, envs: seq<Environment>, slots: map<nat, Result>, n: nat,
                           before: Register, now: Register)
    requires n <= |jobs| <= |envs|
  {
    forall i :: 0 <= i < n ==>
      && jobs[i].ticket in slots && CanAnswer(jobs[i].job, envs[i], slots[jobs[i].ticket])
      && (NoneIdle(before) ==> slots[jobs[i].ticket] == NoContainer())
      && (!NoneIdle(now) ==> OwnOutcome(jobs[i].job, envs[i], slots[jobs[i].ticket]))
  }

  predicate Distinct(jobs: seq<Queued>) {
    forall i, j :: 0 <= i < j < |jobs| ==> jobs[i].ticket != jobs[j].ticket
  }

  /** Idle entries never come back, so one job more is answered. */
  lemma AnswerNext(jobs: seq<Queued>, envs: seq<Environment>, slots: map<nat, Result>, n: nat,
                   before: Register, now: Register, now': Register, r: Result)
    requires n < |jobs| <= |envs| && Distinct(jobs) && Answered(jobs, envs, slots, n, before, now)
    requires NoneIdle(before) ==> NoneIdle(now)
    requires if NoneIdle(now) then r == NoContainer() && NoneIdle(now') else OwnOutcome(jobs[n].job, envs[n], r)
    ensures Answered(jobs, envs, slots[jobs[n].ticket := r], n + 1, before, now')
  {
  }

  predicate WellFormed(env: Environment) {
    |env.deleted| == MAX_RETRIES
  }

  /** The Idle container `id` was used for `job` and is Idle again, or gone after a surge. */
  predicate Released(m: Register, m': Register, id: ContainerId, job: Job, env: Environment) {
    id in m && m[id] == Idle && m' == if Supported(job.language) && env.surge != NoSurge then m - {id} else m
  }

  /** Taking an Idle container and giving it back is no change; a release after a removal registers nothing. */
  lemma TakeAndRelease(m: Register, id: ContainerId)
    requires id in m && m[id] == Idle
    ensures var taken := m[id := Busy];
      WithState(taken, id, Busy) == taken && WithState(taken, id, Idle) == m
        && WithState(taken - {id}, id, Idle) == m - {id}
  {
  }

  class WorkerPool {
    const containerMgr: ContainerManager
    var jobs: seq<Queued>
    var slots: map<nat, Result>

    ghost predicate Valid()
      reads this, containerMgr
    {
      && !containerMgr.locked
      && (forall q <- jobs :: q.ticket !in slots)
      && Distinct(jobs)
    }

    constructor (containerMgr: ContainerManager, jobs: seq<Queued>)
      requires !containerMgr.locked && Distinct(jobs)
      ensures Valid() && this.jobs == jobs && slots == map[] && this.containerMgr == containerMgr
    {
      this.containerMgr := containerMgr;
      this.jobs, slots := jobs, map[];
    }

    /** executeCode: an unsupported language is refused before anything runs or is watched. */
    method ExecuteCode(id: ContainerId, job: Job, env: Environment) returns (r: Result)
      requires !containerMgr.locked
      modifies containerMgr
      ensures !containerMgr.locked && r == Outcome(id, job, env)
      ensures if Supported(job.language) then RanIn(id, job, env, r)
              else r == Result("", false, Some(UnsupportedLanguage(job.language)))
      ensures containerMgr.containers ==
        if Supported(job.language) && env.surge.BeforeRelease? then old(containerMgr.containers) - {id}
        else old(containerMgr.containers)
    {
      var config := GetLanguageConfig(job.language);
      if config.None? {
        return Unsupported(job.language);
      }
      r := RunCommand(id, job, env, config.value);
      if env.surge.BeforeRelease? {
        containerMgr.RemoveContainer(id);
      }
    }

    /**
     executeJob: acquire, run, release. The answer is the job's own outcome, or that there was no container;
     the container taken is Idle again afterwards, or unregistered if a surge removed it.
     */
    method Handle(job: Job, env: Environment) returns (r: Result)
      requires !containerMgr.locked && WellFormed(env)
      modifies containerMgr
      ensures !containerMgr.locked
      ensures NoneIdle(old(containerMgr.containers)) ==>
        && r == NoContainer()
        && containerMgr.containers == old(containerMgr.containers) - DeletedBefore(env.deleted, MAX_RETRIES)
      ensures !NoneIdle(old(containerMgr.containers)) ==>
        exists id ::
          && Released(old(containerMgr.containers), containerMgr.containers, id, job, env)
          && r == Outcome(id, job, env)
          && (Supported(job.language) ==> RanIn(id, job, env, r))
    {
      var found := containerMgr.GetAvailableContainer(env.deleted);
      if found.None? {
        return NoContainer();
      }
      var id := found.value;
      TakeAndRelease(old(containerMgr.containers), id);
      containerMgr.SetContainerState(id, Busy);
      r := ExecuteCode(id, job, env);
      containerMgr.SetContainerState(id, Idle);
      if Supported(job.language) && env.surge.AfterRelease? {
        containerMgr.RemoveContainer(id);
      }
      assert Released(old(containerMgr.containers), containerMgr.containers, id, job, env);
    }

    /** One turn of the worker's loop: the oldest job leaves the channel and its slot, empty until then, is filled. */
    method Serve(env: Environment) returns (r: Result)
      requires Valid() && jobs != [] && WellFormed(env)
      modifies this`jobs, this`slots, containerMgr
      ensures Valid() && jobs == old(jobs)[1..]
      ensures old(jobs)[0].ticket !in old(slots) && slots == old(slots)[old(jobs)[0].ticket := r]
      ensures if NoneIdle(old(containerMgr.containers)) then r == NoContainer() && NoneIdle(containerMgr.containers)
              else OwnOutcome(old(jobs)[0].job, env, r)
      ensures InState(containerMgr.containers, Busy) <= old(InState(containerMgr.containers, Busy))
    {
      var q := jobs[0];
      assert q in jobs;
      jobs := jobs[1..];
      r := Handle(q.job, env);
      slots := slots[q.ticket := r];
    }

    /** The worker's loop, until the channel is empty: first in, first out, one answer to each slot. */
    method Work(envs: seq<Environment>)
      requires Valid() && |envs| >= |jobs| && forall e <- envs :: WellFormed(e)
      modifies this`jobs, this`slots, containerMgr
      ensures Valid() && jobs == []
      ensures slots.Keys == old(slots).Keys + TicketsOf(old(jobs), |old(jobs)|)
      ensures forall t <- old(slots) :: slots[t] == old(slots)[t]
      ensures Answered(old(jobs), envs, slots, |old(jobs)|, old(containerMgr.containers), containerMgr.containers)
      ensures InState(containerMgr.containers, Busy) <= old(InState(containerMgr.containers, Busy))
    {
      ghost var all := jobs;
      var n := 0;
      while jobs != []
        invariant 0 <= n <= |all| && jobs == all[n..] && Valid()
        invariant slots.Keys == old(slots).Keys + TicketsOf(all, n)
        invariant forall t <- old(slots) :: slots[t] == old(slots)[t]
        invariant Answered(all, envs, slots, n, old(containerMgr.containers), containerMgr.containers)
        invariant NoneIdle(old(containerMgr.containers)) ==> NoneIdle(containerMgr.containers)
        invariant InState(containerMgr.containers, Busy) <= old(InState(containerMgr.containers, Busy))
        decreases |jobs|
      {
        ghost var now := containerMgr.containers;
        ghost var was := slots;
        var r := Serve(envs[n]);
        AnswerNext(all, envs, was, n, old(containerMgr.containers), now, containerMgr.containers, r);
        n := n + 1;
      }
    }
  }

  function TicketsOf(jobs: seq<Queued>, n: nat): set<nat>
    requires n <= |jobs|
  {
    set i | 0 <= i < n :: jobs[i].ticket
  }

  /** What a successful InitializePool leaves is what the machine's initial states demand. */
  lemma AdjustedLaunches(maxWorkers: int, listing: seq<ListEntry>, outcomes: seq<StartOutcome>, m: Register)
    requires FreshIds(outcomes, WorkerIds(listing)) && m != map[]
    requires Adjusted(maxWorkers, outcomes, Registered(map[], listing), m)
    ensures Launchable(maxWorkers, m)
  {
    assert |m| == |m.Keys|;
    RegisteredIs(map[], listing);
    AdjustedSize(maxWorkers, outcomes, Registered(map[], listing), m);
    if maxWorkers >= 0 {
      InitialisedPool(maxWorkers, listing, outcomes, m);
    }
  }
}
