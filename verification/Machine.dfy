/**
 The container manager and the worker pool as one concurrent state machine.

 A state holds what the threads share (the register, the mutex, the job channel, the result
 slots), where every thread stands, and history that no step reads. A label names one atomic
 step of one thread together with the answers its environment gives; `Enabled` says when the
 step can be taken and `Apply` what it does.
 */
module Machine {
  import opened Types
  import opened LanguageConfigs

  type JobId = nat

  const MAX_RETRIES := 10

  /** `maxWorkers` and `maxJobs` are the two sizes given to NewWorkerPool; `callers` bounds the concurrent requests. */
  datatype Config = Config(maxWorkers: nat, maxJobs: nat, callers: nat)

  datatype Thread = WorkerThread(w: nat) | MonitorThread | CloserThread

  // ---------------------------------------------------------------- threads

  /** Where a worker goroutine stands; a phase marked (mu) holds the mutex. */
  datatype Worker =
    | Waiting                                          // at the select
    | Requesting(j: JobId)                             // about to lock in GetAvailableContainer
    | Scanning(j: JobId, pass: nat)                    // (mu) `pass` scans have found nothing
    | Acquired(j: JobId, id: ContainerId)              // about to lock in SetContainerState(Busy)
    | MarkingBusy(j: JobId, id: ContainerId)           // (mu)
    | Launching(j: JobId, id: ContainerId)             // entering executeCode
    | Running(j: JobId, id: ContainerId)               // in cmd.Run
    | Returned(j: JobId, id: ContainerId, r: Result)   // about to lock in SetContainerState(Idle)
    | MarkingIdle(j: JobId, id: ContainerId, r: Result)  // (mu)
    | Answering(j: JobId, r: Result)                   // about to send on the job's result channel
    | Exited

  /** Where the monitor goroutine stands. `listed` is the worker ids docker named in this pass. */
  datatype Monitor =
    | Resting
    | Listing
    | Checking(listed: set<ContainerId>, todo: seq<ContainerId>, running: set<ContainerId>)
    | Rereading(listed: set<ContainerId>, todo: seq<ContainerId>, running: set<ContainerId>)
    | Sweeping(listed: set<ContainerId>, running: set<ContainerId>)  // (mu)
    | Removing(listed: set<ContainerId>, running: set<ContainerId>, stale: set<ContainerId>, count: int)
    | Deleting(listed: set<ContainerId>, running: set<ContainerId>, stale: set<ContainerId>, count: int,
      id: ContainerId)
    | Starting(left: int)                              // head of the counted loop
    | Guarding(left: int)                              // (mu) the size guard of StartContainer
    | Creating(left: int)                              // unlocked, waiting for docker
    | Registering(left: int, id: ContainerId)          // about to lock and insert
    | Inserting(left: int, id: ContainerId)            // (mu)
    | Excess(surplus: int)                             // about to call removeExcessContainers
    | Trimming(surplus: int)                           // (mu)

  datatype Closer = Open | Signalled | JobsClosed | Snapshotting | Purging | WantClear | Clearing | Closed

  datatype Caller = Free | Blocked(j: JobId)

  // ---------------------------------------------------------------- history

  datatype Lease = Lease(worker: nat, id: ContainerId)
  datatype Exec = Exec(lease: Lease, job: Job, argv: seq<string>, output: string, failure: Option<string>)

  /** The container manager's side of a state. `used` is every id ever registered. */
  datatype Pool = Pool(
    containers: Register,
    watchers: multiset<ContainerId>,
    removing: multiset<ContainerId>,
    deleting: multiset<ContainerId>,
    used: set<ContainerId>)

  /** The jobs' side: the channel and the one-slot result channels, then the history of submissions. */
  datatype Ledger = Ledger(
    queue: seq<JobId>,
    slots: map<JobId, Result>,
    jobs: seq<Job>,
    rejected: set<JobId>,
    accepted: seq<JobId>,
    dequeued: seq<JobId>,
    delivered: map<JobId, Result>,
    leases: map<JobId, Lease>,
    execs: map<JobId, Exec>)

  datatype State = State(
    pool: Pool,
    ledger: Ledger,
    mu: Option<Thread>,
    workers: seq<Worker>,
    monitor: Monitor,
    closer: Closer,
    callers: seq<Caller>,
    passes: nat,
    crashed: bool)

  // ---------------------------------------------------------------- labels

  datatype WorkerAct =
    | Dequeue | SeeShutdown | LockPool | Hit(id: ContainerId) | Miss | GiveUp
    | LockBusy | MarkBusy | Launch | Finish(output: string, failure: Option<string>)
    | LockIdle | MarkIdle | Answer

  datatype MonitorAct =
    | Tick | ListFails | List(ids: seq<ContainerId>) | Look | Reread | LockSweep | Sweep
    | DockerRemove(id: ContainerId) | Delete | Branch
    | NextStart | Guard | CreateFails | Create(id: ContainerId) | LockInsert | Insert
    | LockTrim | Trim(victims: set<ContainerId>)

  datatype RemovalAct = WatcherQuits | WatcherFires | DockerDone | MapDelete

  datatype CallerAct = Submit(job: Job) | Handoff(job: Job, w: nat) | Reject(job: Job) | Receive

  datatype Label =
    | ByWorker(w: nat, worker: WorkerAct)
    | ByMonitor(monitor: MonitorAct)
    | ByRemoval(id: ContainerId, removal: RemovalAct)
    | ByCloser
    | ByCaller(k: nat, caller: CallerAct)

  // ---------------------------------------------------------------- workers

  function JobOf(p: Worker): multiset<JobId> {
    if p.Waiting? || p.Exited? then multiset{} else multiset{p.j}
  }

  function HeldBy(p: Worker): multiset<ContainerId> {
    if p.Acquired? || p.MarkingBusy? || p.Launching? || p.Running? || p.Returned? || p.MarkingIdle?
    then multiset{p.id} else multiset{}
  }

  predicate WorkerLocks(p: Worker) {
    p.Scanning? || p.MarkingBusy? || p.MarkingIdle?
  }

  function JobAt(g: Ledger, j: JobId): Job {
    if j < |g.jobs| then g.jobs[j] else Job("", "")
  }

  /** The execution of a job in the container leased for it. */
  function Execution(lease: Lease, job: Job, output: string, failure: Option<string>): Exec {
    Exec(lease, job, if Supported(job.language) then DockerExec(lease.id.hash, job) else [], output, failure)
  }

  predicate WorkerEnabled(s: State, w: nat, a: WorkerAct) {
    w < |s.workers| &&
    var p := s.workers[w];
    match a
    case Dequeue => p.Waiting? && s.ledger.queue != []
    case SeeShutdown => p.Waiting? && !s.closer.Open?
    case LockPool => p.Requesting? && s.mu.None?
    case Hit(id) => p.Scanning? && p.pass < MAX_RETRIES && id in s.pool.containers && s.pool.containers[id] == Idle
    case Miss => p.Scanning? && p.pass < MAX_RETRIES && NoneIdle(s.pool.containers)
    case GiveUp => p.Scanning? && p.pass >= MAX_RETRIES
    case LockBusy => p.Acquired? && s.mu.None?
    case MarkBusy => p.MarkingBusy?
    case Launch => p.Launching?
    case Finish(_, _) => p.Running?
    case LockIdle => p.Returned? && s.mu.None?
    case MarkIdle => p.MarkingIdle?
    case Answer => p.Answering? && p.j !in s.ledger.slots
  }

  function WorkerApply(s: State, w: nat, a: WorkerAct): State
    requires WorkerEnabled(s, w, a)
  {
    var p := s.workers[w];
    match a
    case Dequeue =>
      var j := s.ledger.queue[0];
      s.(workers := s.workers[w := Requesting(j)],
         ledger := s.ledger.(queue := s.ledger.queue[1..], dequeued := s.ledger.dequeued + [j]))
    case SeeShutdown => s.(workers := s.workers[w := Exited])
    case LockPool => s.(workers := s.workers[w := Scanning(p.j, 0)], mu := Some(WorkerThread(w)))
    case Hit(id) =>
      s.(workers := s.workers[w := Acquired(p.j, id)], mu := None,
         pool := s.pool.(containers := s.pool.containers[id := Busy]),
         ledger := s.ledger.(leases := s.ledger.leases[p.j := Lease(w, id)]))
    case Miss => s.(workers := s.workers[w := Scanning(p.j, p.pass + 1)])
    case GiveUp => s.(workers := s.workers[w := Answering(p.j, NoContainer())], mu := None)
    case LockBusy => s.(workers := s.workers[w := MarkingBusy(p.j, p.id)], mu := Some(WorkerThread(w)))
    case MarkBusy =>
      s.(workers := s.workers[w := Launching(p.j, p.id)], mu := None,
         pool := s.pool.(containers := WithState(s.pool.containers, p.id, Busy)))
    case Launch =>
      var language := JobAt(s.ledger, p.j).language;
      if Supported(language)
      then s.(workers := s.workers[w := Running(p.j, p.id)],
              pool := s.pool.(watchers := s.pool.watchers + multiset{p.id}))
      else s.(workers := s.workers[w := Returned(p.j, p.id, Unsupported(language))])
    case Finish(output, failure) =>
      var exec := Execution(Lease(w, p.id), JobAt(s.ledger, p.j), output, failure);
      s.(workers := s.workers[w := Returned(p.j, p.id, FromRun(output, failure))],
         ledger := s.ledger.(execs := s.ledger.execs[p.j := exec]))
    case LockIdle => s.(workers := s.workers[w := MarkingIdle(p.j, p.id, p.r)], mu := Some(WorkerThread(w)))
    case MarkIdle =>
      s.(workers := s.workers[w := Answering(p.j, p.r)], mu := None,
         pool := s.pool.(containers := WithState(s.pool.containers, p.id, Idle)))
    case Answer =>
      s.(workers := s.workers[w := Waiting], ledger := s.ledger.(slots := s.ledger.slots[p.j := p.r]))
  }

  // ---------------------------------------------------------------- monitor

  predicate MonitorLocks(m: Monitor) {
    m.Sweeping? || m.Guarding? || m.Inserting? || m.Trimming?
  }

  predicate MonitorEnabled(s: State, a: MonitorAct) {
    var m := s.monitor;
    match a
    case Tick => m.Resting?
    case ListFails => m.Listing?
    case List(_) => m.Listing?
    case Look => m.Checking? && m.todo != []
    case Reread => m.Rereading? && m.todo != []
    case LockSweep => m.Checking? && m.todo == [] && s.mu.None?
    case Sweep => m.Sweeping?
    case DockerRemove(id) => m.Removing? && id in m.stale
    case Delete => m.Deleting?
    case Branch => m.Removing? && m.stale == {}
    case NextStart => m.Starting? && (m.left <= 0 || s.mu.None?)
    case Guard => m.Guarding?
    case CreateFails => m.Creating?
    case Create(id) => m.Creating? && id !in s.pool.used
    case LockInsert => m.Registering? && s.mu.None?
    case Insert => m.Inserting?
    case LockTrim => m.Excess? && s.mu.None?
    case Trim(victims) =>
      m.Trimming? && victims <= s.pool.containers.Keys
      && |victims| == if m.surplus <= |s.pool.containers.Keys| then m.surplus else |s.pool.containers.Keys|
  }

  function MonitorApply(c: Config, s: State, a: MonitorAct): State
    requires MonitorEnabled(s, a)
  {
    var m := s.monitor;
    match a
    case Tick => s.(monitor := Listing)
    case ListFails => s.(monitor := Resting)
    case List(ids) => s.(monitor := Checking((set id | id in ids), ids, {}))
    case Look =>
      if m.todo[0] in s.pool.containers
      then s.(monitor := Rereading(m.listed, m.todo, m.running))
      else s.(monitor := Checking(m.listed, m.todo[1..], m.running))
    case Reread =>
      // A second, unlocked map read: for an id deleted since the first it yields a nil pointer.
      if m.todo[0] !in s.pool.containers then s.(crashed := true)
      else if s.pool.containers[m.todo[0]] != Error
      then s.(monitor := Checking(m.listed, m.todo[1..], m.running + {m.todo[0]}))
      else s.(monitor := Checking(m.listed, m.todo[1..], m.running))
    case LockSweep => s.(monitor := Sweeping(m.listed, m.running), mu := Some(MonitorThread))
    case Sweep =>
      var stale := s.pool.containers.Keys - m.running;
      s.(monitor := Removing(m.listed, m.running, stale, |s.pool.containers.Keys| - |stale|), mu := None)
    case DockerRemove(id) => s.(monitor := Deleting(m.listed, m.running, m.stale, m.count, id))
    case Delete =>
      s.(monitor := Removing(m.listed, m.running, m.stale - {m.id}, m.count),
        pool := s.pool.(containers := s.pool.containers - {m.id}))
    case Branch =>
      if m.count < c.maxWorkers then s.(monitor := Starting(c.maxWorkers - m.count))
      else if |m.running| > c.maxWorkers then s.(monitor := Excess(|m.running| - c.maxWorkers))
      else s.(monitor := Resting, passes := s.passes + 1)
    case NextStart =>
      if m.left <= 0 then s.(monitor := Resting, passes := s.passes + 1)
      else s.(monitor := Guarding(m.left), mu := Some(MonitorThread))
    case Guard =>
      if |s.pool.containers.Keys| >= c.maxWorkers
      then s.(monitor := Starting(m.left - 1), mu := None)
      else s.(monitor := Creating(m.left), mu := None)
    case CreateFails => s.(monitor := Starting(m.left - 1))
    case Create(id) => s.(monitor := Registering(m.left, id))
    case LockInsert => s.(monitor := Inserting(m.left, m.id), mu := Some(MonitorThread))
    case Insert => s.(monitor := Starting(m.left - 1), mu := None,
         pool := s.pool.(containers := s.pool.containers[m.id := Idle], used := s.pool.used + {m.id}))
    case LockTrim => s.(monitor := Trimming(m.surplus), mu := Some(MonitorThread))
    case Trim(victims) =>
      s.(monitor := Resting, mu := None, passes := s.passes + 1,
         pool := s.pool.(containers := s.pool.containers - victims))
  }

  // ---------------------------------------------------------------- watchers and asynchronous removals

  /** A watcher may outlive its execution, so it can fire for an id another worker holds by now. */
  predicate RemovalEnabled(s: State, id: ContainerId, a: RemovalAct) {
    match a
    case WatcherQuits => id in s.pool.watchers
    case WatcherFires => id in s.pool.watchers
    case DockerDone => id in s.pool.removing
    case MapDelete => id in s.pool.deleting
  }

  function RemovalApply(s: State, id: ContainerId, a: RemovalAct): State
    requires RemovalEnabled(s, id, a)
  {
    match a
    case WatcherQuits => s.(pool := s.pool.(watchers := s.pool.watchers - multiset{id}))
    case WatcherFires =>
      s.(pool := s.pool.(watchers := s.pool.watchers - multiset{id}, removing := s.pool.removing + multiset{id}))
    case DockerDone =>
      s.(pool := s.pool.(removing := s.pool.removing - multiset{id}, deleting := s.pool.deleting + multiset{id}))
    case MapDelete =>
      s.(pool := s.pool.(deleting := s.pool.deleting - multiset{id}, containers := s.pool.containers - {id}))
  }

  // ---------------------------------------------------------------- shutdown

  predicate CloserLocks(p: Closer) {
    p.Snapshotting? || p.Clearing?
  }

  predicate CloserEnabled(s: State) {
    match s.closer
    case JobsClosed => s.mu.None?
    case WantClear => s.mu.None?
    case Closed => false
    case _ => true
  }

  function CloserApply(s: State): State
    requires CloserEnabled(s)
  {
    match s.closer
    case Open => s.(closer := Signalled)
    case Signalled => s.(closer := JobsClosed)
    case JobsClosed => s.(closer := Snapshotting, mu := Some(CloserThread))
    case Snapshotting => s.(closer := Purging, mu := None)
    case Purging => s.(closer := WantClear)
    case WantClear => s.(closer := Clearing, mu := Some(CloserThread))
    case Clearing => s.(closer := Closed, mu := None, pool := s.pool.(containers := map[]))
  }

  // ---------------------------------------------------------------- callers of ExecuteJob

  function BlockedOn(p: Caller): multiset<JobId> {
    match p
    case Free => multiset{}
    case Blocked(j) => multiset{j}
  }

  /** Submissions after the job channel is closed are outside the model. */
  predicate CallerEnabled(c: Config, s: State, k: nat, a: CallerAct) {
    k < |s.callers| &&
    match a
    case Submit(_) => s.callers[k].Free? && (s.closer.Open? || s.closer.Signalled?) && |s.ledger.queue| < c.maxJobs
    case Handoff(_, w) =>
      s.callers[k].Free? && (s.closer.Open? || s.closer.Signalled?)
      && s.ledger.queue == [] && w < |s.workers| && s.workers[w].Waiting?
    case Reject(_) => s.callers[k].Free? && (s.closer.Open? || s.closer.Signalled?) && |s.ledger.queue| >= c.maxJobs
    case Receive => s.callers[k].Blocked? && s.callers[k].j in s.ledger.slots
  }

  function CallerApply(c: Config, s: State, k: nat, a: CallerAct): State
    requires CallerEnabled(c, s, k, a)
  {
    var g := s.ledger;
    var j := |g.jobs|;
    match a
    case Submit(job) =>
      s.(callers := s.callers[k := Blocked(j)],
         ledger := g.(jobs := g.jobs + [job], accepted := g.accepted + [j], queue := g.queue + [j]))
    case Handoff(job, w) =>
      s.(callers := s.callers[k := Blocked(j)], workers := s.workers[w := Requesting(j)],
         ledger := g.(jobs := g.jobs + [job], accepted := g.accepted + [j], dequeued := g.dequeued + [j]))
    case Reject(job) => s.(ledger := g.(jobs := g.jobs + [job], rejected := g.rejected + {j}))
    case Receive =>
      var done := s.callers[k].j;
      s.(callers := s.callers[k := Free],
         ledger := g.(delivered := g.delivered[done := g.slots[done]], slots := g.slots - {done}))
  }

  // ---------------------------------------------------------------- the machine

  predicate Enabled(c: Config, s: State, l: Label) {
    !s.crashed &&
    match l
    case ByWorker(w, a) => WorkerEnabled(s, w, a)
    case ByMonitor(a) => MonitorEnabled(s, a)
    case ByRemoval(id, a) => RemovalEnabled(s, id, a)
    case ByCloser => CloserEnabled(s)
    case ByCaller(k, a) => CallerEnabled(c, s, k, a)
  }

  function Apply(c: Config, s: State, l: Label): State
    requires Enabled(c, s, l)
  {
    match l
    case ByWorker(w, a) => WorkerApply(s, w, a)
    case ByMonitor(a) => MonitorApply(c, s, a)
    case ByRemoval(id, a) => RemovalApply(s, id, a)
    case ByCloser => CloserApply(s)
    case ByCaller(k, a) => CallerApply(c, s, k, a)
  }

  /** What InitializePool must leave behind for NewWorkerPool to start the goroutines. */
  predicate Launchable(maxWorkers: int, containers: Register) {
    1 <= |containers.Keys| <= maxWorkers && forall id <- containers :: containers[id] != Busy
  }

  /** The state in which NewWorkerPool returns: every goroutine started, nothing submitted yet. */
  function Boot(c: Config, containers: Register, used: set<ContainerId>): State {
    State(Pool(containers, multiset{}, multiset{}, multiset{}, used),
          Ledger([], map[], [], {}, [], [], map[], map[], map[]),
          None, seq(c.maxWorkers, _ => Waiting), Resting, Open, seq(c.callers, _ => Free), 0, false)
  }

  ghost predicate Init(c: Config, s: State) {
    Launchable(c.maxWorkers, s.pool.containers) && s.pool.containers.Keys <= s.pool.used
    && s == Boot(c, s.pool.containers, s.pool.used)
  }

  /** `ls` can be taken one after the other from `s`. */
  ghost predicate Runs(c: Config, s: State, ls: seq<Label>)
    decreases |ls|
  {
    ls == [] || (Enabled(c, s, ls[0]) && Runs(c, Apply(c, s, ls[0]), ls[1..]))
  }

  ghost function After(c: Config, s: State, ls: seq<Label>): State
    requires Runs(c, s, ls)
    decreases |ls|
  {
    if ls == [] then s else After(c, Apply(c, s, ls[0]), ls[1..])
  }

  ghost predicate Reachable(c: Config, s: State) {
    exists s0, ls :: Init(c, s0) && Runs(c, s0, ls) && After(c, s0, ls) == s
  }
}
