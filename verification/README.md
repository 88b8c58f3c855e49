# Code engine: the container pool, its workers, and the way of a job

The engine runs submitted programs in a pool of docker containers. A register maps container ids to Idle,
Busy or Error. Worker goroutines take jobs from a bounded channel, acquire a container, run the job's command
in it and send one answer. A monitor goroutine compares the register with docker's list once a second and
replaces what is missing. Watchers remove containers that use too much, without the mutex, and possibly after
another worker has been given the container. This project models that machinery in Dafny and proves what it
keeps in every run.

## The parts

* **Types, LanguageConfig, Reconcile, Machine** hold the entities, the command templates, the relations between
  the register before and after initialisation and a health check, and the engine as a concurrent state machine.
  A label of the machine is one atomic step of one thread with the answers of its environment (docker's list,
  success or failure of a start with a fresh id, how a command ended, whether a watcher fires). The mutex is
  part of the state. Each read, scan or delete of the register is one step, so checks and the actions that
  follow them are separate steps wherever the code has them outside the mutex.
* **Invariants, WorkerSteps, MonitorSteps, CallerSteps, Runs** state one joint invariant of all threads and prove
  that every step keeps it.
* **Safety, JobSafety, FullPool, Listing, Removals, Scans, Commands, Locks, Liveness, Fairness, Admission, Crash** draw the consequences for every reachable
  state and every run: exclusivity, the size bound, job conservation, one faithful answer per job, a mutex that
  cannot deadlock, answers for all accepted jobs, when jobs are rejected, and when the process can crash. `DockerIsFree`,
  `RemovalsNeverWait` and `CallersNeverWaitToSubmit` say which steps the machine leaves to the environment at any time.
  **DisturbedPass** gives the exact outcome of a health pass in every interleaving.
* **Engine** is the running engine as an object: a state of the machine advanced by the steps of all goroutines,
  with `NewWorkerPool` and `ExecuteJob` as its interface. **Service** turns requests into responses on top of
  it, so its results hold whatever the other callers, the workers and the monitor do meanwhile. `JsAliases`,
  `PythonAliases`, `GoAliases` and `CppAliases` give some of the names under which a request may ask for a language.
* **ContainerManager** and **WorkerPool** are classes with the code's own fields, loops and mutex calls, each
  method proved against a relation of Reconcile or a function of the inputs. They show one goroutine's code with
  nobody else moving. **SoloPass** shows that the monitor of the machine, left alone, does exactly what the
  method `CheckHealth` does; `AdjustedLaunches` shows that what `InitializePool` leaves is an initial state of
  the machine.
* **PoolSpec** and **SanitizerSpec** describe what the pool holds after initialisation and after a health check, and
  what the sanitizer answers, without the functions the code is proved against, and prove that these agree.
* **Shell** has a lexer for the token rules of the POSIX.1-2017 Shell Command Language and proves that it reads
  back what the templates of LanguageConfig wrote, and which tokens these are. The rules
  of the standard it follows are stated one by one: `Metacharacters`, `WordsEnd`, `Backslash`, `SingleQuotes`, `Comments`.
* **Regex, Sanitizer, Pruning** give the rule table a denotational meaning (`ClassMembers` and `FoldedLetters` spell out
  the character classes and case folding) and prove that twenty of its patterns can be
  deleted without changing any answer.

## What the proofs found

* `checkHealth` reads the register twice for a listed id without the mutex, first for presence and then for the
  state (`executor/container_manager.go:295-296`). An id deleted in between makes the second read dereference a
  nil pointer, and the process goes down. An engine that is not shut down can crash if and only if it can be
  called at all (`Crash.CrashNeedsACaller`): a single job is enough, whatever the pool holds at the start.
  `Crash.CrashesExactlyWhenCursorDeleted` gives the exact condition for the next step, and
  `Crash.NoCrashWithoutDeletes` shows that only the asynchronous removals and the clearing step of Shutdown
  can bring it about. The safety results cover every reachable state, up to and including a crash.
* The documentation promises replacement when containers fail (`Readme.md:44`). The code lists with `All: true`
  and never looks at docker's own run state. A pass drops every stopped container if and only if each of them is
  recorded as Error, or the pool has no places (`Reconcile.ReplacementCondition`); a container recorded as Idle
  that has stopped survives every pass (`Reconcile.StoppedIdleSurvives`).
* The retry loop of `GetAvailableContainer` holds the mutex through all ten passes, so a retry can never succeed:
  `Safety.OnlyFirstScanHits`. The surplus branch of `checkHealth` is dead once the pool has been initialised:
  `Safety.SurplusNeverSeen`.
* The patterns at lines 110, 113, 120, 121, 156, 160, 161, 192 (both), 204, 205, 244, 245, 248, 249, 250, 261,
  273, 274 and 279 of `internal/sanitize.go` are redundant. The one at line 205 does not compile.

## Model

| member | source | states |
|---|---|---|
| `RunProofs.StepKeeps` | executor/worker_pool.go:57-100 | Every step of every thread keeps the joint invariant of mutex, register, monitor snapshot, retries, jobs and answers. |
| `RunProofs.InitHolds` | executor/worker_pool.go:51-69 | The invariant holds when NewWorkerPool has started its goroutines on what InitializePool left. |
| `RunProofs.RunKeeps` | executor/worker_pool.go:57-100 | The invariant holds at the end of every run, however the threads interleave. |
| `WorkerSteps.WorkerKeeps` | executor/worker_pool.go:73-161 | Each step on a worker's way from the channel to the answer keeps it. |
| `MonitorSteps.MonitorKeeps` | executor/container_manager.go:271-337 | Each step of a health pass keeps it, including the unlocked look-ups and the gap between guard and insert of StartContainer. |
| `MonitorSteps.RemovalKeeps` | executor/worker_pool.go:181-206 | Watchers and the asynchronous removals they spawn keep it, even when they hit a container that has since been given to another worker. |
| `MonitorSteps.CloserKeeps` | executor/container_manager.go:378-408 | Each step of Shutdown, up to the one that clears the register, keeps it. |
| `CallerSteps.CallerKeeps` | executor/worker_pool.go:244-260 | Submitting, handing over, rejecting and receiving keep it. |
| `Safety.Exclusivity` | executor/container_manager.go:340-375 | In every reachable state no two workers hold the same container, a held id is Busy or unregistered, and every Busy id has a holder. |
| `Safety.SizeBound` | executor/container_manager.go:170-234 | The register never has more than maxWorkers entries although the mutex is released between check and insert. |
| `Safety.AcquisitionSucceeds` | executor/container_manager.go:344-356 | With maxWorkers containers registered and none in Error, a scanning worker finds one at once and cannot miss or give up. |
| `Safety.OnlyFirstScanHits` | executor/container_manager.go:344-361 | If the first of the ten passes finds no Idle container, no later pass does. |
| `Scans.GivesUpAfterTenScans` | executor/container_manager.go:341-361 | In every run a worker can give up iff it has made exactly ten fruitless scans since it took the mutex. |
| `Safety.SurplusNeverSeen` | executor/container_manager.go:332-336 | The branch that removes surplus containers is never entered after initialisation. |
| `Safety.OnlyUnlistedOrErrorReaped` | executor/container_manager.go:292-320 | The monitor unregisters only ids that docker did not list in this pass or that are in Error. |
| `Listings.HealthyIsReapedOnlyIfUnlisted` | executor/container_manager.go:284-300 | In every run, if the monitor unregisters a container that is not in Error, docker's last answer was a list without it. |
| `Listings.FailedListingTouchesNothing` | executor/container_manager.go:284-288 | From a failed list call until the next successful one the monitor leaves the register alone. |
| `Listings.OnlyListedAreLeft` | executor/container_manager.go:318-322 | When a pass has removed what it had marked, every registered container is in docker's last list, whatever the others did meanwhile. |
| `Safety.NoResurrection` | executor/container_manager.go:365-369 | An id that has left the register never comes back, whatever follows. |
| `Safety.ErrorDecay` | executor/container_manager.go:296-320 | Error entries only become fewer, and there are none after the first completed health pass with a listing. |
| `JobSafety.JobConservation` | executor/worker_pool.go:79-92 | Every submitted job is rejected, queued, with one worker, answered or delivered, in exactly one of these places, and nothing else is anywhere. |
| `JobSafety.ChannelDiscipline` | executor/worker_pool.go:41-49 | The channel keeps its capacity, at most maxWorkers jobs are in flight, and jobs leave in the order of acceptance; the accepted jobs are those not rejected. |
| `JobSafety.AnswerNeverBlocks` | executor/worker_pool.go:155-160 | When a worker is about to send an answer the one-slot result channel is empty and the job has no answer yet. |
| `JobSafety.AnswerIsFinal` | executor/worker_pool.go:109-118 | An answered job is done, and no continuation of the run gives it another answer. |
| `JobSafety.AnswersAreFaithful` | executor/worker_pool.go:125-160 | Success holds iff there is no error, and iff the job's own language and code ran without error in the container leased for it; each error says which step failed. |
| `JobSafety.SupportedJobAnswer` | executor/worker_pool.go:164-172 | In a supported language the only answers are the outcome of the job's own command and a missing container. |
| `JobSafety.OneLeaseOneExecution` | executor/worker_pool.go:109-131 | A job is given at most one container and executed at most once, by the worker holding it. |
| `FullPools.NoJobGoesWithout` | executor/container_manager.go:344-361 | From a full pool without Error entries, no run in which nothing is unregistered answers any job with a missing container, however many callers there are. |
| `Locks.OwnerCanMove` | executor/container_manager.go:344-359 | Whoever holds the mutex can take a step in every reachable state, so the mutex is never deadlocked. |
| `Locks.HoldingIsBounded` | executor/container_manager.go:254-268 | The owner releases the mutex within eleven of its own steps, and no other thread's step takes it away or delays that. |
| `Locks.MonitorIsNeverStuck` | executor/container_manager.go:271-337 | In every reachable state the monitor has an enabled step unless another thread holds the mutex. |
| `Locks.ShutdownIsNeverStuck` | executor/container_manager.go:378-408 | The same for Shutdown, and every waiting worker may see its signal. |
| `Liveness.WorkerStepsAreBounded` | executor/worker_pool.go:73-161 | Before Shutdown a measure of queue and worker phases bounds the steps workers can take; monitor, watchers and removals never raise it. |
| `Liveness.Progress` | executor/worker_pool.go:73-161 | While an accepted job is unanswered and the process is up, some worker has an enabled step, or the monitor holds the mutex and has an enabled step that releases it. |
| `Liveness.EventuallyDrained` | executor/worker_pool.go:79-92 | In every fair infinite run without further submissions there comes a moment with an empty channel and idle workers. |
| `Liveness.AllAnswered` | executor/worker_pool.go:155-160 | At that moment every job that was not rejected has its answer. |
| `Fairness.EveryJobIsAnswered` | executor/worker_pool.go:79-92 | In every infinite run that is fair to each worker, every accepted job is answered although new jobs keep coming. |
| `Fairness.FreeAgain` | executor/container_manager.go:344-359 | In such a run the mutex becomes free again and again. |
| `Fairness.IsTaken` | executor/worker_pool.go:80-92 | In such a run the n-th accepted job leaves the channel. |
| `DisturbedPasses.DisturbedPassSize` | executor/container_manager.go:282-337 | In every interleaving without Shutdown a pass that got its listing ends with maxWorkers containers, less one per failed creation and one per kept or new container removed asynchronously after the decision. |
| `DisturbedPasses.GuardNeverRefuses` | executor/container_manager.go:173-179 | Within a pass the size guard of StartContainer never turns an attempt away, whatever the others do. |
| `Admission.AdmissionBound` | executor/worker_pool.go:244-259 | No run rejects a job if and only if there are at most maxJobCount concurrent callers. |
| `Crash.CrashesExactlyWhenCursorDeleted` | executor/container_manager.go:293-300 | The process can go down in its next step iff the monitor stands between its two reads and the id has left the register. |
| `Crash.NoCrashWithoutDeletes` | executor/container_manager.go:237-251 | A run without asynchronous map deletes in which Shutdown does not clear the register never crashes. |
| `Crash.CrashHappens` | executor/container_manager.go:295-296 | From every initial pool, even with all containers in Error and a channel of capacity zero, a run with one job and without Shutdown reaches the nil dereference. |
| `Crash.CrashNeedsACaller` | executor/container_manager.go:282-337 | Some run without Shutdown crashes iff there is at least one caller. |
| `Removals.WatchersAreConserved` | executor/worker_pool.go:181-206 | In every run and for every container: executions started in it are its watchers at work, its removals on their way, and those that have ended by quitting or deleting it once. |
| `Removals.ShutdownClears` | executor/container_manager.go:378-408 | Shutdown leaves the register alone until its last step, which empties it and frees the mutex. |
| `Removals.ShutdownInOrder` | executor/worker_pool.go:263-268 | In every run Shutdown takes its steps one by one: signal, closing the channel, then the manager's two sections under the mutex. |
| `Removals.NobodyLeavesEarly` | executor/worker_pool.go:79-99 | No worker leaves before Shutdown has been called. |
| `Reconcile.InitialisedPool` | executor/container_manager.go:120-167 | After a successful listing the pool has min(found, maxWorkers) entries plus one for each container started, never more than maxWorkers, none of them Busy. |
| `Reconcile.PassSize` | executor/container_manager.go:282-337 | An undisturbed health check leaves exactly min(running, maxWorkers) entries plus the successful starts. |
| `Reconcile.PassConverges` | executor/container_manager.go:282-337 | If docker starts all it is asked to, one pass leaves exactly maxWorkers entries. |
| `Reconcile.PassContents` | executor/container_manager.go:292-336 | Survivors are running workers and keep their state, newcomers are Idle, no Error entry survives, and without surplus every running worker does. |
| `Reconcile.PassFixpoint` | executor/container_manager.go:282-337 | A second pass over a docker set that lists the whole pool changes nothing. |
| `Reconcile.FullPoolIsKept` | executor/container_manager.go:282-337 | A pass over a full, healthy, fully listed pool changes nothing. |
| `Reconcile.StoppedIsDroppedIffError` | executor/container_manager.go:284-300 | A stopped but listed container recorded as Error is dropped by every pass, and without a surplus only such a one is. |
| `Reconcile.ReplacementCondition` | executor/container_manager.go:282-337 | The documented replacement, that no stopped container outlives a pass whatever docker answers, holds iff each of them is recorded as Error or maxWorkers is 0. |
| `Reconcile.StoppedIdleSurvives` | executor/container_manager.go:292-301 | A pool of one stopped container recorded as Idle is left unchanged by every pass. |
| `PoolSpec.InitialisationIs` | executor/container_manager.go:127-160 | What initialisation leaves, entry by entry: the last word of docker's list on a worker makes it Idle if running and Error if not; entries are then kept, dropped or joined by started Idle containers as the pool's size demands. |
| `PoolSpec.ListedWorkersState` | executor/container_manager.go:129-134 | A listed worker that is kept is Idle if docker says it is running, and Error otherwise. |
| `PoolSpec.OthersAreNew` | executor/container_manager.go:226-228 | Every other entry of a pool that started empty is an Idle container docker has just started. |
| `PoolSpec.PassIsCheck` | executor/container_manager.go:282-337 | What a health check leaves, entry by entry: the registered, listed entries outside Error with their states, brought to maxWorkers; every start of the attempts made counts. |
| `PoolSpec.UnlistedIsDropped` | executor/container_manager.go:292-320 | A container that docker no longer lists, or that is in Error, does not outlive a pass. |
| `PoolSpec.AdjustedIsBrought` | executor/container_manager.go:322-336 | Nothing goes while there is room for all, a surplus is cut to exactly maxWorkers, newcomers are started and Idle. |
| `SoloPass.SoloPassIsHealthPass` | executor/container_manager.go:282-337 | Every run of the concurrent monitor alone, from its listing to the end of its pass, relates the register before and after as CheckHealth does. |
| `ContainerManagers.ContainerManager.InitializePool` | executor/container_manager.go:120-167 | Records the listed workers by their run state, adjusts their number, and reports an error exactly if the listing failed or the pool is empty. |
| `ContainerManagers.ContainerManager.RegisterListed` | executor/container_manager.go:127-141 | Registers exactly the listed workers, Idle if docker's last word on them is running and Error otherwise, and leaves all other entries as they were. |
| `ContainerManagers.ContainerManager.AdjustCount` | executor/container_manager.go:143-160 | Cuts a surplus down to exactly maxWorkers, or fills the missing places with what docker starts. |
| `ContainerManagers.ContainerManager.StartContainer` | executor/container_manager.go:170-234 | Adds the started container as Idle, or changes nothing if the pool is full or docker fails, with the error in the latter case only; the mutex is free again on every path. |
| `ContainerManagers.ContainerManager.StartContainers` | executor/container_manager.go:327-331 | The counted loop registers every container docker managed to start; the guard stops none of the attempts. |
| `ContainerManagers.ContainerManager.RemoveContainer` | executor/container_manager.go:237-251 | Unregisters the id and takes no mutex. |
| `ContainerManagers.ContainerManager.RemoveExcessContainers` | executor/container_manager.go:254-268 | Removes exactly min(count, size) entries and leaves the others as they were. |
| `ContainerManagers.ContainerManager.RemoveAll` | executor/container_manager.go:318-320 | Unregisters exactly the given ids. |
| `ContainerManagers.ContainerManager.LookUp` | executor/container_manager.go:292-301 | The running workers are exactly the listed, registered ids that are not in Error. |
| `ContainerManagers.ContainerManager.MarkStale` | executor/container_manager.go:305-316 | Marks exactly the other ids and counts those that stay. |
| `ContainerManagers.ContainerManager.Rebalance` | executor/container_manager.go:322-336 | Fills missing places with what docker starts, or cuts a surplus down to exactly maxWorkers. |
| `ContainerManagers.ContainerManager.CheckHealth` | executor/container_manager.go:282-337 | With nobody else moving, refines the health pass relation; a failed listing changes nothing. |
| `ContainerManagers.ContainerManager.GetAvailableContainer` | executor/container_manager.go:340-362 | Finds a container iff one is Idle when the first pass starts, whatever is deleted between the passes, and marks that one Busy. |
| `ContainerManagers.ContainerManager.SetContainerState` | executor/container_manager.go:365-375 | Sets the state of a registered id and never registers one. |
| `ContainerManagers.ContainerManager.Shutdown` | executor/container_manager.go:378-408 | Leaves an empty register and a free mutex. |
| `ContainerManagers.ContainerManager.ContainerCount` | executor/container_manager.go:411-415 | Returns the size of the register. |
| `Reconcile.ComesUpExactly` | executor/container_manager.go:120-167 | After a successful listing initialisation leaves a container iff maxWorkers is at least 1 and docker listed a worker or started one within the first maxWorkers attempts. |
| `Engines.NewWorkerPool` | executor/worker_pool.go:32-70 | The error is the failed listing iff there is no listing, and the empty pool iff docker's answers leave no container; otherwise there is an engine in an initial state of the machine, with all goroutines started on what InitializePool left. |
| `Engines.Engine.constructor` | executor/worker_pool.go:41-63 | The state in which NewWorkerPool returns is an initial state of the machine. |
| `Engines.Engine.Submit` | executor/worker_pool.go:249-258 | The send: the job gets the next number; it is rejected iff the channel is full and no worker is parked, and otherwise the caller waits. |
| `Engines.Engine.Await` | executor/worker_pool.go:252 | The receive: in every interleaving the caller gets the one answer sent for its job. |
| `Engines.Engine.ExecuteJob` | executor/worker_pool.go:244-260 | In every interleaving of the caller's steps with everybody else's, the job gets a number of its own and the caller gets the reply to this job: the rejection iff it was rejected, else the answer sent for it. |
| `Engines.FinishAlone` | executor/worker_pool.go:103-161 | A worker with a job in hand, the mutex being free or its own, can answer it without anybody else's help. |
| `Engines.CallCanComplete` | executor/worker_pool.go:249-252 | A call that meets a parked worker has an interleaving in which it is answered. |
| `WorkerPools.AdjustedLaunches` | executor/container_manager.go:160-166 | What a successful InitializePool leaves meets the demands of the machine's initial states. |
| `WorkerPools.WorkerPool.ExecuteCode` | executor/worker_pool.go:164-241 | The answer is how docker's run of the job's own code, spelled out token by token, ended in the given container, or the unsupported-language error before anything runs; a surge unregisters the container. |
| `WorkerPools.WorkerPool.Handle` | executor/worker_pool.go:103-161 | With nobody else moving: no container iff none was Idle; otherwise the outcome of the job's own code in a container that was Idle and is Idle again, or gone after a surge. |
| `WorkerPools.WorkerPool.Serve` | executor/worker_pool.go:79-92 | With nobody else moving, the oldest job leaves the channel and its answer fills its own, empty slot. |
| `WorkerPools.WorkerPool.Work` | executor/worker_pool.go:73-100 | With nobody else moving, the loop empties the channel in order and gives every job exactly its own answer; no container stays Busy because of it. |
| `Shell.ScriptRoundTrip` | executor/config.go:16-44 | For every language and program the script lexes to a fixed token list whose only program-dependent token is the argument of echo, fully quoted, and equal to the program after quote removal. |
| `Shell.CommandRunsJob` | executor/config.go:16-44 | All tokens of every language's script, spelled out: echo, the job's own code, >, the language's file, &&, then go run, node or python3 on that file, or g++ -o on it, && and the executable. |
| `Shell.DockerRunsJob` | executor/worker_pool.go:210 | The same for the whole docker exec command line, in the given container. |
| `Commands.ExecutionsRunTheirJobs` | executor/worker_pool.go:210 | Every execution of every run of the engine is docker's execution of its own job's program, in the container leased for the job. |
| `Shell.LexEscaped` | executor/config.go:21-22 | Inside single quotes the escaped program reads as all its characters, quoted, whatever they are. |
| `Shell.LexScript` | executor/config.go:16-44 | The token list of a script, from its template's words. |
| `Shell.CommandIsInjective` | executor/config.go:16-50 | Different jobs have different commands. |
| `SanitizerSpec.AcceptedExactly` | internal/sanitize.go:33-67 | Code is accepted iff it is short enough, the table knows its language, and no pattern of any common category or of any category of that language is found in it. |
| `SanitizerSpec.RefusedExactly` | internal/sanitize.go:33-67 | Every refusal under its exact condition: the length, else the first common category with a match, else an unknown language, else the language's first category with a match, by name and description. |
| `SanitizerSpec.CleanOrHit` | internal/sanitize.go:42-49 | These cases leave nothing out: a list without a first hit has no match at all. |
| `SanitizerSpec.SystemImportsAreRefused` | internal/sanitize.go:140-143 | Python code that imports subprocess, shutil, ctypes or sys, with whatever blanks in between, is never accepted. |
| `SanitizerSpec.EvalAndExecAreRefused` | internal/sanitize.go:97-98 | Code that contains a call of eval or exec is never accepted, in any language. |
| `Pruning.PruningPreservesMeaning` | internal/sanitize.go:33-78 | For every code, language and limit SanitizeCode gives the same answer with and without the subsumed patterns. |
| `Pruning.SameFirstMatch` | internal/sanitize.go:42-49 | A list of categories whose subsumed patterns are covered there or earlier has the same first match without them. |
| `Pruning.CommonCovered` | internal/sanitize.go:82-131 | Each subsumed common pattern implies a kept one of the same or an earlier category. |
| `Pruning.RulesCovered` | internal/sanitize.go:132-284 | The same for every language's own categories, after the common ones. |
| `Pruning.ForForkImplied` | internal/sanitize.go:121 | A match of the for/fork pattern contains a match of the empty for loop of line 107, by case folding and empty blanks. |
| `Pruning.OsRemoveImplied` | internal/sanitize.go:192 | Both os.Remove patterns imply the case-insensitive alternation of line 87. |
| `Regex.FoundPart` | internal/sanitize.go:73 | An unanchored match of a concatenation contains a match of each stretch of it, with or without case. |
| `Regex.FoundFoldedPart` | internal/sanitize.go:73 | The same for a concatenation under (?i). |
| `Regex.FoldWidens` | internal/sanitize.go:73 | Ignoring case only widens what an expression matches. |
| `Regex.InsertOptional` | internal/sanitize.go:107 | Putting an optional item into a concatenation keeps its matches. |
| `Regex.FoundLiteral` | internal/sanitize.go:73 | A literal is found exactly in the texts that contain it. |
| `Service.AcceptedIsSupported` | internal/sanitize.go:33-67 | Code that the sanitizer accepts is in a supported language. |
| `Service.AcceptedJobsAreNeverUnsupported` | executor/worker_pool.go:164-172 | In every run of the machine an accepted job gets its own command's outcome or no container, never the unsupported-language error. |
| `Service.RepliesAreHonest` | service/service.go:118-137 | In every reachable state of the concurrent engine: the response succeeds iff its own job's command ran without error in the container its worker had acquired; a full queue iff the job was rejected, no container iff it was accepted and never leased one, an execution error iff its run failed. |
| `Service.UnsupportedBranchIsDead` | executor/worker_pool.go:164-172 | If every submission has passed the sanitizer, no worker of any run takes the unsupported-language branch and no reply names it. |
| `Service.Respond` | service/service.go:118-137 | A response is a success iff it carries no error. |
| `Service.NormalFormsAreFixed` | service/service.go:43-90 | Normalisation leaves a name alone or gives one of the four supported ones, and a second normalisation changes nothing. |
| `Service.LengthLimits` | service/service.go:110-150 | Compile refuses code for its length iff it is longer than 10000 bytes, ExecuteProblemCode iff longer than 1000000000000. |
| `Service.CompilerService.Compile` | service/service.go:92-138 | Undecodable or refused code never reaches the engine; other code becomes a job of its own, in a supported language, and in every interleaving the response is the honest one to that job. |
| `Service.CompilerService.ExecuteProblemCode` | service/service.go:140-180 | The same without the decoding and with the wider limit. |
| `Service.CompilerService.Run` | service/service.go:116-137 | The reply to the submitted job becomes the response, in every interleaving. |

## Left out

- Data races as such: reads, scans and deletes of the register are atomic steps, so torn reads and the runtime's own check for concurrent map use are not modelled. The pointers the Go map holds are values of the map here; no two names share one.
- Docker, `docker exec`, stats and JSON: nondeterministic answers of the environment. A created container's id is assumed never to have been registered before.
- The outsurge thresholds of `CheckResourceOutsurge`: whether a watcher fires is nondeterministic.
- Time: tickers, the ten second timeout, sleeps, durations and the `ExecutionTime` and `StatusMessage` fields. A timeout is one of the ways a command can end with an error.
- Logging, including slices such as `id[:12]`, log streaming, NATS handlers, environment configuration, pprof, `dockerkill.go` and `stresstest.js`.
- The end of `WorkerPool.Shutdown`: `MonitorContainers` never returns, so `wg.Wait` does not either. Submissions after the job channel is closed, and workers that see the closed channel rather than the signal, are not modelled apart from the worker's exit. Draining is stated for runs before Shutdown.
- Liveness.EventuallyDrained: assumes that executions end, that the workers as a group are not passed over for ever, and, as the run is infinite, that the process does not crash.
- Fairness.EveryJobIsAnswered: assumes that a worker which again and again could step does step, the mutex and the channel included, and that the process does not crash; it ends with the answer sent.
- Liveness.AllAnswered: ends with the answer in the job's result channel; when the blocked caller receives it is left to the scheduler.
- Base64, `strings.ToLower` and Go's regexp engine are library code: Compile takes the decoded text, the lowered name and the sanitizer's verdict as inputs. The interleaving of a call with everybody else's steps is an input too. Regular expressions have a denotational meaning over runes; a source text carries its length in bytes separately. Literals of the table are ASCII, which is all case folding is defined for here.
- Error texts are constructors; Go's wording is not modelled.
- The command templates are lists of words separated by single blanks, as they are in the source. The lexer gives up on double quotes and expansions, which no template contains; what `echo`, compilers and interpreters do with their arguments is not modelled.
- The patterns of the rule table are transcribed into the notation of Regex one by one; their Go spelling is not parsed. The pruned table is not claimed to be minimal.
- NewContainerManager's docker client, log file and resource limits; the constructors of the classes only set the fields that are modelled.
- WorkerPools.WorkerPool.Work: one worker over the jobs queued so far, with nobody else moving and no shutdown signal; several workers, callers and the monitor together are the subject of the machine and of module Engines.
- WorkerPools.WorkerPool.Serve: the same, for one job.
- WorkerPools.WorkerPool.Handle: the same; that the condition for having no container holds only without interference is why Engines and Service do not use it.
- WorkerPools.WorkerPool.ExecuteCode: a surge also cancels the command, which usually but not always ends it with an error; how the command ends is an answer of the environment.
- ContainerManagers.ContainerManager.CheckHealth: one pass with nobody else moving; `DisturbedPasses.DisturbedPassSize` gives the size in every interleaving.
- ContainerManagers.ContainerManager.Shutdown: docker's side of the removals is not modelled.
