# A verified model of the rediq task lifecycle

rediq is a distributed task queue: clients submit tasks, workers fetch and run them, a scheduler
moves delayed and retried tasks back to their queues, and all of them meet only in Redis. This
project models the Redis data as a value (`Store.Db`) on which every function is one command or
one script, models clients, workers and the scheduler as processes that issue one command a step
(`Protocol`), and proves properties of every interleaving. The program's own methods are modelled
a second time, imperatively, as methods on a `Redis.Server` that changes in place, and are proved
equal to what the protocol does when one process takes all the steps in a row (`Uninterrupted`).

How the parts fit together:

- Data: `Basics`, `Order`, `SortedSets`, `Keys`, `Tasks`, `Store`, `Release` (the release script and
  what it means), `Commands` (commands as data, and what each leaves alone).
- The system: `Protocol` (states, steps, runs). A run is any sequence of steps from the empty
  store; handler results, clocks, the order in which SMEMBERS lists a set and the polled queue are
  parameters of the steps. `Events` names what happens in a run and counts it; `Bookkeeping` holds
  the invariant that every state of every run has; `Flows` balances, for each part of a worker's
  program, who enters and who leaves it.
- Dependencies, in all runs: `DependencySafety`, `NoLostRelease`, `ReleaseCount`, `Verdicts`.
- Owners: `Places`, `Ownership`, `RetryBound`, `Lineage`. Work: `Measure`, `Termination`,
  `Quiescence`. Containers: `Leaving` (with pause and priority), `Lateness`, `Delays` (nobody is
  taken before its time), `Deduplication`.
- Where the code falls short of its own documentation: `Counterexamples`, `Registration`.
- The programs: `Redis`, `Uninterrupted`, `Outcomes` (a worker's round, stated on the store before
  and after it), `Workers`, `LoopRuns`, `Clients`, `Schedulers`, `Batching`, `Scripts` (enqueue.lua and ack.lua), `Progress`, `RedisUrl`, `Arithmetic`.

Results about runs hold for every run of every configuration. Some of what the documentation
promises is not so in every run; for those the exact condition is proved, task by task:

- One owner. A task is in exactly one place all the time if and only if it was freed or condemned
  at most once (`Ownership.OnePlaceIffGrantedOnce`); then no two workers have it and its handler is
  entered at most max(1, max_retry) times. In every run of the program as it is this holds for each
  task that has, like everything it depends on, at most one different dependency - whatever other
  tasks depend on (`Lineage.StraightIsOwned`) -, and with the release script also for each whose
  dependencies do not die (`Lineage.GrantedOnce`). Without the script it fails for every task with
  two different plain dependencies as soon as there are two workers: both run it at the same time
  (`Counterexamples.TwoWorkersAtOnce`), so one level deep the condition on the dependencies is
  exact (`Counterexamples.OneOwnerIffSingle`).
- One verdict. A task is both buried and freed if and only if some worker asks whether it is free
  after another one has deleted what it waits for (`Verdicts.BothVerdictsIff`); with one worker,
  and with the script or without, every task with two plain dependencies of which one is tried only
  once can get there (`Counterexamples.BuriedAndFreed`).
- Released. A task that no dead dependency lists is freed if and only if each of its dependencies
  lists it (`NoLostRelease.ReleasedIffAllListIt`); submitting it before any of them is processed is
  enough for that (`NoLostRelease.NoReleaseIsLost`).
- Task ids are fresh, and each task is submitted once (they are the keys of `Config.tasks`).
- The documentation promises a first retry after 2 s and a cap of 60 s. The retry count is raised
  before the delay is computed (rediq/src/server/worker.rs:453), so the code gives 4 s and 64 s,
  and that is what `Tasks` models.
- A failing task is not pushed on the dead list; only its dependents are
  (rediq/src/storage/dependencies.rs:223-227). "Dead" is the status in its record.
- When a paused queue's script answers ERR_QUEUE_PAUSED, the driver may report it as that error or
  as some other one, after which the worker goes on to the plain list and its own pause check
  (rediq/src/server/worker.rs:342-351). Both are steps of the model (`fallThrough`). The worker also
  goes on when a task from the priority queue has no record; since records do not expire in the
  model, no run gets there.
- A progress report writes the value and then sets the expiry
  (rediq/src/progress/mod.rs:126-129). If only the second fails, Redis shows the new value while
  the local one stays: `Progress.AgreeIffLastWriteKept` says exactly when the two agree.

## Model

| member | source | states |
|---|---|---|
| Bookkeeping.KeptThroughout | rediq/src/client/builder.rs:54-98 | in every state of every run, records are copies of what was submitted, only recorded tasks are on any list, in any sorted set or in any hands, links mirror the dependencies of registered tasks, and what a worker remembers is on record |
| Flows.FlowsThroughout | rediq/src/storage/dependencies.rs:69-277 | in every run, what entered a part of the release or failure loop is what left it plus who is in it; the way from listing a task to freeing it may be left early, all others not |
| DependencySafety.NeverBeforeItsDependencies | rediq/src/client/builder.rs:79-98 | in every run in which no dead dependency has listed the task, it is on no list, in no sorted set and in no worker's hands before each of its dependencies was acknowledged Processed and then listed it |
| NoLostRelease.ReleasedIffAllListIt | rediq/src/storage/dependencies.rs:83-144 | if no dead dependency has listed the task and nobody is busy releasing it, it was queued at least once if and only if each of its dependencies listed it, however the commands interleave |
| NoLostRelease.NoReleaseIsLost | rediq/src/storage/dependencies.rs:83-144 | a task that was registered before any of its dependencies started to release, none of which dies, is on its queue at least once when all of them have released |
| ReleaseCount.ReleasedPerSighting | rediq/src/storage/dependencies.rs:88-127 | in every run the task is queued exactly as often as some SCARD answered zero (or the script found nothing else pending), up to workers about to push |
| ReleaseCount.AtMostOncePerDependency | rediq/src/storage/dependencies.rs:69-151 | it is queued at most once for each different dependency that lists its dependents once, with the interleaved loop as well and whatever dies |
| ReleaseCount.ReleasedExactlyOnce | scripts/lua/check_dependents.lua:19-76 | with the script, or with a single dependency that releases once, a task whose dependencies all succeed is queued exactly once and never buried, whatever happens to other tasks |
| Ownership.OnePlaceIffGrantedOnce | rediq/src/server/worker.rs:272-294 | in every run a task is in exactly one place in every state, and stays settled once it is, if and only if it was freed or condemned at most once |
| Ownership.ExactlyOnePlace | rediq/src/server/worker.rs:272-294 | as long as it was freed or condemned at most once, a task is in exactly one place: with its client, waiting, on one list, in one sorted set, active with one worker, in one worker's hand, or settled |
| Ownership.NeverTwoWorkers | rediq/src/server/worker.rs:388-517 | then no two workers have it, and no queue holds it while a worker does |
| Ownership.SettledIsNowhere | rediq/src/server/worker.rs:458-464 | then, acknowledged Processed or dead of its own failures, it is on no list, not on a dead list either, in no sorted set, and with no worker, and it got that result once |
| RetryBound.HandlerRunsBounded | rediq/src/server/worker.rs:451-459 | then its handler is entered at most max(1, max_retry) times in the run, exactly that often if it died of its own failures, across workers and reloads; the stored count stays in u32 |
| Lineage.GrantedOnce | rediq/src/storage/dependencies.rs:69-277 | in every run every task of a family closed under dependencies, whose members have one dependency at most or are released by the script while none of theirs dies, is freed or condemned at most once, whatever happens to other tasks |
| Lineage.StraightIsOwned | rediq/src/server/worker.rs:214-260 | in every run of the shipped loop a task that has, like all its ancestors, one dependency at most is always in exactly one place, is tried at most max(1, max_retry) times and gets one verdict at most |
| Lineage.StraightReleasedOnce | rediq/src/storage/dependencies.rs:69-151 | such a task, when its dependency succeeds, is queued exactly once and never buried |
| Lineage.OneVerdict | rediq/src/storage/dependencies.rs:166-277 | a task that was freed or condemned at most once was released and buried at most once in all; it is on a dead list exactly if it was buried; whoever holds it, it was released |
| Verdicts.BothVerdictsIff | rediq/src/storage/dependencies.rs:268-270 | a task whose dependencies each get one final result was buried and also queued if and only if some worker asked whether it is free after another had deleted what it waits for |
| Verdicts.ForgottenIsFree | rediq/src/storage/dependencies.rs:88-91 | once its pending set was deleted by a failing dependency, a task is freed once for each later question whether it is free, whatever else it depends on |
| Verdicts.BuriedForGood | rediq/src/storage/dependencies.rs:223-227 | in every run a task is on a dead list exactly if it was buried; nothing takes it off |
| Verdicts.OnlyDependentsBuried | rediq/src/storage/dependencies.rs:223-227 | in every run only tasks with dependencies ever get on a dead list |
| Verdicts.OnlyFreedRuns | rediq/src/storage/dependencies.rs:113-122 | in every run a task with dependencies gets to a queue, a sorted set or a worker only by being freed |
| Termination.StepWorks | rediq/src/server/worker.rs:214-260 | in every state that any run can reach, no step adds to the work left (remaining attempts, copies, stages, submissions, loops), and every productive step lowers it |
| Termination.BoundedWork | rediq/src/server/worker.rs:444-466 | every run, with any dependencies and any number of copies of a task, holds at most so many productive steps as the submitted tasks allow for |
| Quiescence.NothingVanishes | rediq/src/server/worker.rs:272-294 | in every run a task that was routed or freed is still on its way, or got a final result |
| Quiescence.DoomedAreBuried | rediq/src/storage/dependencies.rs:166-277 | at rest, each listing by a dead dependency has put the task on a dead list once |
| Quiescence.NothingLeftBehind | rediq/src/server/scheduler.rs:128-187 | when any run is at rest, with no queue paused, every task has a final result, is buried, refused or grouped, or waits for good: exactly if some dependency never listed it and no dead one did |
| Quiescence.RestIsReachable | rediq/src/server/worker.rs:214-260 | every run can be continued to a state of rest without pausing or resuming a queue |
| Counterexamples.TwoWorkersAtOnce | rediq/src/storage/dependencies.rs:83-127 | for every configuration without the script and with two workers, and every task with two different plain dependencies, a run in which it is queued twice and two workers are in its handler at once |
| Counterexamples.OneOwnerIffSingle | rediq/src/storage/dependencies.rs:83-127 | without the script, with two workers and plain dependencies, a task has one owner in every run if and only if it has at most one different dependency |
| Counterexamples.BuriedAndFreed | rediq/src/storage/dependencies.rs:268-270 | for every configuration, with the script or without, and every task with two plain dependencies one of which is tried once, a run in which it is buried and then queued |
| Registration.TwoPhasesSafe | rediq/src/client/builder.rs:82-93 | between any two commands of the client's registration, whoever can find the task finds all its dependencies pending |
| Registration.AlternatingSafeIff | rediq/src/storage/dependencies.rs:31-45 | dependencies::register has that property exactly for tasks with at most one different dependency |
| Registration.ReleasedTooEarly | rediq/src/storage/dependencies.rs:39-45 | after its first round, the first dependency alone releases the task, whatever else it depends on |
| Registration.TwoPhasesAreProgram | rediq/src/client/builder.rs:79-98 | the order studied is the one that the client's program issues |
| Registration.Register | rediq/src/storage/dependencies.rs:31-49 | the method issues the alternating commands and in the end registers exactly the given dependencies, as the client's order does |
| Registration.AlternatingLinks | rediq/src/storage/dependencies.rs:31-49 | in the end the alternating order registers all dependencies, and nothing else |
| Leaving.PauseHolds | rediq/src/client/builder.rs:364-376 | from pause to resume no task leaves the priority queue, whether it was there or arrived meanwhile, and at most as many are popped from the plain list as workers were between pause check and BLPOP when it was paused |
| Leaving.TakesTheFirst | rediq/src/storage/redis/mod.rs:691-711 | with arrivals, a task taken from a sorted set ranks before all that stay, arrives where it should, and is due if the scheduler moved it |
| Leaving.SmallerIdFirst | rediq/src/storage/redis/mod.rs:691-711 | of two tasks with the same score the one leaves first whose id is smaller at the first difference |
| Leaving.TakenInOrder | rediq/src/storage/redis/mod.rs:603-624 | without arrivals, what all workers and ticks take is a prefix of the ranks by (score, id) and the rest is what is left: nothing lost, nothing twice |
| Leaving.PlainListComesSecond | rediq/src/server/worker.rs:331-356 | a worker about to pop the plain list has in the same round asked the priority queue in vain and then seen the queue not paused |
| Lateness.RetryLateness | rediq/src/server/scheduler.rs:78-115 | a due retry task with r due tasks ahead, not overtaken, is on its queue by the end of tick k + r / 100 |
| Lateness.DelayedLateness | rediq/src/server/scheduler.rs:91-96 | a due delayed task is on its queue by the end of tick k + 4 + 5 * (r / 100) |
| Lateness.EnoughTicks | rediq/src/server/scheduler.rs:128-187 | r / 100 + 1 looks at a set move the entry with r due entries ahead of it |
| Delays.NeverEarly | rediq/src/client/builder.rs:148-182 | in every run a delayed task is on no list, in no other sorted set and with no worker before a tick whose clock has reached the time that its client gave |
| Delays.DelayedTickInTime | rediq/src/server/scheduler.rs:161-187 | a tick takes an entry from a delayed set only after the step of its client with that time, and when the clock has reached it |
| Delays.RetryTickInTime | rediq/src/server/worker.rs:570-585 | a tick takes an entry from a retry set only when the clock has reached the clock of the worker that scheduled it plus the delay for its failures |
| Batching.BatchesAddUp | rediq/src/storage/redis/mod.rs:603-624 | moving b1 and then b2 tasks at one time is moving b1 + b2 tasks |
| Batching.MovesTakePrefix | rediq/src/storage/redis/mod.rs:595-624 | any moves at rising times append a prefix of the ranks, never a task that is not due, and keep the multiset of source and destination |
| Deduplication.OneAcceptedPerKey | rediq/src/client/builder.rs:104-114 | of the submissions under one unique key of a queue at most one is accepted, and one is refused only if another got through |
| Scripts.KeysExact | scripts/lua/enqueue.lua:23-48 | after any calls with fresh ids and one acknowledgement a task, the deduplication set is exactly the keys of accepted tasks not yet processed, these are pairwise distinct, and the totals add up |
| Scripts.FieldsExact | scripts/lua/ack.lua:27-31 | after any disciplined calls the hash of each accepted task holds the data and queue of its call and the status and error of its acknowledgement |
| Scripts.PendingExact | scripts/lua/enqueue.lua:42-43 | the list holds the accepted tasks in the order of their calls |
| Scripts.KnownIdLeaks | scripts/lua/enqueue.lua:24-35 | enqueueing a known id keeps that exactness if and only if it brings no new key |
| Scripts.ScriptServer.Enqueue | scripts/lua/enqueue.lua:23-48 | the reply and every part of the store afterwards: keys, list, hash and registry, also where the call is refused |
| Scripts.ScriptServer.Ack | scripts/lua/ack.lua:25-46 | the active list, the hash fields, the keys and the counters afterwards, with all optional parts |
| Tasks.BackoffSchedule | rediq/src/task/mod.rs:197-205 | an always failing task is rescheduled max_retry - 1 times with non-decreasing delays between 4 and 64 s whose sum is 2^(m+1) - 4 up to m = 6 and 124 + 64 (m - 6) from there |
| Tasks.DelayWhenAsked | rediq/src/server/worker.rs:455-457 | there is a delay exactly if the task can be retried, and after a failure it lies between 4 and 64 s |
| Keys.ReadRender | rediq/src/storage/keys.rs:12-137 | every key name is read back to its family and argument, whatever characters the argument holds |
| Keys.ContainerNames | rediq/src/storage/keys.rs:12-56 | the names of a queue's lists and sorted sets, letter by letter |
| Keys.OtherNames | rediq/src/storage/keys.rs:57-131 | the names of the other keys of queues, tasks and groups |
| Keys.MetaNames | rediq/src/storage/keys.rs:69-137 | the names of the registries and of a group's metadata |
| Keys.WorkerNames | rediq/src/storage/keys.rs:79-90 | the names of a worker's metadata and heartbeat |
| Keys.RenderInjective | rediq/src/storage/keys.rs:12-137 | no two keys of any families share a name |
| Keys.GroupNameUndoesMetaGroup | rediq/src/server/scheduler.rs:301-303 | the scheduler's prefix stripping recovers every group name and changes no other key |
| Keys.ScriptsAgree | scripts/lua/check_dependents.lua:32-52 | the key names that the scripts put together are the ones that the naming functions give |
| Release.ReleaseLoopSpec | scripts/lua/check_dependents.lua:34-71 | the script frees exactly the dependents for which the finished task was the last pending one, each once, on its own queue, in the listed order, and changes nothing else |
| Uninterrupted.ProgramIsScript | rediq/src/storage/dependencies.rs:69-151 | one uninterrupted run of the program's release loop leaves the store as the script does for the same order |
| Uninterrupted.ProgramReleases | rediq/src/storage/dependencies.rs:69-151 | the resulting lists and sets, in terms of the state before |
| Uninterrupted.ProgramFails | rediq/src/storage/dependencies.rs:166-277 | one run of the failure loop marks and buries exactly the listed dependents with a record, latest first, forgets what they wait for, and changes nothing else |
| Uninterrupted.AloneIsRun | rediq/src/server/worker.rs:214-260 | what the worker methods are proved to do is a sequence of enabled steps of the protocol that ends at the worker's next poll |
| Workers.CheckDependents | rediq/src/storage/dependencies.rs:69-151 | the loop leaves the store where the protocol's release of these dependents does, and returns how many tasks waited for nothing else |
| Workers.ReleaseDependent | rediq/src/storage/dependencies.rs:83-141 | one dependent: what changes, and that it is freed exactly if the finished task was its last |
| Workers.FailDependents | rediq/src/storage/dependencies.rs:166-277 | the loop leaves the store where the protocol's failure of these dependents does, and returns how many of them have a record |
| Workers.TaskWorker.NextQueue | rediq/src/server/worker.rs:266-269 | the queue polled and the counter afterwards, with its wrap-around |
| Workers.RoundRobin | rediq/src/server/worker.rs:266-269 | for n queues, n polls in a row poll each queue exactly once if and only if the counter does not wrap in between or 2^64 is a multiple of n |
| Workers.NoneStarves | rediq/src/server/worker.rs:266-269 | any 2 n - 1 polls in a row poll each queue, wrap-around or not |
| Workers.TaskWorker.LoadTask | rediq/src/server/worker.rs:359-385 | the stored task marked active, or the error for a missing record |
| Workers.TaskWorker.DequeueTask | rediq/src/server/worker.rs:272-294 | paused, nothing, or the loaded head of the list, and the store where the protocol's steps lead |
| Workers.TaskWorker.DequeueTaskPriority | rediq/src/server/worker.rs:299-326 | the three answers of the script and what each leads to |
| Workers.TaskWorker.DequeueTaskAny | rediq/src/server/worker.rs:331-356 | on the store: a paused queue hands out nothing, else the first ranked task, else - also after a task without a record - the head of the plain list; what is handed out is active |
| Workers.TaskWorker.ScheduleRetry | rediq/src/server/worker.rs:570-585 | the retry entry and its time, or nothing if the task cannot be retried |
| Workers.TaskWorker.AckTask | rediq/src/server/worker.rs:472-517 | unlisted and stored; after a success the task lists nobody any more, and exactly the tasks that waited for nothing else are at the end of their queues |
| Workers.TaskWorker.ProcessTask | rediq/src/server/worker.rs:388-469 | the effect of a handler's result on the store (released, scheduled with its delay, or dead with its dependents buried), and that it is the protocol's solo path with a truthful oracle |
| Workers.TaskWorker.Round | rediq/src/server/worker.rs:214-225 | one round takes the task that it should from the next queue and concludes it as its handler result and clock demand, on a path that the protocol allows |
| Workers.TaskWorker.TaskLoop | rediq/src/server/worker.rs:214-260 | over any inputs: round i polls the queue whose turn it is, with the handler result and clock of input i, and takes and concludes what it should on the store that the rounds before it left |
| Outcomes.PollHands | rediq/src/server/worker.rs:272-356 | an uninterrupted poll of the protocol hands out the first ranked task, else the head of the plain list, and nothing from a paused queue |
| Outcomes.ProcessingConcludes | rediq/src/server/worker.rs:388-469 | an uninterrupted processing of the protocol ends released, scheduled at its delay, or buried, each stated on the stores before and after |
| LoopRuns.LoopIsRun | rediq/src/server/worker.rs:214-260 | in any configuration without the script the rounds of a loop are a path of enabled protocol steps that leads to the loop's store, with the worker at its poll |
| LoopRuns.LoopExtendsRun | rediq/src/server/worker.rs:214-260 | so the loop continues any run in whose last state the worker polls |
| Clients.Enqueue | rediq/src/client/builder.rs:54-145 | the record, the sets, and the one container that the task is in afterwards, or the refusal for a taken key; and that these are the protocol's client steps |
| Clients.Register | rediq/src/client/builder.rs:79-98 | exactly the given dependencies are pending and list the task, and nothing else changes; both loops in the protocol's order |
| Clients.EnqueueDelayed | rediq/src/client/builder.rs:148-182 | without a delay nothing is stored; otherwise the record and an entry of the delayed set with the time now + delay, as the casts and sums give it, and nothing else |
| Clients.DueAfterDelay | rediq/src/client/builder.rs:152-156 | a delayed task is due when its delay is over, or at the last i64 second, if and only if the delay fits an i64 |
| Clients.RegistersOnly | rediq/src/client/builder.rs:79-98 | a task with dependencies ends registered with exactly these and on no queue |
| Clients.SubmissionEnqueues | rediq/src/client/builder.rs:54-145 | the protocol's client of enqueue, when nobody gets in between, has the effect that the contract of enqueue states |
| Clients.DelayedSubmission | rediq/src/client/builder.rs:148-182 | a delayed task that was nowhere is in the delayed set of its queue with its time and nowhere else; no other entry and no set changes |
| Clients.PlainSubmission | rediq/src/client/builder.rs:104-142 | a task without dependencies is refused exactly if its unique key is taken; otherwise it is in exactly one container: its group, else the priority queue with its priority, else the end of its queue |
| Clients.AloneClientIsRun | rediq/src/client/builder.rs:54-145 | what the client methods are proved to do is a sequence of enabled client steps of the protocol |
| Clients.PauseQueue | rediq/src/client/builder.rs:364-369 | the marker is set, and nothing else changes |
| Clients.ResumeQueue | rediq/src/client/builder.rs:372-377 | the marker is gone, and nothing else changes |
| Schedulers.Scheduler.CheckRetryTasks | rediq/src/server/scheduler.rs:128-155 | one move from the retry set of each queue, in order, and all sorted sets stay valid |
| Schedulers.Scheduler.CheckDelayedTasks | rediq/src/server/scheduler.rs:161-188 | one move from the delayed set of each queue, in order, and all sorted sets stay valid |
| Schedulers.Scheduler.Tick | rediq/src/server/scheduler.rs:86-96 | of each served retry set - and in every fifth tick of each delayed set - the due entries among the first 100 go to the queue and those not yet due stay, by the clock that the tick read |
| Schedulers.Scheduler.Run | rediq/src/server/scheduler.rs:73-115 | the whole loop up to shutdown issues the commands of all its ticks in a row |
| Schedulers.TickLooks | rediq/src/server/scheduler.rs:88-96 | a tick issues a move from a set at time t exactly if the schedule says so, the queue is served and t is what the tick read for that kind of set |
| Schedulers.LoopKeepsSchedule | rediq/src/server/scheduler.rs:73-115 | whenever the scheduler's steps of a run begin with what its loop issues, whatever others do in between, the run keeps the schedule, and all looks of a tick are at the times that the tick read |
| Schedulers.RetriedInTime | rediq/src/server/scheduler.rs:78-142 | a retry task with r entries ahead, due by the clocks that the program reads and not overtaken, is on its queue when the program has issued r / 100 + 1 ticks |
| Schedulers.ReleasedInTime | rediq/src/server/scheduler.rs:91-187 | a delayed task likewise, after 5 * (r / 100) + 5 ticks |
| Redis.Server.DedupAdd | rediq/src/storage/redis/mod.rs:542-557 | added exactly if it was not there |
| Redis.Server.PDequeue | rediq/src/storage/redis/mod.rs:677-712 | the script's three outcomes and their effect |
| Redis.Server.MoveExpired | rediq/src/storage/redis/mod.rs:603-624 | the loop of ZREM and RPUSH moves the first due entries as one batch, and returns how many |
| Redis.Server.ReleaseDependents | scripts/lua/check_dependents.lua:19-76 | the script's loop has the effect that Release.ReleaseLoopSpec describes, and its reply names the freed tasks in order |
| Progress.ThrottleBound | rediq/src/progress/mod.rs:94-109 | under any mix of reports and increments at most floor(T / throttle) + 1 reports below 100 get through in any window of length T |
| Progress.AnswersExactly | rediq/src/progress/mod.rs:94-136 | a value above 100 is refused; one below 100 is throttled if and only if a call was let through less than the throttle before, or the context is that new; all else gets to the writes |
| Progress.CompletionPasses | rediq/src/progress/mod.rs:104-106 | a report of 100 is never throttled: it reaches Redis unless a write fails |
| Progress.FirstReport | rediq/src/progress/mod.rs:61-69 | a first report passes right after creation exactly if the throttle is at most a second |
| Progress.ValueTracks | rediq/src/progress/mod.rs:94-147 | the local value stays in 0..100 and is the last one let through both of whose writes succeeded; Redis shows the last one whose HSET succeeded, and the last message written |
| Progress.AgreeIffLastWriteKept | rediq/src/progress/mod.rs:126-132 | the local value and the one in Redis agree if and only if the last report that reached Redis also set the expiry or repeated the local value |
| Progress.ExpireFailureShows | rediq/src/progress/mod.rs:126-147 | one failed EXPIRE makes Redis show 7 while the next increment starts from 0 |
| Progress.ProgressContext.ReportWithMessage | rediq/src/progress/mod.rs:94-136 | the new state and the outcome of a report: refused, throttled, failed in the first or in the second write, or reported |
| Progress.ProgressContext.Increment | rediq/src/progress/mod.rs:143-147 | an increment is a report of the saturated sum, at most 100 |
| Progress.IncrementCaps | rediq/src/progress/mod.rs:143-147 | an increment asks for the sum, or for 100 if that is less |
| RedisUrl.PasswordRoundTrip | rediq-cli/src/utils.rs:54-118 | a URL with a password is read back as its four parts if and only if the password holds no '@' and the host neither '@' nor '/' |
| RedisUrl.PlainRoundTrip | rediq-cli/src/utils.rs:54-118 | a URL without a password is read back as its three parts if and only if the host holds neither '@' nor '/' |
| RedisUrl.BareHost | rediq-cli/src/utils.rs:94-110 | a host without a port is read back if and only if the text after its last colon is not a port number |
| RedisUrl.DbWithoutPort | rediq-cli/src/utils.rs:88-118 | an address with a database and no port is read back, with port 6379, if and only if the host does not end in a port |
| RedisUrl.UnreadableDb | rediq-cli/src/utils.rs:112-117 | a database that is no number counts as 0, and host and port are read all the same |
| RedisUrl.NakedPassword | rediq-cli/src/utils.rs:64-75 | a password without a colon in front is read back if and only if it is not empty, does not begin with a colon and holds no '@' |
| RedisUrl.EmptyAuth | rediq-cli/src/utils.rs:69-72 | nothing before the '@' is no password |
| RedisUrl.SchemeOptional | rediq-cli/src/utils.rs:61-62 | the scheme may be left out |
| RedisUrl.SecondAtIgnored | rediq-cli/src/utils.rs:65-79 | what follows a second '@' is ignored |
| RedisUrl.SecondSlashIgnored | rediq-cli/src/utils.rs:88-118 | what follows a second slash is ignored |
| RedisUrl.ParseRedisUrl | rediq-cli/src/utils.rs:54-84 | the parser computes the reading that the round trips are about |
| RedisUrl.ParseHostPortDb | rediq-cli/src/utils.rs:94-118 | the address part is read as the round trips need it; what it does not hold keeps the value that the out-parameters had |

## Left out

- Workers.TaskWorker.LoadTask: does not write the hash field `status` (the code stores a time there) nor the time of processing, which nothing in the protocol reads.
- Workers.TaskWorker.AckTask: leaves out the worker's own metadata, the statistics counters and the last error; a failure of those writes is not modelled.
- Workers.TaskWorker.ProcessTask: leaves out middleware, progress reports, the timer and the stored error text; a timeout is a failed handler.
- Workers.TaskWorker.TaskLoop: the sleeps between rounds are not modelled; the shutdown flag is the end of the inputs.
- Redis.Server.PDequeue: leaves out the script's HSET of status and time and its EXPIRE, because these fields are not read and records do not expire.
- Redis.Server.ReleaseDependents: leaves out the fields of status and time that the script sets in the records, which are not read.
- Clients.Enqueue: leaves out the registry of queues and the count in a group's metadata.
- Clients.EnqueueDelayed: leaves out the registry of queues.
- Schedulers.Scheduler.Tick: leaves out the checks for cron tasks and groups, which do not touch the retry and delayed sets.
- Schedulers.Scheduler.Run: leaves out the same checks and the sleep between ticks.
- RetryBound.HandlerRunsBounded: says nothing about a task that was freed twice; its retry count is a natural number there, without the end of u32.
- Counterexamples.TwoWorkersAtOnce: takes dependencies that have none themselves, no unique key and no group, so the converse of the lineage result is proved one level deep.
- Counterexamples.BuriedAndFreed: takes a first dependency that is tried once, so that it dies of one failure.
- Quiescence.NothingLeftBehind: a task in a group stays there, because groups are not consumed.
- Networking, connection pools, cluster and sentinel modes, and serialisation: the store is reliable and records are stored as they are. The timeout of BLPOP is an answer without a task.
- Expiry of keys and the janitor: task records do not expire.
- Cron tasks, batch submission and enqueue_priority (which adds to the queue before it looks for duplicates).
- Aggregation of groups: the server starts the scheduler without an aggregator.
- flush_queue, retry_task and cancel_task, which act outside the worker protocol.
- Heartbeats, metrics, the dashboard, task validation and the rest of the command line.
- Scores are integers; Redis keeps them as doubles, which are exact for the times and priorities that occur.
- Several threads that report progress for one task at the same time; reports are taken one after the other.
