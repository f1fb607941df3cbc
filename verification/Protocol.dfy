/**
 * The task protocol as a state machine. Clients, workers and the scheduler take turns in any
 * order; every step is one Redis command or one script, so every interleaving of commands
 * is a run. What the code leaves to chance (handler results, clocks, the order in which
 * SMEMBERS lists a set, which queue is polled next) is a parameter of the step.
 */
module Protocol {
  import opened Basics
  import opened Keys
  import opened Tasks
  import opened Store
  import opened Commands

  type WorkerId = nat

  /**
   * tasks: every task that some client will submit, under its fresh id.
   * queues: their queues (and perhaps more).
   * delayed: those submitted with enqueue_delayed, which ignores depends_on.
   * atomicRelease: whether dependents are released by the script or command by command.
   */
  datatype Config = Config(tasks: map<Id, Task>, queues: set<string>, delayed: set<Id>, workers: set<WorkerId>, atomicRelease: bool)
  {
    /** Tasks come from the task builder: pending, never tried. */
    ghost predicate Valid() {
      forall id :: id in tasks ==>
        tasks[id].id == id && tasks[id].queue in queues && tasks[id].retryCnt == 0 && tasks[id].status == Pending
    }

    /** The dependencies that the submission of a task registers. */
    function Depends(id: Id): seq<Id> {
      if id in tasks && id !in delayed then tasks[id].dependsOn else []
    }

    /** At most one different dependency. */
    ghost predicate Single(id: Id) {
      forall x, y :: x in Depends(id) && y in Depends(id) ==> x == y
    }
  }

  /** Where a client is in its call of enqueue or enqueue_delayed. */
  datatype Client =
    | Fresh                       // before HSET of the record
    | AddingPending(i: nat)       // SADD pending_deps, i dependencies done
    | AddingDependents(i: nat)    // SADD task_deps, i dependencies done
    | CheckingKey                 // before the deduplication script
    | Routing                     // before ZADD or RPUSH
    | Delaying                    // before ZADD to the delayed set
    | Accepted
    | Rejected                    // duplicate unique key

  /** Where a worker is between two commands, and what it remembers. */
  datatype Worker =
    | Idle
    | CheckingPause(queue: string)                               // priority queue gave nothing
    | Popping(queue: string)                                     // before BLPOP
    | InHand(queue: string, id: Id)                              // popped, before LPUSH to active
    | Loading(id: Id, otherwise: Option<string>)                 // before HGET of the record; the plain list still to try
    | Running(task: Task)                                        // in the handler
    | Unlisting(task: Task, status: Status)                      // before LREM from active
    | Saving(task: Task, status: Status)                         // before HSET of the record
    | Rescheduling(task: Task)                                   // before ZADD to retry
    | ReleaseListing(done: Id)                                   // before SMEMBERS
    | Dropping(done: Id, todo: seq<Id>)                          // loop head, before SREM or DEL
    | Counting(done: Id, dep: Id, todo: seq<Id>)                 // before SCARD
    | Fetching(done: Id, dep: Id, todo: seq<Id>)                 // before HGET of the queue
    | Pushing(done: Id, dep: Id, todo: seq<Id>, queue: string)   // before RPUSH
    | Clearing(done: Id, dep: Id, todo: seq<Id>)                 // before DEL pending_deps
    | FailListing(done: Id, queue: string)
    | FailFetching(done: Id, queue: string, todo: seq<Id>)       // loop head, before HGET or DEL
    | FailSaving(done: Id, queue: string, dep: Id, todo: seq<Id>, data: Task)
    | FailPushing(done: Id, queue: string, dep: Id, todo: seq<Id>)
    | FailClearing(done: Id, queue: string, dep: Id, todo: seq<Id>)

  datatype State = State(db: Db, clients: map<Id, Client>, workers: map<WorkerId, Worker>)

  /** What the environment decides in a worker step. */
  datatype Choice =
    | Go
    | Poll(queue: string, fallThrough: bool)
    | Result(ok: bool)
    | Order(members: seq<Id>)
    | Clock(now: int)

  datatype Step =
    | ClientStep(id: Id, now: int)
    | WorkerStep(w: WorkerId, choice: Choice)
    | RetryTick(queue: string, now: int)
    | DelayedTick(queue: string, now: int)
    | PauseQueue(queue: string)
    | ResumeQueue(queue: string)

  // ---- clients ----

  function RouteCommand(t: Task, now: int): Command {
    match t.group
    case Some(group) => ZAdd(GroupKey(group), t.id, now)
    case None =>
      if t.priority != DEFAULT_PRIORITY then ZAdd(PriorityKey(t.queue), t.id, t.priority)
      else RPush(QueueKey(t.queue), t.id)
  }

  /** The next command of a client that submits t; now is its clock. */
  function ClientCommand(t: Task, c: Client, now: int): Command {
    match c
    case Fresh => HSet(t.id, Record(t, t.queue))
    case AddingPending(i) => if i < |t.dependsOn| then SAdd(PendingDepsKey(t.id), t.dependsOn[i]) else Read
    case AddingDependents(i) => if i < |t.dependsOn| then SAdd(TaskDepsKey(t.dependsOn[i]), t.id) else Read
    case CheckingKey => if t.uniqueKey.Some? then DedupAdd(DedupKey(t.queue), t.uniqueKey.value) else Read
    case Routing => RouteCommand(t, now)
    case Delaying => ZAdd(DelayedKey(t.queue), t.id, now)
    case Accepted => Read
    case Rejected => Read
  }

  function Submitted(cfg: Config, t: Task): Client {
    if t.id in cfg.delayed then Delaying
    else if t.dependsOn != [] then AddingPending(0)
    else if t.uniqueKey.Some? then CheckingKey
    else Routing
  }

  /** Where the client is after that command; db is the data it met. */
  function ClientNext(cfg: Config, db: Db, t: Task, c: Client): Client {
    match c
    case Fresh => Submitted(cfg, t)
    case AddingPending(i) => if i < |t.dependsOn| then AddingPending(i + 1) else AddingDependents(0)
    case AddingDependents(i) => if i < |t.dependsOn| then AddingDependents(i + 1) else Accepted
    case CheckingKey =>
      if t.uniqueKey.Some? && !db.DedupAdd(DedupKey(t.queue), t.uniqueKey.value).1 then Rejected else Routing
    case Routing => Accepted
    case Delaying => Accepted
    case Accepted => c
    case Rejected => c
  }

  // ---- workers ----

  /** The sequence names each member of the set once. */
  ghost predicate Enumerates(order: seq<Id>, members: set<Id>) {
    NoDup(order) && forall x :: x in order <==> x in members
  }

  /** The choices that a worker's next command leaves open. */
  ghost predicate Fits(db: Db, w: Worker, c: Choice) {
    match w
    case Idle => c.Poll?
    case Running(_) => c.Result?
    case Rescheduling(_) => c.Clock?
    case ReleaseListing(done) => c.Order? && Enumerates(c.members, db.Members(TaskDepsKey(done)))
    case FailListing(done, _) => c.Order? && Enumerates(c.members, db.Members(TaskDepsKey(done)))
    case _ => c.Go?
  }

  /** The next command of a worker. */
  function WorkerCommand(cfg: Config, w: Worker, c: Choice): Command {
    match w
    case Idle => if c.Poll? then PDequeue(c.queue) else Read
    case CheckingPause(_) => Read
    case Popping(q) => LPop(QueueKey(q))
    case InHand(q, id) => LPush(ActiveKey(q), id)
    case Loading(_, _) => Read
    case Running(_) => Read
    case Unlisting(t, _) => LRem(ActiveKey(t.queue), t.id)
    case Saving(t, status) => HSet(t.id, Record(t.(status := status), t.queue))
    case Rescheduling(t) =>
      if RetryDelay(t).Some? && c.Clock? then ZAdd(RetryKey(t.queue), t.id, c.now + RetryDelay(t).value) else Read
    case ReleaseListing(done) => if cfg.atomicRelease && c.Order? then ReleaseAll(done, c.members) else Read
    case Dropping(done, todo) =>
      if todo == [] then Del(TaskDepsKey(done)) else SRem(PendingDepsKey(todo[0]), done)
    case Counting(_, _, _) => Read
    case Fetching(_, _, _) => Read
    case Pushing(_, dep, _, q) => RPush(QueueKey(q), dep)
    case Clearing(_, dep, _) => Del(PendingDepsKey(dep))
    case FailListing(_, _) => Read
    case FailFetching(done, _, todo) => if todo == [] then Del(TaskDepsKey(done)) else Read
    case FailSaving(_, q, dep, _, data) => HSet(dep, Record(data.(status := Dead), q))
    case FailPushing(_, q, dep, _) => LPush(DeadKey(q), dep)
    case FailClearing(_, _, dep, _) => Del(PendingDepsKey(dep))
  }

  /** What a worker does with a handler's result. */
  function Handled(t: Task, ok: bool): Worker {
    if ok then Unlisting(t, Processed)
    else
      var t' := Attempted(t);
      Unlisting(t', if CanRetry(t') then Retry else Dead)
  }

  function AfterSave(t: Task, status: Status): Worker {
    if status == Processed then ReleaseListing(t.id)
    else if status == Retry then Rescheduling(t)
    else FailListing(t.id, t.queue)
  }

  /** Where a worker is after its command; db is the data it met. */
  function WorkerNext(cfg: Config, db: Db, w: Worker, c: Choice): Worker {
    match w
    case Idle =>
      if !c.Poll? then w else
      (match db.PDequeue(c.queue).1
       case Got(id) => Loading(id, Some(c.queue))
       case Timeout => CheckingPause(c.queue)
       case QueuePaused => if c.fallThrough then CheckingPause(c.queue) else Idle)
    case CheckingPause(q) => if db.Paused(q) then Idle else Popping(q)
    case Popping(q) => if db.List(QueueKey(q)) == [] then Idle else InHand(q, db.List(QueueKey(q))[0])
    case InHand(_, id) => Loading(id, None)
    case Loading(id, otherwise) =>
      if id in db.tasks then Running(db.tasks[id].data.(status := Active))
      else if otherwise.Some? then CheckingPause(otherwise.value)
      else Idle
    case Running(t) => if c.Result? then Handled(t, c.ok) else w
    case Unlisting(t, status) => Saving(t, status)
    case Saving(t, status) => AfterSave(t, status)
    case Rescheduling(_) => Idle
    case ReleaseListing(done) =>
      if !c.Order? then w
      else if cfg.atomicRelease || c.members == [] then Idle
      else Dropping(done, c.members)
    case Dropping(done, todo) => if todo == [] then Idle else Counting(done, todo[0], todo[1..])
    case Counting(done, dep, todo) =>
      if db.Members(PendingDepsKey(dep)) == {} then Fetching(done, dep, todo) else Dropping(done, todo)
    case Fetching(done, dep, todo) =>
      if dep in db.tasks then Pushing(done, dep, todo, db.tasks[dep].queue) else Clearing(done, dep, todo)
    case Pushing(done, dep, todo, _) => Clearing(done, dep, todo)
    case Clearing(done, _, todo) => Dropping(done, todo)
    case FailListing(done, q) => if c.Order? && c.members != [] then FailFetching(done, q, c.members) else Idle
    case FailFetching(done, q, todo) =>
      if todo == [] then Idle
      else if todo[0] in db.tasks then FailSaving(done, q, todo[0], todo[1..], db.tasks[todo[0]].data)
      else FailClearing(done, q, todo[0], todo[1..])
    case FailSaving(done, q, dep, todo, _) => FailPushing(done, q, dep, todo)
    case FailPushing(done, q, dep, todo) => FailClearing(done, q, dep, todo)
    case FailClearing(done, q, _, todo) => FailFetching(done, q, todo)
  }

  // ---- reading a worker's program counter ----

  /** The task whose processing a worker has in hand. */
  function Holds(w: Worker): Option<Id> {
    match w
    case InHand(_, id) => Some(id)
    case Loading(id, _) => Some(id)
    case Running(t) => Some(t.id)
    case Unlisting(t, _) => Some(t.id)
    case Saving(t, _) => Some(t.id)
    case Rescheduling(t) => Some(t.id)
    case _ => None
  }

  /** In the part of the program that releases the dependents of a processed task. */
  predicate Releasing(w: Worker) {
    w.ReleaseListing? || w.Dropping? || w.Counting? || w.Fetching? || w.Pushing? || w.Clearing?
  }

  /** In the part of the program that fails the dependents of a dead task. */
  predicate Failing(w: Worker) {
    w.FailListing? || w.FailFetching? || w.FailSaving? || w.FailPushing? || w.FailClearing?
  }

  /** The finished task whose dependents a worker is releasing or failing. */
  function Tail(w: Worker): Option<Id> {
    if Releasing(w) || Failing(w) then Some(w.done) else None
  }

  /** The dependents still to come in the worker's loop. */
  function Todo(w: Worker): seq<Id> {
    if (Releasing(w) && !w.ReleaseListing?) || (Failing(w) && !w.FailListing?) then w.todo else []
  }

  /** The dependent that the worker's loop is busy with. */
  function Current(w: Worker): Option<Id> {
    if w.Counting? || w.Fetching? || w.Pushing? || w.Clearing? || w.FailSaving? || w.FailPushing? || w.FailClearing?
    then Some(w.dep) else None
  }

  /** The worker's loop has listed d and not finished with it. */
  predicate Knows(w: Worker, d: Id) {
    d in Todo(w) || Current(w) == Some(d)
  }

  /** The worker's loop is at d and may still push it. */
  predicate Decides(w: Worker, d: Id) {
    (w.Counting? || w.Fetching? || w.Pushing?) && w.dep == d
  }

  /** All SADDs to pending_deps of the task are done. */
  predicate Linking(c: Client) {
    c.AddingDependents? || c.Accepted?
  }

  // ---- the whole system ----

  ghost predicate Enabled(cfg: Config, s: State, step: Step) {
    match step
    case ClientStep(id, _) =>
      id in s.clients && id in cfg.tasks && !s.clients[id].Accepted? && !s.clients[id].Rejected?
    case WorkerStep(w, c) => w in s.workers && Fits(s.db, s.workers[w], c)
    case _ => true
  }

  /** The one command that a step issues. */
  function CommandOf(cfg: Config, s: State, step: Step): Command {
    match step
    case ClientStep(id, now) =>
      if id in cfg.tasks && id in s.clients then ClientCommand(cfg.tasks[id], s.clients[id], now) else Read
    case WorkerStep(w, c) => if w in s.workers then WorkerCommand(cfg, s.workers[w], c) else Read
    case RetryTick(q, now) => MoveDue(RetryKey(q), QueueKey(q), now)
    case DelayedTick(q, now) => MoveDue(DelayedKey(q), QueueKey(q), now)
    case PauseQueue(q) => SetPause(q)
    case ResumeQueue(q) => DelPause(q)
  }

  function After(cfg: Config, s: State, step: Step): State {
    State(
      Do(s.db, CommandOf(cfg, s, step)),
      if step.ClientStep? && step.id in s.clients && step.id in cfg.tasks
      then s.clients[step.id := ClientNext(cfg, s.db, cfg.tasks[step.id], s.clients[step.id])]
      else s.clients,
      if step.WorkerStep? && step.w in s.workers
      then s.workers[step.w := WorkerNext(cfg, s.db, s.workers[step.w], step.choice)]
      else s.workers)
  }

  /** Release scripts list each dependent once. */
  lemma EnabledOrdered(cfg: Config, s: State, step: Step)
    requires Enabled(cfg, s, step)
    ensures WellOrdered(CommandOf(cfg, s, step))
  {
  }

  /** On which keys the protocol uses the commands that take something away. */
  lemma TakingKeys(cfg: Config, s: State, step: Step)
    requires Enabled(cfg, s, step)
    ensures var c := CommandOf(cfg, s, step);
            && (c.LRem? ==> c.k.ActiveKey?)
            && (c.LPush? ==> c.k.ActiveKey? || c.k.DeadKey?)
            && (c.LPop? ==> step.WorkerStep? && s.workers[step.w].Popping? && c.k == QueueKey(s.workers[step.w].queue))
            && (c.MoveDue? ==> c.k.RetryKey? || c.k.DelayedKey?)
            && (c.DelPause? ==> step == ResumeQueue(c.queue))
  {
  }

  ghost predicate Init(cfg: Config, s: State) {
    && cfg.Valid()
    && s.db == EMPTY
    && s.clients == (map id | id in cfg.tasks :: Fresh)
    && s.workers == (map w | w in cfg.workers :: Idle)
  }

  /** The state after a step, if the step can be taken. */
  ghost function Successor(cfg: Config, s: State, step: Step): Option<State> {
    if Enabled(cfg, s, step) then Some(After(cfg, s, step)) else None
  }

  /** A run: run[i] is the state before steps[i], run[i + 1] the state after it. */
  ghost predicate IsRun(cfg: Config, run: seq<State>, steps: seq<Step>) {
    && |run| == |steps| + 1
    && Init(cfg, run[0])
    && forall i {:trigger Successor(cfg, run[i], steps[i])} :: 0 <= i < |steps| ==>
         Successor(cfg, run[i], steps[i]) == Some(run[i + 1])
  }

  ghost predicate Next(cfg: Config, s: State, step: Step, s': State) {
    Enabled(cfg, s, step) && s' == After(cfg, s, step)
  }

  lemma RunStep(cfg: Config, run: seq<State>, steps: seq<Step>, n: nat)
    requires IsRun(cfg, run, steps) && 0 < n <= |steps|
    ensures Next(cfg, run[n - 1], steps[n - 1], run[n])
  {
    assert Successor(cfg, run[n - 1], steps[n - 1]) == Some(run[n - 1 + 1]);
  }

  /** A run can be continued by any step that is enabled in its last state. */
  lemma OneMore(cfg: Config, run: seq<State>, steps: seq<Step>, step: Step)
    requires IsRun(cfg, run, steps) && Enabled(cfg, run[|steps|], step)
    ensures IsRun(cfg, run + [After(cfg, run[|steps|], step)], steps + [step])
  {
    var run', steps' := run + [After(cfg, run[|steps|], step)], steps + [step];
    forall i | 0 <= i < |steps'| ensures Successor(cfg, run'[i], steps'[i]) == Some(run'[i + 1]) {
      if i < |steps| {
        assert Successor(cfg, run[i], steps[i]) == Some(run[i + 1]);
      }
    }
  }

  /** In every run the sorted sets stay valid. */
  lemma {:induction false} RanksValidThroughout(cfg: Config, run: seq<State>, steps: seq<Step>, n: nat)
    requires IsRun(cfg, run, steps) && n <= |steps|
    ensures RanksValid(run[n].db)
  {
    if n > 0 {
      RanksValidThroughout(cfg, run, steps, n - 1);
      RunStep(cfg, run, steps, n);
      EnabledOrdered(cfg, run[n - 1], steps[n - 1]);
      RanksStayValid(run[n - 1].db, CommandOf(cfg, run[n - 1], steps[n - 1]));
    }
  }
}
