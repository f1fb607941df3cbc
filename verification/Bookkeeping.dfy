/**
 * What holds in every state of every run, whatever interleaves: records are copies of what was
 * submitted, only recorded tasks are anywhere, and workers remember only what is on record.
 */
module Bookkeeping {
  import opened Basics
  import opened Keys
  import opened SortedSets
  import opened Tasks
  import opened Store
  import opened Commands
  import opened Protocol

  /** t is the task submitted as x, but for its status and retry count. */
  ghost predicate CopyOf(cfg: Config, x: Id, t: Task) {
    x in cfg.tasks && t == cfg.tasks[x].(status := t.status, retryCnt := t.retryCnt)
  }

  ghost predicate RecordKept(cfg: Config, x: Id, r: Record) {
    CopyOf(cfg, x, r.data) && r.queue in cfg.queues
  }

  /** Records belong to submitted tasks; a client that has begun has stored one. */
  ghost predicate RecordsKept(cfg: Config, s: State) {
    && s.clients.Keys == cfg.tasks.Keys && s.workers.Keys == cfg.workers
    && (forall x :: x in s.db.tasks ==> RecordKept(cfg, x, s.db.tasks[x]))
    && (forall x :: x in s.clients ==> (s.clients[x].Fresh? <==> x !in s.db.tasks))
  }

  predicate ListKept(cfg: Config, db: Db, k: Key, x: Id) {
    x in db.tasks && (k.QueueKey? ==> k.name in cfg.queues)
  }

  ghost predicate ListsKept(cfg: Config, s: State) {
    forall k, x :: x in s.db.List(k) ==> ListKept(cfg, s.db, k, x)
  }

  ghost predicate RankKept(cfg: Config, db: Db, k: Key, x: Id) {
    x in db.tasks && x in cfg.tasks && (k.GroupKey? || (Scheduling(k) && k.name == cfg.tasks[x].queue))
  }

  ghost predicate RanksKept(cfg: Config, s: State) {
    && RanksValid(s.db)
    && forall k, x :: Has(s.db.Ranks(k), x) ==> RankKept(cfg, s.db, k, x)
  }

  ghost predicate Links(cfg: Config, s: State, d: Id, x: Id) {
    x in cfg.Depends(d) && d in s.clients && Linking(s.clients[d])
  }

  ghost predicate SetsKept(cfg: Config, s: State) {
    forall x, d :: d in s.db.Members(TaskDepsKey(x)) ==> Links(cfg, s, d, x)
  }

  /** The task that a worker has loaded and works on. */
  function TaskOf(w: Worker): Option<Task> {
    if w.Running? || w.Unlisting? || w.Saving? || w.Rescheduling? then Some(w.task) else None
  }

  /** A result that a worker can arrive at. */
  predicate Possible(t: Task, status: Status) {
    || status == Processed
    || (status == Retry && CanRetry(t) && t.retryCnt >= 1)
    || (status == Dead && !CanRetry(t) && t.retryCnt >= 1)
  }

  /** What a worker remembers of the task that it fetches or works on. */
  ghost predicate HoldsRight(cfg: Config, s: State, w: Worker) {
    && (Holds(w).Some? ==> Holds(w).value in s.db.tasks)
    && (TaskOf(w).Some? ==> CopyOf(cfg, TaskOf(w).value.id, TaskOf(w).value))
    && (w.Unlisting? || w.Saving? ==> Possible(w.task, w.status))
    && (w.Rescheduling? ==> CanRetry(w.task))
    && (w.InHand? ==> w.queue in cfg.queues)
  }

  /** What a worker remembers while it finishes a task off. */
  ghost predicate TailRight(cfg: Config, s: State, w: Worker) {
    LoopRight(cfg, s, w) && forall d :: Knows(w, d) ==> Links(cfg, s, d, w.done)
  }

  ghost predicate LoopRight(cfg: Config, s: State, w: Worker) {
    && (Tail(w).Some? ==> w.done in cfg.tasks)
    && (Failing(w) || w.Pushing? ==> w.queue in cfg.queues)
    && (w.FailSaving? ==> CopyOf(cfg, w.dep, w.data))
    && (w.FailSaving? || w.FailPushing? || w.Pushing? ==> w.dep in s.db.tasks)
    && (cfg.atomicRelease && Releasing(w) ==> w.ReleaseListing?)
  }

  /** The loop names each dependent once. */
  ghost predicate LoopDistinct(w: Worker) {
    NoDup(Todo(w)) && (Current(w).Some? ==> w.dep !in Todo(w))
  }

  ghost predicate WorkerRight(cfg: Config, s: State, w: Worker) {
    HoldsRight(cfg, s, w) && TailRight(cfg, s, w) && LoopDistinct(w)
  }

  ghost predicate WorkersRight(cfg: Config, s: State) {
    forall w {:trigger s.workers[w]} :: w in s.workers ==> WorkerRight(cfg, s, s.workers[w])
  }

  /** The client of x is in the part of the program that its task takes. */
  predicate ClientRight(cfg: Config, x: Id, c: Client) {
    var deps := cfg.Depends(x);
    if deps == [] then
      && !c.AddingPending? && !c.AddingDependents?
      && (c.CheckingKey? || c.Routing? ==> x !in cfg.delayed) && (c.Delaying? ==> x in cfg.delayed)
    else c.Fresh? || c.Accepted? || ((c.AddingPending? || c.AddingDependents?) && c.i <= |deps|)
  }

  ghost predicate ClientsRight(cfg: Config, s: State) {
    forall x :: x in s.clients ==> ClientRight(cfg, x, s.clients[x])
  }

  ghost predicate Kept(cfg: Config, s: State) {
    && cfg.Valid() && RecordsKept(cfg, s) && ClientsRight(cfg, s)
    && ListsKept(cfg, s) && RanksKept(cfg, s) && SetsKept(cfg, s) && WorkersRight(cfg, s)
  }

  // ---- one step ----

  lemma CopyNamed(cfg: Config, x: Id, t: Task)
    requires cfg.Valid() && CopyOf(cfg, x, t)
    ensures t.id == x && t.queue in cfg.queues
  {
  }

  /** The worker that takes the step. */
  ghost predicate MoverRight(cfg: Config, s: State, step: Step) {
    step.WorkerStep? ==> step.w in s.workers && WorkerRight(cfg, s, s.workers[step.w])
  }

  /** The client that takes the step. */
  ghost predicate SubmitterRight(cfg: Config, s: State, step: Step) {
    step.ClientStep? ==>
      && step.id in s.clients && step.id in cfg.tasks && ClientRight(cfg, step.id, s.clients[step.id])
      && cfg.tasks[step.id].id == step.id && cfg.tasks[step.id].queue in cfg.queues && (s.clients[step.id].Fresh? || step.id in s.db.tasks)
  }

  lemma ActorsRight(cfg: Config, s: State, step: Step)
    requires Kept(cfg, s) && Enabled(cfg, s, step)
    ensures MoverRight(cfg, s, step) && SubmitterRight(cfg, s, step)
  {
  }

  /** Records and links only grow. */
  lemma Grows(cfg: Config, s: State, step: Step)
    requires Enabled(cfg, s, step)
    ensures forall x :: x in s.db.tasks ==> x in After(cfg, s, step).db.tasks
    ensures forall d, x :: Links(cfg, s, d, x) ==> Links(cfg, After(cfg, s, step), d, x)
  {
    EnabledOrdered(cfg, s, step);
    TaskFrame(s.db, CommandOf(cfg, s, step));
  }

  lemma StoresCopy(cfg: Config, s: State, step: Step)
    requires cfg.Valid() && MoverRight(cfg, s, step) && SubmitterRight(cfg, s, step)
    requires Enabled(cfg, s, step) && CommandOf(cfg, s, step).HSet?
    ensures RecordKept(cfg, CommandOf(cfg, s, step).id, CommandOf(cfg, s, step).record)
    ensures step.WorkerStep? ==> CommandOf(cfg, s, step).id in s.db.tasks
    ensures step.ClientStep? ==> CommandOf(cfg, s, step).id == step.id && s.clients[step.id].Fresh?
  {
  }

  lemma RecordsStay(cfg: Config, s: State, step: Step)
    requires cfg.Valid() && RecordsKept(cfg, s) && MoverRight(cfg, s, step) && SubmitterRight(cfg, s, step)
    requires Enabled(cfg, s, step)
    ensures RecordsKept(cfg, After(cfg, s, step))
  {
    EnabledOrdered(cfg, s, step);
    TaskFrame(s.db, CommandOf(cfg, s, step));
    ClientsBegin(cfg, s, step);
    if CommandOf(cfg, s, step).HSet? {
      StoresCopy(cfg, s, step);
    }
  }

  /** A client stores the record with its first command. */
  lemma ClientsBegin(cfg: Config, s: State, step: Step)
    requires cfg.Valid() && Enabled(cfg, s, step)
    ensures var clients' := After(cfg, s, step).clients;
            && clients'.Keys == s.clients.Keys
            && forall x :: x in s.clients ==>
                 (clients'[x].Fresh? <==> s.clients[x].Fresh? && !(CommandOf(cfg, s, step).HSet? && step.ClientStep? && step.id == x))
  {
  }

  /** What the step puts on a list is on record, and queues are queues of submitted tasks. */
  lemma ListedKept(cfg: Config, s: State, step: Step, k: Key, x: Id)
    requires cfg.Valid() && RanksKept(cfg, s) && (forall y :: y in s.db.tasks ==> RecordKept(cfg, y, s.db.tasks[y]))
    requires MoverRight(cfg, s, step) && SubmitterRight(cfg, s, step)
    requires Enabled(cfg, s, step) && Commands.Lists(s.db, CommandOf(cfg, s, step), k, x)
    ensures ListKept(cfg, s.db, k, x)
  {
    var c := CommandOf(cfg, s, step);
    if c.MoveDue? {
      TailHas(s.db.Ranks(c.k), BatchCount(s.db.Ranks(c.k), c.now, BATCH_SIZE), x);
      assert Has(s.db.Ranks(c.k), x);
    } else if c.PDequeue? {
      assert Has(s.db.Ranks(PriorityKey(c.queue)), x);
    } else if c.ReleaseAll? {
      assert RecordKept(cfg, x, s.db.tasks[x]);
    } else {
      PushedKept(cfg, s, step);
    }
  }

  lemma PushedKept(cfg: Config, s: State, step: Step)
    requires MoverRight(cfg, s, step) && SubmitterRight(cfg, s, step) && Enabled(cfg, s, step)
    requires CommandOf(cfg, s, step).RPush? || CommandOf(cfg, s, step).LPush?
    ensures var c := CommandOf(cfg, s, step); c.id in s.db.tasks && (c.k.QueueKey? ==> c.k.name in cfg.queues)
  {
  }

  lemma ListsStay(cfg: Config, s: State, step: Step)
    requires cfg.Valid() && ListsKept(cfg, s) && RanksKept(cfg, s)
    requires forall y :: y in s.db.tasks ==> RecordKept(cfg, y, s.db.tasks[y])
    requires MoverRight(cfg, s, step) && SubmitterRight(cfg, s, step) && Enabled(cfg, s, step)
    ensures ListsKept(cfg, After(cfg, s, step))
  {
    var s', c := After(cfg, s, step), CommandOf(cfg, s, step);
    EnabledOrdered(cfg, s, step);
    TaskFrame(s.db, c);
    forall k, x | x in s'.db.List(k) ensures ListKept(cfg, s'.db, k, x) {
      ListFrame(s.db, c, k, x);
      if x !in s.db.List(k) { ListedKept(cfg, s, step, k, x); } else { assert ListKept(cfg, s.db, k, x); }
    }
  }

  lemma ScoredKept(cfg: Config, s: State, step: Step)
    requires cfg.Valid() && MoverRight(cfg, s, step) && SubmitterRight(cfg, s, step)
    requires Enabled(cfg, s, step) && CommandOf(cfg, s, step).ZAdd?
    ensures RankKept(cfg, s.db, CommandOf(cfg, s, step).k, CommandOf(cfg, s, step).id)
  {
  }

  lemma RanksStay(cfg: Config, s: State, step: Step)
    requires cfg.Valid() && RanksKept(cfg, s) && MoverRight(cfg, s, step) && SubmitterRight(cfg, s, step)
    requires Enabled(cfg, s, step)
    ensures RanksKept(cfg, After(cfg, s, step))
  {
    var s', c := After(cfg, s, step), CommandOf(cfg, s, step);
    EnabledOrdered(cfg, s, step);
    TaskFrame(s.db, c);
    RanksStayValid(s.db, c);
    forall k, x | Has(s'.db.Ranks(k), x) ensures RankKept(cfg, s'.db, k, x) {
      RanksFrame(s.db, c, k, x);
      if !Has(s.db.Ranks(k), x) { ScoredKept(cfg, s, step); }
    }
  }

  lemma SetsStay(cfg: Config, s: State, step: Step)
    requires cfg.Valid() && SetsKept(cfg, s) && SubmitterRight(cfg, s, step) && Enabled(cfg, s, step)
    ensures SetsKept(cfg, After(cfg, s, step))
  {
    var s', c := After(cfg, s, step), CommandOf(cfg, s, step);
    EnabledOrdered(cfg, s, step);
    Grows(cfg, s, step);
    forall x, d | d in s'.db.Members(TaskDepsKey(x)) ensures Links(cfg, s', d, x) {
      SetFrame(s.db, c, TaskDepsKey(x));
      if d !in s.db.Members(TaskDepsKey(x)) {
        LinkedBy(cfg, s, step, x, d);
      }
    }
  }

  lemma LinkedBy(cfg: Config, s: State, step: Step, x: Id, d: Id)
    requires SubmitterRight(cfg, s, step) && Enabled(cfg, s, step) && CommandOf(cfg, s, step) == SAdd(TaskDepsKey(x), d)
    ensures Links(cfg, After(cfg, s, step), d, x)
  {
  }

  lemma ClientsStay(cfg: Config, s: State, step: Step)
    requires cfg.Valid() && ClientsRight(cfg, s) && Enabled(cfg, s, step)
    ensures ClientsRight(cfg, After(cfg, s, step))
  {
  }

  // ---- workers ----

  lemma FetcherRight(cfg: Config, s: State, w: Worker, c: Choice)
    requires RanksKept(cfg, s) && ListsKept(cfg, s) && Fits(s.db, w, c)
    requires w.Idle? || w.CheckingPause? || w.Popping?
    ensures WorkerRight(cfg, s, WorkerNext(cfg, s.db, w, c))
  {
    if w.Idle? {
      if s.db.PDequeue(c.queue).1.Got? {
        assert Has(s.db.Ranks(PriorityKey(c.queue)), s.db.Ranks(PriorityKey(c.queue))[0].id);
      }
    } else if w.Popping? && s.db.List(QueueKey(w.queue)) != [] {
      assert s.db.List(QueueKey(w.queue))[0] in s.db.List(QueueKey(w.queue));
    }
  }

  lemma HolderRight(cfg: Config, s: State, w: Worker, c: Choice)
    requires cfg.Valid() && Fits(s.db, w, c) && Holds(w).Some? && HoldsRight(cfg, s, w)
    requires RecordKept(cfg, Holds(w).value, s.db.tasks[Holds(w).value])
    ensures HoldsRight(cfg, s, WorkerNext(cfg, s.db, w, c))
    ensures TailRight(cfg, s, WorkerNext(cfg, s.db, w, c)) && LoopDistinct(WorkerNext(cfg, s.db, w, c))
  {
    if w.InHand? || w.Loading? || w.Rescheduling? {
    } else {
      CopyNamed(cfg, w.task.id, w.task);
      if w.Running? { HandledRight(w.task, c.ok); }
    }
  }

  lemma HandledRight(t: Task, ok: bool)
    ensures Handled(t, ok).Unlisting? && Possible(Handled(t, ok).task, Handled(t, ok).status)
  {
  }

  lemma ListerRight(cfg: Config, s: State, w: Worker, c: Choice)
    requires SetsKept(cfg, s) && Fits(s.db, w, c) && (w.ReleaseListing? || w.FailListing?) && TailRight(cfg, s, w)
    ensures WorkerRight(cfg, s, WorkerNext(cfg, s.db, w, c))
  {
  }

  /** A loop learns of no further dependents. */
  lemma KnowsLess(cfg: Config, db: Db, w: Worker, c: Choice, d: Id)
    requires Tail(w).Some? && !w.ReleaseListing? && !w.FailListing?
    ensures var w' := WorkerNext(cfg, db, w, c);
            (Tail(w').Some? ==> Tail(w') == Tail(w)) && (Knows(w', d) ==> Tail(w').Some? && Knows(w, d))
  {
    if (w.Dropping? || w.FailFetching?) && w.todo != [] {
      assert w.todo == [w.todo[0]] + w.todo[1..];
    }
  }

  lemma LooperRight(cfg: Config, s: State, w: Worker, c: Choice)
    requires Tail(w).Some? && !w.ReleaseListing? && !w.FailListing? && TailRight(cfg, s, w)
    requires forall d :: Knows(w, d) ==> d in s.db.tasks && RecordKept(cfg, d, s.db.tasks[d])
    ensures TailRight(cfg, s, WorkerNext(cfg, s.db, w, c)) && HoldsRight(cfg, s, WorkerNext(cfg, s.db, w, c))
  {
    if Releasing(w) { ReleaserRemembers(cfg, s, w, c); } else { FailerRemembers(cfg, s, w, c); }
    LooperKnows(cfg, s, w, c);
  }

  lemma LooperKnows(cfg: Config, s: State, w: Worker, c: Choice)
    requires Tail(w).Some? && !w.ReleaseListing? && !w.FailListing? && (forall d :: Knows(w, d) ==> Links(cfg, s, d, w.done))
    ensures var w' := WorkerNext(cfg, s.db, w, c); forall d :: Knows(w', d) ==> Links(cfg, s, d, w'.done)
  {
    var w' := WorkerNext(cfg, s.db, w, c);
    forall d | Knows(w', d) ensures Links(cfg, s, d, w'.done) {
      KnowsLess(cfg, s.db, w, c, d);
    }
  }

  lemma ReleaserRemembers(cfg: Config, s: State, w: Worker, c: Choice)
    requires Releasing(w) && !w.ReleaseListing? && LoopRight(cfg, s, w)
    requires w.Fetching? && w.dep in s.db.tasks ==> s.db.tasks[w.dep].queue in cfg.queues
    ensures LoopRight(cfg, s, WorkerNext(cfg, s.db, w, c)) && HoldsRight(cfg, s, WorkerNext(cfg, s.db, w, c))
  {
  }

  lemma FailerRemembers(cfg: Config, s: State, w: Worker, c: Choice)
    requires Failing(w) && !w.FailListing? && LoopRight(cfg, s, w)
    requires w.FailFetching? && w.todo != [] && w.todo[0] in s.db.tasks ==> CopyOf(cfg, w.todo[0], s.db.tasks[w.todo[0]].data)
    ensures LoopRight(cfg, s, WorkerNext(cfg, s.db, w, c)) && HoldsRight(cfg, s, WorkerNext(cfg, s.db, w, c))
  {
  }

  lemma LoopStays(cfg: Config, db: Db, w: Worker, c: Choice)
    requires Tail(w).Some? && !w.ReleaseListing? && !w.FailListing? && LoopDistinct(w)
    ensures LoopDistinct(WorkerNext(cfg, db, w, c))
  {
    if (w.Dropping? || w.FailFetching?) && w.todo != [] {
      TailApart(w.todo);
    }
  }

  lemma TailApart(s: seq<Id>)
    requires NoDup(s) && s != []
    ensures NoDup(s[1..]) && s[0] !in s[1..]
  {
  }

  lemma WorkerStays(cfg: Config, s: State, s': State, w: Worker)
    requires WorkerRight(cfg, s, w)
    requires forall x :: x in s.db.tasks ==> x in s'.db.tasks
    requires forall d, x :: Links(cfg, s, d, x) ==> Links(cfg, s', d, x)
    ensures WorkerRight(cfg, s', w)
  {
  }

  lemma WorkersStay(cfg: Config, s: State, step: Step)
    requires Kept(cfg, s) && Enabled(cfg, s, step)
    ensures WorkersRight(cfg, After(cfg, s, step))
  {
    var s' := After(cfg, s, step);
    Grows(cfg, s, step);
    forall v | v in s'.workers ensures WorkerRight(cfg, s', s'.workers[v]) {
      if step.WorkerStep? && v == step.w {
        MoverStays(cfg, s, s.workers[v], step.choice);
      }
      WorkerStays(cfg, s, s', s'.workers[v]);
    }
  }

  lemma MoverStays(cfg: Config, s: State, w: Worker, c: Choice)
    requires Kept(cfg, s) && WorkerRight(cfg, s, w) && Fits(s.db, w, c)
    ensures WorkerRight(cfg, s, WorkerNext(cfg, s.db, w, c))
  {
    if Holds(w).Some? {
      HolderRight(cfg, s, w, c);
    } else if w.ReleaseListing? || w.FailListing? {
      ListerRight(cfg, s, w, c);
    } else if Tail(w).Some? {
      forall d | Knows(w, d) ensures d in s.db.tasks && RecordKept(cfg, d, s.db.tasks[d]) {
        LinkedOnRecord(cfg, s, d, w.done);
      }
      LooperRight(cfg, s, w, c);
      LoopStays(cfg, s.db, w, c);
    } else {
      FetcherRight(cfg, s, w, c);
    }
  }

  lemma LinkedOnRecord(cfg: Config, s: State, d: Id, x: Id)
    requires RecordsKept(cfg, s) && Links(cfg, s, d, x)
    ensures d in s.db.tasks && RecordKept(cfg, d, s.db.tasks[d])
  {
  }

  lemma StepKeeps(cfg: Config, s: State, step: Step)
    requires Kept(cfg, s) && Enabled(cfg, s, step)
    ensures Kept(cfg, After(cfg, s, step))
  {
    ActorsRight(cfg, s, step);
    RecordsStay(cfg, s, step);
    ClientsStay(cfg, s, step);
    ListsStay(cfg, s, step);
    RanksStay(cfg, s, step);
    SetsStay(cfg, s, step);
    WorkersStay(cfg, s, step);
  }

  lemma EmptyStore(db: Db)
    requires db == EMPTY
    ensures forall k :: db.List(k) == [] && db.Ranks(k) == [] && db.Members(k) == {}
    ensures db.tasks == map[]
  {
  }

  lemma InitiallyKept(cfg: Config, s: State)
    requires Init(cfg, s)
    ensures Kept(cfg, s)
  {
    EmptyStore(s.db);
    forall w | w in s.workers ensures WorkerRight(cfg, s, s.workers[w]) {
      assert s.workers[w] == Idle;
    }
  }

  lemma NextKept(cfg: Config, s: State, step: Step, s': State)
    requires Kept(cfg, s) && Next(cfg, s, step, s')
    ensures Kept(cfg, s')
  {
    StepKeeps(cfg, s, step);
  }

  /** The books are right in every state of every run. */
  lemma {:induction false} KeptThroughout(cfg: Config, run: seq<State>, steps: seq<Step>, n: nat)
    requires IsRun(cfg, run, steps) && n <= |steps|
    ensures Kept(cfg, run[n])
  {
    if n == 0 {
      InitiallyKept(cfg, run[0]);
    } else {
      KeptThroughout(cfg, run, steps, n - 1);
      RunStep(cfg, run, steps, n);
      NextKept(cfg, run[n - 1], steps[n - 1], run[n]);
    }
  }

  /** The states before and after step n - 1. */
  lemma StatesAt(cfg: Config, run: seq<State>, steps: seq<Step>, n: nat) returns (s: State, s': State)
    requires IsRun(cfg, run, steps) && 0 < n <= |steps|
    ensures s == run[n - 1] && s' == run[n] && Kept(cfg, s) && Next(cfg, s, steps[n - 1], s')
  {
    KeptThroughout(cfg, run, steps, n - 1);
    RunStep(cfg, run, steps, n);
    s, s' := run[n - 1], run[n];
  }

  lemma WorkerAt(cfg: Config, run: seq<State>, steps: seq<Step>, n: nat, w: WorkerId)
    requires IsRun(cfg, run, steps) && n <= |steps| && w in run[n].workers
    ensures WorkerRight(cfg, run[n], run[n].workers[w])
  {
    KeptThroughout(cfg, run, steps, n);
  }

  /** A dependent that a worker knows of is linked to the finished task and on record. */
  lemma KnownAt(cfg: Config, run: seq<State>, steps: seq<Step>, n: nat, w: WorkerId, d: Id)
    requires IsRun(cfg, run, steps) && n <= |steps| && w in run[n].workers && Knows(run[n].workers[w], d)
    ensures run[n].workers[w].done in cfg.Depends(d) && d in run[n].clients && Linking(run[n].clients[d]) && d in run[n].db.tasks
  {
    KeptThroughout(cfg, run, steps, n);
    assert WorkerRight(cfg, run[n], run[n].workers[w]);
    LinkedOnRecord(cfg, run[n], d, run[n].workers[w].done);
  }

  /** A client that has begun has stored the record. */
  lemma RecordAt(cfg: Config, run: seq<State>, steps: seq<Step>, n: nat, d: Id)
    requires IsRun(cfg, run, steps) && n <= |steps| && d in run[n].clients && !run[n].clients[d].Fresh?
    ensures d in run[n].db.tasks
  {
    KeptThroughout(cfg, run, steps, n);
  }

  lemma LinkedAt(cfg: Config, run: seq<State>, steps: seq<Step>, n: nat, x: Id, d: Id)
    requires IsRun(cfg, run, steps) && n <= |steps| && d in run[n].db.Members(TaskDepsKey(x))
    ensures x in cfg.Depends(d) && d in run[n].clients && Linking(run[n].clients[d])
  {
    KeptThroughout(cfg, run, steps, n);
    assert Links(cfg, run[n], d, x);
  }
}
