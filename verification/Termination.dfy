/**
 * A closed system does a bounded amount of work: in every run, whatever its tasks depend on,
 * every step that is not idle lowers a measure.
 */
module Termination {
  import opened Basics
  import opened Keys
  import opened SortedSets
  import opened Tasks
  import opened Store
  import opened Commands
  import opened Protocol
  import opened Bookkeeping
  import opened Measure

  // ---- prices ----

  /**
   * room: how many copies of tasks there can be at most; crowd: the number of workers; tasks: the
   * number of tasks.
   */
  datatype Tariff = Tariff(p: Prices, room: nat, crowd: nat, tasks: nat)

  /** A factor for an attempt that outweighs all copies, and a copy that outweighs all their attempts. */
  predicate Sound(t: Tariff) {
    && t.p.base == t.room + t.crowd + 2
    && t.p.copy == CYCLE * ((t.room + t.crowd + 1) * Power(t.p.base, t.p.most)) + 20
  }

  /** For one dependent in a loop: it may be pushed, or its record may change. */
  function LoopPrice(t: Tariff): nat { 3 * t.p.copy }

  /** For listing the dependents of a task. */
  function ListPrice(t: Tariff): nat { LoopPrice(t) * t.tasks }

  // ---- workers ----

  /** The worker has listed the dependents of y and not deleted the list yet. */
  predicate LoopsOver(w: Worker, y: Id) {
    Tail(w) == Some(y) && !w.ReleaseListing? && !w.FailListing?
  }

  /** The tasks whose dependents the worker could list and find some. */
  function Open(cfg: Config, db: Db, w: Worker): set<Id> {
    set y | y in cfg.tasks && db.Members(TaskDepsKey(y)) != {} && !LoopsOver(w, y)
  }

  function WorkerWeight(t: Tariff, tasks: map<Id, Record>, w: Worker): nat {
    match w
    case Idle => 0
    case CheckingPause(_) => 0
    case Popping(_) => 0
    case InHand(_, id) => Worth(t.p, RetryOf(tasks, id), 7)
    case Loading(id, _) => Worth(t.p, RetryOf(tasks, id), 6)
    case Running(task) => Worth(t.p, task.retryCnt, 5)
    case Unlisting(task, status) => ResultWeight(t, task, status) + 4
    case Saving(task, status) => ResultWeight(t, task, status) + 3
    case Rescheduling(task) => Worth(t.p, RetryOf(tasks, task.id), 10)
    case ReleaseListing(_) => 2
    case Dropping(_, todo) => |todo| * LoopPrice(t) + 1
    case Counting(_, _, todo) => |todo| * LoopPrice(t) + 2 * t.p.copy + 6
    case Fetching(_, _, todo) => |todo| * LoopPrice(t) + 2 * t.p.copy + 5
    case Pushing(_, _, todo, _) => |todo| * LoopPrice(t) + 2 * t.p.copy + 4
    case Clearing(_, _, todo) => |todo| * LoopPrice(t) + 3
    case FailListing(_, _) => 2
    case FailFetching(_, _, todo) => |todo| * LoopPrice(t) + 1
    case FailSaving(_, _, _, todo, _) => |todo| * LoopPrice(t) + 2 * t.p.copy + 6
    case FailPushing(_, _, _, todo) => |todo| * LoopPrice(t) + 5
    case FailClearing(_, _, _, todo) => |todo| * LoopPrice(t) + 4
  }

  /** A failed attempt that will be retried keeps what it was worth until it is stored. */
  function ResultWeight(t: Tariff, task: Task, status: Status): nat {
    t.p.copy + if status == Retry && task.retryCnt >= 1 then CYCLE * Chances(t.p, task.retryCnt - 1) else 0
  }

  function WorkerLoad(cfg: Config, t: Tariff, db: Db, w: Worker): nat {
    WorkerWeight(t, db.tasks, w) + |Open(cfg, db, w)| * ListPrice(t)
  }

  // ---- clients ----

  function ClientLoad(t: Tariff, task: Task, c: Client): nat {
    var n := |task.dependsOn|;
    match c
    case Fresh => n * (t.crowd * ListPrice(t) + 2) + 4 * t.p.copy
    case AddingPending(i) => (if i <= n then n - i else 0) + n * (t.crowd * ListPrice(t) + 1) + 2
    case AddingDependents(i) => (if i <= n then n - i else 0) * (t.crowd * ListPrice(t) + 1) + 1
    case CheckingKey => 2 * t.p.copy + 2
    case Routing => 2 * t.p.copy + 1
    case Delaying => 2 * t.p.copy + 1
    case Accepted => 0
    case Rejected => 0
  }

  /** The worker's next command is something other than a poll that finds nothing. */
  predicate Busy(db: Db, w: Worker, c: Choice) {
    match w
    case Idle => c.Poll? && db.PDequeue(c.queue).1.Got?
    case CheckingPause(_) => false
    case Popping(q) => db.List(QueueKey(q)) != []
    case _ => true
  }

  /** The step issues something other than a poll that finds nothing, a pause or a resume. */
  ghost predicate Productive(s: State, step: Step) {
    match step
    case ClientStep(_, _) => true
    case WorkerStep(w, c) => w in s.workers && Busy(s.db, s.workers[w], c)
    case RetryTick(q, now) => BatchCount(s.db.Ranks(RetryKey(q)), now, BATCH_SIZE) > 0
    case DelayedTick(q, now) => BatchCount(s.db.Ranks(DelayedKey(q)), now, BATCH_SIZE) > 0
    case _ => false
  }

  // ---- what prices suffice for ----

  /** What a change of a record costs at most: all copies are worth the attempts that the new record allows. */
  function Rewrite(t: Tariff, r: nat): nat {
    (t.room + t.crowd) * (CYCLE * Chances(t.p, r))
  }

  lemma PricesSuffice(t: Tariff, r: nat)
    requires Sound(t)
    ensures Rewrite(t, r) + CYCLE * Chances(t.p, 0) + 20 <= t.p.copy
    ensures Worth(t.p, r, 9) <= 2 * t.p.copy
    ensures Chances(t.p, r) >= 1
  {
    ChancesBound(t.p, r);
    var a, f, g := t.room + t.crowd, Chances(t.p, 0), Chances(t.p, r);
    Ordered(g, f, a);
    assert Chances(t.p, 0) == Power(t.p.base, t.p.most);
    Spread(a, f);
    Spread(a, g);
  }

  lemma Spread(a: nat, f: nat)
    ensures CYCLE * ((a + 1) * f) == a * (CYCLE * f) + CYCLE * f
    ensures a * f == f * a
    ensures a * (CYCLE * f) == CYCLE * (a * f)
  {
    assert (a + 1) * f == a * f + f;
  }

  /** A retry that is stored is worth so much less that all copies can start over from the new record. */
  lemma RetryPays(t: Tariff, r: nat)
    requires Sound(t) && 1 <= r <= t.p.most
    ensures CYCLE * Chances(t.p, r - 1) >= Rewrite(t, r) + CYCLE * Chances(t.p, r) + 11
  {
    ChancesFall(t.p, r - 1);
    ChancesBound(t.p, r);
    var a, v := t.room + t.crowd, Chances(t.p, r);
    Spread(a, v);
    Spread(a + 1, v);
  }

  // ---- what a worker's step costs ----

  /** What the step adds to the load of every other worker that has yet to load the changed record. */
  function Rise(t: Tariff, c: Command): nat {
    if c.HSet? then CYCLE * Chances(t.p, c.record.data.retryCnt) else 0
  }

  function CrowdRise(t: Tariff, c: Command): nat {
    if c.HSet? then t.crowd * Rise(t, c) else 0
  }

  /** The step of worker w lowers what its queues and it have to do by loss, but for gain. */
  ghost predicate Pays(cfg: Config, t: Tariff, db: Db, w: Worker, c: Choice, qs: seq<string>, loss: nat, gain: nat) {
    var command := WorkerCommand(cfg, w, c);
    Load(t.p, Do(db, command), qs) + WorkerWeight(t, Do(db, command).tasks, WorkerNext(cfg, db, w, c)) + CrowdRise(t, command) + loss
    <= Load(t.p, db, qs) + WorkerWeight(t, db.tasks, w) + gain
  }

  /** The queues that have anything on them are accounted for. */
  ghost predicate Covers(qs: seq<string>, db: Db) {
    && Apart(qs) && RanksValid(db)
    && forall q :: q !in qs ==> QueueSize(db, q) == 0
  }

  lemma DequeuePays(cfg: Config, t: Tariff, db: Db, w: Worker, c: Choice, qs: seq<string>)
    requires Covers(qs, db) && w.Idle? && c.Poll?
    ensures Pays(cfg, t, db, w, c, qs, One(db.PDequeue(c.queue).1.Got?), 0)
  {
    if db.PDequeue(c.queue).1.Got? {
      assert QueueSize(db, c.queue) > 0;
      DequeueLoad(t.p, db, qs, c.queue);
    }
  }

  lemma PopPays(cfg: Config, t: Tariff, db: Db, w: Worker, c: Choice, qs: seq<string>)
    requires Covers(qs, db) && (w.CheckingPause? || w.Popping?)
    ensures Pays(cfg, t, db, w, c, qs, One(w.Popping? && db.List(QueueKey(w.queue)) != []), 0)
  {
    if w.Popping? && db.List(QueueKey(w.queue)) != [] {
      assert QueueSize(db, w.queue) > 0;
      PopLoad(t.p, db, qs, w.queue);
    }
  }

  lemma HoldPays(cfg: Config, t: Tariff, db: Db, w: Worker, c: Choice, qs: seq<string>)
    requires Fits(db, w, c) && (w.InHand? || w.Loading? || w.Running? || w.Unlisting?)
    ensures Pays(cfg, t, db, w, c, qs, 1, 0)
  {
    LoadUnchanged(t.p, db, Do(db, WorkerCommand(cfg, w, c)), qs);
  }

  lemma ReschedulePays(cfg: Config, t: Tariff, db: Db, w: Worker, c: Choice, qs: seq<string>)
    requires Apart(qs) && Fits(db, w, c) && w.Rescheduling?
    ensures Pays(cfg, t, db, w, c, qs, 1, 0)
  {
    if RetryDelay(w.task).Some? {
      AddLoad(t.p, db, qs, RetryKey(w.task.queue), w.task.id, c.now + RetryDelay(w.task).value);
    }
  }

  lemma RewriteSplit(t: Tariff, size: nat, r: nat)
    requires size <= t.room
    ensures size * (CYCLE * Chances(t.p, r)) + t.crowd * (CYCLE * Chances(t.p, r)) <= Rewrite(t, r)
  {
    Ordered(size, t.room, CYCLE * Chances(t.p, r));
    FourTimes(t.room, t.crowd, 0, 0, CYCLE * Chances(t.p, r));
  }

  lemma SavePays(cfg: Config, t: Tariff, db: Db, w: Worker, c: Choice, qs: seq<string>)
    requires Sound(t) && Size(db, qs) <= t.room && Fits(db, w, c) && w.Saving?
    requires w.status == Retry ==> 1 <= w.task.retryCnt <= t.p.most
    ensures Pays(cfg, t, db, w, c, qs, 1, 0)
  {
    var r := w.task.retryCnt;
    LoadRewritten(t.p, db, qs, w.task.id, Record(w.task.(status := w.status), w.task.queue));
    RewriteSplit(t, Size(db, qs), r);
    PricesSuffice(t, r);
    if w.status == Retry { RetryPays(t, r); }
  }

  lemma LoopPays(cfg: Config, t: Tariff, db: Db, w: Worker, c: Choice, qs: seq<string>)
    requires Sound(t) && Apart(qs) && Size(db, qs) <= t.room && Tail(w).Some? && !w.ReleaseListing? && !w.FailListing?
    ensures Pays(cfg, t, db, w, c, qs, 1, 0)
  {
    if w.Pushing? {
      PushPays(cfg, t, db, w, c, qs);
    } else if w.FailSaving? {
      CondemnPays(cfg, t, db, w, c, qs);
    } else {
      if (w.Dropping? || w.FailFetching?) && w.todo != [] { NextPaid(t, |w.todo|); }
      StagePays(cfg, t, db, w, c, qs);
    }
  }

  lemma PushPays(cfg: Config, t: Tariff, db: Db, w: Worker, c: Choice, qs: seq<string>)
    requires Sound(t) && Apart(qs) && w.Pushing?
    ensures Pays(cfg, t, db, w, c, qs, 1, 0)
  {
    PushLoad(t.p, db, qs, w.queue, w.dep);
    PricesSuffice(t, RetryOf(db.tasks, w.dep));
  }

  lemma CondemnPays(cfg: Config, t: Tariff, db: Db, w: Worker, c: Choice, qs: seq<string>)
    requires Sound(t) && Size(db, qs) <= t.room && w.FailSaving?
    ensures Pays(cfg, t, db, w, c, qs, 1, 0)
  {
    LoadRewritten(t.p, db, qs, w.dep, Record(w.data.(status := Dead), w.queue));
    RewriteSplit(t, Size(db, qs), w.data.retryCnt);
    PricesSuffice(t, w.data.retryCnt);
  }

  lemma StagePays(cfg: Config, t: Tariff, db: Db, w: Worker, c: Choice, qs: seq<string>)
    requires Sound(t) && Tail(w).Some? && !w.ReleaseListing? && !w.FailListing? && !w.Pushing? && !w.FailSaving?
    requires (w.Dropping? || w.FailFetching?) && w.todo != [] ==>
      |w.todo| * LoopPrice(t) == (|w.todo| - 1) * LoopPrice(t) + 3 * t.p.copy
    ensures Pays(cfg, t, db, w, c, qs, 1, 0)
  {
    StageSame(cfg, db, w, c);
    LoadUnchanged(t.p, db, Do(db, WorkerCommand(cfg, w, c)), qs);
    if Releasing(w) { ReleaseStage(cfg, t, db, w, c); } else { FailStage(cfg, t, db, w, c); }
  }

  lemma ReleaseStage(cfg: Config, t: Tariff, db: Db, w: Worker, c: Choice)
    requires Sound(t) && Releasing(w) && !w.ReleaseListing? && !w.Pushing?
    requires w.Dropping? && w.todo != [] ==> |w.todo| * LoopPrice(t) == (|w.todo| - 1) * LoopPrice(t) + 3 * t.p.copy
    ensures WorkerWeight(t, db.tasks, WorkerNext(cfg, db, w, c)) + 1 <= WorkerWeight(t, db.tasks, w)
  {
  }

  lemma FailStage(cfg: Config, t: Tariff, db: Db, w: Worker, c: Choice)
    requires Sound(t) && Failing(w) && !w.FailListing? && !w.FailSaving?
    requires w.FailFetching? && w.todo != [] ==> |w.todo| * LoopPrice(t) == (|w.todo| - 1) * LoopPrice(t) + 3 * t.p.copy
    ensures WorkerWeight(t, db.tasks, WorkerNext(cfg, db, w, c)) + 1 <= WorkerWeight(t, db.tasks, w)
  {
  }

  lemma StageSame(cfg: Config, db: Db, w: Worker, c: Choice)
    requires Tail(w).Some? && !w.ReleaseListing? && !w.FailListing? && !w.Pushing? && !w.FailSaving?
    ensures SameQueues(db, Do(db, WorkerCommand(cfg, w, c))) && !WorkerCommand(cfg, w, c).HSet?
  {
  }

  lemma NextPaid(t: Tariff, n: nat)
    requires n >= 1
    ensures n * LoopPrice(t) == (n - 1) * LoopPrice(t) + 3 * t.p.copy
  {
    MoreTimes(n - 1, LoopPrice(t));
  }

  lemma ListPays(cfg: Config, t: Tariff, db: Db, w: Worker, c: Choice, qs: seq<string>)
    requires Sound(t) && Apart(qs) && Fits(db, w, c) && (w.ReleaseListing? || w.FailListing?) && |c.members| <= t.tasks
    ensures Pays(cfg, t, db, w, c, qs, 1, if c.members == [] then 0 else ListPrice(t))
  {
    Ordered(|c.members|, t.tasks, LoopPrice(t));
    if cfg.atomicRelease && w.ReleaseListing? {
      ScriptPays(cfg, t, db, w, c, qs);
    } else {
      LoopStartPays(cfg, t, db, w, c, qs);
    }
  }

  lemma LoopStartPays(cfg: Config, t: Tariff, db: Db, w: Worker, c: Choice, qs: seq<string>)
    requires (w.FailListing? || (w.ReleaseListing? && !cfg.atomicRelease)) && c.Order? && |c.members| * LoopPrice(t) <= ListPrice(t)
    ensures Pays(cfg, t, db, w, c, qs, 1, if c.members == [] then 0 else ListPrice(t))
  {
  }

  lemma ScriptPays(cfg: Config, t: Tariff, db: Db, w: Worker, c: Choice, qs: seq<string>)
    requires Sound(t) && Apart(qs) && w.ReleaseListing? && cfg.atomicRelease && c.Order? && |c.members| * LoopPrice(t) <= ListPrice(t)
    ensures Pays(cfg, t, db, w, c, qs, 1, if c.members == [] then 0 else ListPrice(t))
  {
    PricesSuffice(t, 0);
    ReleaseLoad(t.p, db, qs, w.done, c.members);
    ScriptPaid(t, |c.members|);
  }

  lemma ScriptPaid(t: Tariff, n: nat)
    requires Worth(t.p, 0, 9) <= 2 * t.p.copy
    ensures n * Worth(t.p, 0, 8) <= n * LoopPrice(t)
  {
    Ordered(Worth(t.p, 0, 8), LoopPrice(t), n);
    assert n * Worth(t.p, 0, 8) == Worth(t.p, 0, 8) * n && n * LoopPrice(t) == LoopPrice(t) * n;
  }

  // ---- one step of a worker ----

  /** The tariff fits the system, and there is room for what is in the store. */
  ghost predicate Priced(cfg: Config, t: Tariff, db: Db, qs: seq<string>) {
    && Sound(t) && t.tasks == |cfg.tasks| && t.crowd == |cfg.workers|
    && (forall x :: x in cfg.tasks ==> cfg.tasks[x].maxRetry <= t.p.most)
    && Apart(qs) && (forall q :: q in qs <==> q in cfg.queues)
    && Size(db, qs) <= t.room
  }

  lemma KeptCovers(cfg: Config, s: State, qs: seq<string>)
    requires cfg.Valid() && ListsKept(cfg, s) && RanksKept(cfg, s) && Apart(qs) && forall q :: q in qs <==> q in cfg.queues
    ensures Covers(qs, s.db)
  {
    forall q | q !in qs ensures QueueSize(s.db, q) == 0 {
      ListCovered(cfg, s, q);
      RanksCovered(cfg, s, PriorityKey(q));
      RanksCovered(cfg, s, RetryKey(q));
      RanksCovered(cfg, s, DelayedKey(q));
    }
  }

  lemma ListCovered(cfg: Config, s: State, q: string)
    requires ListsKept(cfg, s)
    ensures s.db.List(QueueKey(q)) == [] || q in cfg.queues
  {
    var k := QueueKey(q);
    assert k.name == q;
    if s.db.List(k) != [] {
      assert ListKept(cfg, s.db, k, s.db.List(k)[0]);
    }
  }

  lemma RanksCovered(cfg: Config, s: State, k: Key)
    requires cfg.Valid() && RanksKept(cfg, s) && Scheduling(k)
    ensures s.db.Ranks(k) == [] || k.name in cfg.queues
  {
    var z := s.db.Ranks(k);
    if z != [] {
      assert Has(s.db.Ranks(k), z[0].id);
      assert RankKept(cfg, s.db, k, z[0].id);
    }
  }

  lemma {:induction false} NoDupSize(order: seq<Id>, ids: set<Id>)
    requires NoDup(order) && forall x :: x in order ==> x in ids
    ensures |order| <= |ids|
  {
    if order != [] {
      var last := order[|order| - 1];
      var rest := order[..|order| - 1];
      assert forall x :: x in rest ==> x in ids - {last};
      NoDupSize(rest, ids - {last});
      assert last in ids;
    }
  }

  lemma FewListed(cfg: Config, s: State, y: Id, order: seq<Id>)
    requires RecordsKept(cfg, s) && SetsKept(cfg, s) && Enumerates(order, s.db.Members(TaskDepsKey(y)))
    ensures |order| <= |cfg.tasks|
  {
    forall x | x in order ensures x in cfg.tasks.Keys { assert Links(cfg, s, x, y); }
    NoDupSize(order, cfg.tasks.Keys);
  }

  /** A worker that finds dependents when it lists them. */
  predicate Finds(w: Worker, c: Choice) {
    (w.ReleaseListing? || w.FailListing?) && c.Order? && c.members != []
  }

  lemma TailPays(cfg: Config, t: Tariff, s: State, w: Worker, c: Choice, qs: seq<string>)
    requires Kept(cfg, s) && Priced(cfg, t, s.db, qs) && Fits(s.db, w, c) && Tail(w).Some?
    ensures Pays(cfg, t, s.db, w, c, qs, One(Busy(s.db, w, c)), if Finds(w, c) then ListPrice(t) else 0)
  {
    if w.ReleaseListing? || w.FailListing? {
      FewListed(cfg, s, w.done, c.members);
      ListPays(cfg, t, s.db, w, c, qs);
    } else {
      LoopPays(cfg, t, s.db, w, c, qs);
    }
  }

  lemma HolderPays(cfg: Config, t: Tariff, s: State, w: Worker, c: Choice, qs: seq<string>)
    requires Priced(cfg, t, s.db, qs) && Fits(s.db, w, c) && HoldsRight(cfg, s, w) && Holds(w).Some?
    ensures Pays(cfg, t, s.db, w, c, qs, One(Busy(s.db, w, c)), if Finds(w, c) then ListPrice(t) else 0)
  {
    if w.Saving? {
      SavePays(cfg, t, s.db, w, c, qs);
    } else if w.Rescheduling? {
      ReschedulePays(cfg, t, s.db, w, c, qs);
    } else {
      HoldPays(cfg, t, s.db, w, c, qs);
    }
  }

  lemma WorkerPays(cfg: Config, t: Tariff, s: State, w: Worker, c: Choice, qs: seq<string>)
    requires Kept(cfg, s) && Priced(cfg, t, s.db, qs) && Fits(s.db, w, c) && HoldsRight(cfg, s, w)
    ensures Pays(cfg, t, s.db, w, c, qs, One(Busy(s.db, w, c)), if Finds(w, c) then ListPrice(t) else 0)
  {
    if Tail(w).Some? {
      TailPays(cfg, t, s, w, c, qs);
    } else if Holds(w).Some? {
      HolderPays(cfg, t, s, w, c, qs);
    } else {
      KeptCovers(cfg, s, qs);
      if w.Idle? { DequeuePays(cfg, t, s.db, w, c, qs); } else { PopPays(cfg, t, s.db, w, c, qs); }
    }
  }

  // ---- lists of dependents ----

  lemma OpenShrinks(cfg: Config, s: State, step: Step, v: WorkerId)
    requires step.WorkerStep? && Enabled(cfg, s, step) && v in s.workers
    ensures Open(cfg, After(cfg, s, step).db, After(cfg, s, step).workers[v]) <= Open(cfg, s.db, s.workers[v])
  {
    EnabledOrdered(cfg, s, step);
    forall y ensures After(cfg, s, step).db.Members(TaskDepsKey(y)) <= s.db.Members(TaskDepsKey(y)) {
      SetFrame(s.db, CommandOf(cfg, s, step), TaskDepsKey(y));
    }
    if v == step.w { LoopEnds(cfg, s, step); }
  }

  /** A worker's loop over the dependents of y ends with their list deleted. */
  lemma LoopEnds(cfg: Config, s: State, step: Step)
    requires step.WorkerStep? && Enabled(cfg, s, step)
    ensures forall y :: LoopsOver(s.workers[step.w], y) ==>
      LoopsOver(After(cfg, s, step).workers[step.w], y) || After(cfg, s, step).db.Members(TaskDepsKey(y)) == {}
  {
    var w := s.workers[step.w];
    if Tail(w).Some? { SetFrame(s.db, CommandOf(cfg, s, step), TaskDepsKey(w.done)); }
  }

  lemma ListerCloses(cfg: Config, s: State, step: Step)
    requires step.WorkerStep? && Enabled(cfg, s, step) && Finds(s.workers[step.w], step.choice)
    requires s.workers[step.w].done in cfg.tasks
    ensures s.workers[step.w].done in Open(cfg, s.db, s.workers[step.w])
    ensures s.workers[step.w].done !in Open(cfg, After(cfg, s, step).db, After(cfg, s, step).workers[step.w])
  {
    var w := s.workers[step.w];
    EnabledOrdered(cfg, s, step);
    SetFrame(s.db, CommandOf(cfg, s, step), TaskDepsKey(w.done));
    assert step.choice.members[0] in s.db.Members(TaskDepsKey(w.done));
  }

  // ---- the whole system ----

  /** Lists of all task ids, workers and queues, each named once. */
  ghost predicate Roster(cfg: Config, ids: seq<Id>, ws: seq<WorkerId>, qs: seq<string>) {
    && NoDup(ids) && (forall x :: x in ids <==> x in cfg.tasks)
    && (forall i, j :: 0 <= i < j < |ws| ==> ws[i] != ws[j]) && (forall w :: w in ws <==> w in cfg.workers)
    && Apart(qs) && (forall q :: q in qs <==> q in cfg.queues)
  }

  function WorkerLoads(cfg: Config, t: Tariff, s: State, ws: seq<WorkerId>): seq<nat> {
    seq(|ws|, i requires 0 <= i < |ws| => if ws[i] in s.workers then WorkerLoad(cfg, t, s.db, s.workers[ws[i]]) else 0)
  }

  function ClientLoads(cfg: Config, t: Tariff, s: State, ids: seq<Id>): seq<nat> {
    seq(|ids|, i requires 0 <= i < |ids| =>
      if ids[i] in cfg.tasks && ids[i] in s.clients then ClientLoad(t, cfg.tasks[ids[i]], s.clients[ids[i]]) else 0)
  }

  /** All that is left to do. */
  function Work(cfg: Config, t: Tariff, s: State, ids: seq<Id>, ws: seq<WorkerId>, qs: seq<string>): nat {
    Load(t.p, s.db, qs) + Sum(WorkerLoads(cfg, t, s, ws)) + Sum(ClientLoads(cfg, t, s, ids))
  }

  /** A worker that does not take the step. */
  lemma OtherWorker(cfg: Config, t: Tariff, s: State, step: Step, v: WorkerId)
    requires step.WorkerStep? && Enabled(cfg, s, step) && v in s.workers && v != step.w
    ensures WorkerLoad(cfg, t, After(cfg, s, step).db, After(cfg, s, step).workers[v])
         <= WorkerLoad(cfg, t, s.db, s.workers[v]) + Rise(t, CommandOf(cfg, s, step))
  {
    var s' := After(cfg, s, step);
    OpenShrinks(cfg, s, step, v);
    SubsetSize(Open(cfg, s'.db, s.workers[v]), Open(cfg, s.db, s.workers[v]));
    Ordered(|Open(cfg, s'.db, s.workers[v])|, |Open(cfg, s.db, s.workers[v])|, ListPrice(t));
    EnabledOrdered(cfg, s, step);
    TaskFrame(s.db, CommandOf(cfg, s, step));
    WeightRises(t, s.db.tasks, CommandOf(cfg, s, step), s'.db.tasks, s.workers[v]);
  }

  lemma WeightRises(t: Tariff, tasks: map<Id, Record>, c: Command, tasks': map<Id, Record>, w: Worker)
    requires tasks' == if c.HSet? then tasks[c.id := c.record] else tasks
    ensures WorkerWeight(t, tasks', w) <= WorkerWeight(t, tasks, w) + Rise(t, c)
  {
  }

  /** The worker that takes the step, and the lists of dependents that it may close. */
  lemma OpenPays(cfg: Config, t: Tariff, s: State, step: Step)
    requires step.WorkerStep? && Enabled(cfg, s, step) && (Tail(s.workers[step.w]).Some? ==> s.workers[step.w].done in cfg.tasks)
    ensures |Open(cfg, After(cfg, s, step).db, After(cfg, s, step).workers[step.w])| * ListPrice(t) +
            (if Finds(s.workers[step.w], step.choice) then ListPrice(t) else 0)
         <= |Open(cfg, s.db, s.workers[step.w])| * ListPrice(t)
  {
    var before, after := Open(cfg, s.db, s.workers[step.w]), Open(cfg, After(cfg, s, step).db, After(cfg, s, step).workers[step.w]);
    OpenShrinks(cfg, s, step, step.w);
    if Finds(s.workers[step.w], step.choice) {
      ListerCloses(cfg, s, step);
      SubsetSize(after, before - {s.workers[step.w].done});
      Ordered(|after| + 1, |before|, ListPrice(t));
      MoreTimes(|after|, ListPrice(t));
    } else {
      SubsetSize(after, before);
      Ordered(|after|, |before|, ListPrice(t));
    }
  }

  lemma WorkerStepWorks(cfg: Config, t: Tariff, s: State, step: Step, ids: seq<Id>, ws: seq<WorkerId>, qs: seq<string>)
    requires Kept(cfg, s) && Roster(cfg, ids, ws, qs) && |ws| == t.crowd && Priced(cfg, t, s.db, qs)
    requires step.WorkerStep? && Enabled(cfg, s, step)
    ensures Work(cfg, t, After(cfg, s, step), ids, ws, qs) + One(Productive(s, step)) <= Work(cfg, t, s, ids, ws, qs)
  {
    var s', w := After(cfg, s, step), s.workers[step.w];
    assert WorkerRight(cfg, s, w);
    WorkerPays(cfg, t, s, w, step.choice, qs);
    OpenPays(cfg, t, s, step);
    WorkersMove(cfg, t, s, step, ws);
    assert s'.clients == s.clients;
    assert ClientLoads(cfg, t, s', ids) == ClientLoads(cfg, t, s, ids);
  }

  lemma WorkersMove(cfg: Config, t: Tariff, s: State, step: Step, ws: seq<WorkerId>)
    requires step.WorkerStep? && Enabled(cfg, s, step) && step.w in ws && |ws| == t.crowd
    requires forall i, j :: 0 <= i < j < |ws| ==> ws[i] != ws[j]
    ensures Sum(WorkerLoads(cfg, t, After(cfg, s, step), ws)) + WorkerLoad(cfg, t, s.db, s.workers[step.w])
         <= Sum(WorkerLoads(cfg, t, s, ws)) + WorkerLoad(cfg, t, After(cfg, s, step).db, After(cfg, s, step).workers[step.w])
            + CrowdRise(t, CommandOf(cfg, s, step))
  {
    var s' := After(cfg, s, step);
    var i :| 0 <= i < |ws| && ws[i] == step.w;
    var rise := Rise(t, CommandOf(cfg, s, step));
    var before, after := WorkerLoads(cfg, t, s, ws), WorkerLoads(cfg, t, s', ws);
    forall j | 0 <= j < |ws| && j != i ensures after[j] <= before[j] + rise {
      if ws[j] in s.workers { OtherWorker(cfg, t, s, step, ws[j]); }
    }
    SumMoves(after, before, i, rise);
  }

  // ---- clients, the scheduler, pausing ----

  lemma LoadsSame(cfg: Config, t: Tariff, s: State, s': State, ids: seq<Id>, ws: seq<WorkerId>)
    requires s'.db.sets == s.db.sets && s'.db.tasks == s.db.tasks && s'.workers == s.workers && s'.clients == s.clients
    ensures WorkerLoads(cfg, t, s', ws) == WorkerLoads(cfg, t, s, ws) && ClientLoads(cfg, t, s', ids) == ClientLoads(cfg, t, s, ids)
  {
    assert forall k :: s'.db.Members(k) == s.db.Members(k);
    forall w: Worker ensures Open(cfg, s'.db, w) == Open(cfg, s.db, w) {
    }
  }

  lemma TickPays(cfg: Config, t: Tariff, s: State, k: Key, now: int, qs: seq<string>)
    requires cfg.Valid() && RanksKept(cfg, s) && Apart(qs) && (forall q :: q in qs <==> q in cfg.queues) && (k.RetryKey? || k.DelayedKey?)
    ensures Load(t.p, s.db.MoveDue(k, QueueKey(k.name), now, BATCH_SIZE), qs) + BatchCount(s.db.Ranks(k), now, BATCH_SIZE) <= Load(t.p, s.db, qs)
  {
    RanksCovered(cfg, s, k);
    if k.name in qs {
      TickLoad(t.p, s.db, qs, k, now);
    } else {
      LoadUnchanged(t.p, s.db, s.db.MoveDue(k, QueueKey(k.name), now, BATCH_SIZE), qs);
    }
  }

  lemma TickLoads(cfg: Config, t: Tariff, s: State, step: Step, qs: seq<string>)
    requires cfg.Valid() && RanksKept(cfg, s) && Apart(qs) && (forall q :: q in qs <==> q in cfg.queues)
    requires !step.WorkerStep? && !step.ClientStep?
    ensures Load(t.p, After(cfg, s, step).db, qs) + One(Productive(s, step)) <= Load(t.p, s.db, qs)
  {
    if step.RetryTick? || step.DelayedTick? {
      var k := TickSet(cfg, s, step);
      TickPays(cfg, t, s, k, step.now, qs);
    } else {
      PauseSame(cfg, s, step);
      LoadUnchanged(t.p, s.db, After(cfg, s, step).db, qs);
    }
  }

  /** The sorted set that a tick looks at. */
  lemma TickSet(cfg: Config, s: State, step: Step) returns (k: Key)
    requires step.RetryTick? || step.DelayedTick?
    ensures k.RetryKey? || k.DelayedKey?
    ensures After(cfg, s, step).db == s.db.MoveDue(k, QueueKey(k.name), step.now, BATCH_SIZE)
    ensures Productive(s, step) <==> BatchCount(s.db.Ranks(k), step.now, BATCH_SIZE) > 0
  {
    k := if step.RetryTick? then RetryKey(step.queue) else DelayedKey(step.queue);
  }

  lemma PauseSame(cfg: Config, s: State, step: Step)
    requires step.PauseQueue? || step.ResumeQueue?
    ensures SameQueues(s.db, After(cfg, s, step).db)
  {
  }

  lemma TickSame(cfg: Config, s: State, step: Step)
    requires !step.WorkerStep? && !step.ClientStep?
    ensures var s' := After(cfg, s, step);
            s'.db.sets == s.db.sets && s'.db.tasks == s.db.tasks && s'.workers == s.workers && s'.clients == s.clients
  {
  }

  lemma TickWorks(cfg: Config, t: Tariff, s: State, step: Step, ids: seq<Id>, ws: seq<WorkerId>, qs: seq<string>)
    requires Kept(cfg, s) && Roster(cfg, ids, ws, qs) && !step.WorkerStep? && !step.ClientStep?
    ensures Work(cfg, t, After(cfg, s, step), ids, ws, qs) + One(Productive(s, step)) <= Work(cfg, t, s, ids, ws, qs)
  {
    TickSame(cfg, s, step);
    LoadsSame(cfg, t, s, After(cfg, s, step), ids, ws);
    TickLoads(cfg, t, s, step, qs);
  }

  /** What a client's command adds to what is in the store and in the workers' hands, for each worker and in all. */
  function ClientRise(t: Tariff, c: Command): nat {
    if c.HSet? then Rise(t, c)
    else if c.SAdd? && c.k.TaskDepsKey? then ListPrice(t)
    else 0
  }

  function ClientCrowdRise(t: Tariff, c: Command): nat {
    if c.HSet? || (c.SAdd? && c.k.TaskDepsKey?) then t.crowd * ClientRise(t, c) else 0
  }

  lemma StillEmpty(cfg: Config, s: State, step: Step, y: Id)
    requires step.ClientStep? && Enabled(cfg, s, step) && s.db.Members(TaskDepsKey(y)) == {}
    requires !(CommandOf(cfg, s, step).SAdd? && CommandOf(cfg, s, step).k == TaskDepsKey(y))
    ensures After(cfg, s, step).db.Members(TaskDepsKey(y)) == {}
  {
    EnabledOrdered(cfg, s, step);
    SetFrame(s.db, CommandOf(cfg, s, step), TaskDepsKey(y));
  }

  lemma OpenGrows(cfg: Config, t: Tariff, s: State, step: Step, w: Worker)
    requires step.ClientStep? && Enabled(cfg, s, step)
    ensures |Open(cfg, After(cfg, s, step).db, w)| <= |Open(cfg, s.db, w)| + One(CommandOf(cfg, s, step).SAdd? && CommandOf(cfg, s, step).k.TaskDepsKey?)
  {
    var c, db' := CommandOf(cfg, s, step), After(cfg, s, step).db;
    var more := if c.SAdd? && c.k.TaskDepsKey? then {c.k.name} else {};
    EnabledOrdered(cfg, s, step);
    forall y | y in Open(cfg, db', w) ensures y in Open(cfg, s.db, w) + more {
      if s.db.Members(TaskDepsKey(y)) == {} && y !in more { StillEmpty(cfg, s, step, y); }
    }
    SubsetSize(Open(cfg, db', w), Open(cfg, s.db, w) + more);
  }

  lemma WorkerSees(cfg: Config, t: Tariff, s: State, step: Step, w: Worker)
    requires step.ClientStep? && Enabled(cfg, s, step)
    ensures WorkerLoad(cfg, t, After(cfg, s, step).db, w) <= WorkerLoad(cfg, t, s.db, w) + ClientRise(t, CommandOf(cfg, s, step))
  {
    var c, db' := CommandOf(cfg, s, step), After(cfg, s, step).db;
    OpenGrows(cfg, t, s, step, w);
    EnabledOrdered(cfg, s, step);
    TaskFrame(s.db, c);
    WeightRises(t, s.db.tasks, c, db'.tasks, w);
    if c.SAdd? && c.k.TaskDepsKey? {
      Ordered(|Open(cfg, db', w)|, |Open(cfg, s.db, w)| + 1, ListPrice(t));
      MoreTimes(|Open(cfg, s.db, w)|, ListPrice(t));
    } else {
      Ordered(|Open(cfg, db', w)|, |Open(cfg, s.db, w)|, ListPrice(t));
    }
  }

  lemma WorkersSee(cfg: Config, t: Tariff, s: State, step: Step, ws: seq<WorkerId>)
    requires step.ClientStep? && Enabled(cfg, s, step) && |ws| == t.crowd
    ensures Sum(WorkerLoads(cfg, t, After(cfg, s, step), ws)) <= Sum(WorkerLoads(cfg, t, s, ws)) + ClientCrowdRise(t, CommandOf(cfg, s, step))
  {
    var before, after := WorkerLoads(cfg, t, s, ws), WorkerLoads(cfg, t, After(cfg, s, step), ws);
    var rise := ClientRise(t, CommandOf(cfg, s, step));
    forall j | 0 <= j < |ws| ensures after[j] <= before[j] + rise {
      if ws[j] in s.workers { WorkerSees(cfg, t, s, step, s.workers[ws[j]]); }
    }
    SumRises(after, before, rise);
  }

  /** A client's step is paid for by what it has left to do. */
  lemma ClientPays(cfg: Config, t: Tariff, db: Db, task: Task, c: Client, now: int, qs: seq<string>)
    requires Sound(t) && Apart(qs) && Size(db, qs) <= t.room && !c.Accepted? && !c.Rejected?
    ensures var command := ClientCommand(task, c, now);
            Load(t.p, Do(db, command), qs) + ClientCrowdRise(t, command) + ClientLoad(t, task, ClientNext(cfg, db, task, c)) + 1
            <= Load(t.p, db, qs) + ClientLoad(t, task, c)
  {
    match c
    case Fresh => SubmitPays(cfg, t, db, task, now, qs);
    case AddingPending(i) => PendingPays(cfg, t, db, task, i, qs);
    case AddingDependents(i) => DependentsPays(cfg, t, db, task, i, qs);
    case CheckingKey => CheckPays(cfg, t, db, task, now, qs);
    case Routing => RoutePays(t, db, task, now, qs);
    case Delaying => DelayPays(t, db, task, now, qs);
  }

  lemma CheckPays(cfg: Config, t: Tariff, db: Db, task: Task, now: int, qs: seq<string>)
    ensures var command := ClientCommand(task, CheckingKey, now);
            Load(t.p, Do(db, command), qs) <= Load(t.p, db, qs) && ClientCrowdRise(t, command) == 0
    ensures ClientLoad(t, task, ClientNext(cfg, db, task, CheckingKey)) + 1 <= ClientLoad(t, task, CheckingKey)
  {
    LoadUnchanged(t.p, db, Do(db, ClientCommand(task, CheckingKey, now)), qs);
  }

  lemma DelayPays(t: Tariff, db: Db, task: Task, now: int, qs: seq<string>)
    requires Sound(t) && Apart(qs)
    ensures Load(t.p, Do(db, ClientCommand(task, Delaying, now)), qs) <= Load(t.p, db, qs) + 2 * t.p.copy
  {
    AddLoad(t.p, db, qs, DelayedKey(task.queue), task.id, now);
    PricesSuffice(t, RetryOf(db.tasks, task.id));
  }

  lemma SubmitPays(cfg: Config, t: Tariff, db: Db, task: Task, now: int, qs: seq<string>)
    requires Sound(t) && Size(db, qs) <= t.room
    ensures var command := ClientCommand(task, Fresh, now);
            Load(t.p, Do(db, command), qs) + ClientCrowdRise(t, command) + t.p.copy <= Load(t.p, db, qs) + 2 * t.p.copy
    ensures ClientLoad(t, task, Submitted(cfg, task)) + t.p.copy + 1 <= ClientLoad(t, task, Fresh)
  {
    LoadRewritten(t.p, db, qs, task.id, Record(task, task.queue));
    RewriteSplit(t, Size(db, qs), task.retryCnt);
    PricesSuffice(t, task.retryCnt);
    SubmittedLoad(cfg, t, task);
  }

  lemma SubmittedLoad(cfg: Config, t: Tariff, task: Task)
    requires t.p.copy >= 20
    ensures ClientLoad(t, task, Submitted(cfg, task)) + t.p.copy + 1 <= ClientLoad(t, task, Fresh)
  {
    Distribute(|task.dependsOn|, t.crowd * ListPrice(t));
  }

  lemma Distribute(n: nat, price: nat)
    ensures n * (price + 2) == n * (price + 1) + n && n * (price + 1) >= n
  {
    assert n * (price + 1) == n * price + n;
  }

  lemma PendingPays(cfg: Config, t: Tariff, db: Db, task: Task, i: nat, qs: seq<string>)
    ensures var c := AddingPending(i); var command := ClientCommand(task, c, 0);
            Load(t.p, Do(db, command), qs) + ClientLoad(t, task, ClientNext(cfg, db, task, c)) + 1 <= Load(t.p, db, qs) + ClientLoad(t, task, c)
    ensures ClientCrowdRise(t, ClientCommand(task, AddingPending(i), 0)) == 0
  {
    LoadUnchanged(t.p, db, Do(db, ClientCommand(task, AddingPending(i), 0)), qs);
  }

  lemma DependentsPays(cfg: Config, t: Tariff, db: Db, task: Task, i: nat, qs: seq<string>)
    ensures var c := AddingDependents(i); var command := ClientCommand(task, c, 0);
            Load(t.p, Do(db, command), qs) + ClientCrowdRise(t, command) + ClientLoad(t, task, ClientNext(cfg, db, task, c)) + 1
            <= Load(t.p, db, qs) + ClientLoad(t, task, c)
  {
    LoadUnchanged(t.p, db, Do(db, ClientCommand(task, AddingDependents(i), 0)), qs);
    if i < |task.dependsOn| { MoreTimes(|task.dependsOn| - i - 1, t.crowd * ListPrice(t) + 1); }
  }

  lemma RoutePays(t: Tariff, db: Db, task: Task, now: int, qs: seq<string>)
    requires Sound(t) && Apart(qs)
    ensures Load(t.p, Do(db, RouteCommand(task, now)), qs) <= Load(t.p, db, qs) + 2 * t.p.copy
  {
    var c := RouteCommand(task, now);
    PricesSuffice(t, RetryOf(db.tasks, task.id));
    if c.RPush? { PushLoad(t.p, db, qs, task.queue, task.id); } else { AddLoad(t.p, db, qs, c.k, c.id, c.score); }
  }

  lemma ClientStepWorks(cfg: Config, t: Tariff, s: State, step: Step, ids: seq<Id>, ws: seq<WorkerId>, qs: seq<string>)
    requires Kept(cfg, s) && Roster(cfg, ids, ws, qs) && |ws| == t.crowd && Priced(cfg, t, s.db, qs)
    requires step.ClientStep? && Enabled(cfg, s, step)
    ensures Work(cfg, t, After(cfg, s, step), ids, ws, qs) + 1 <= Work(cfg, t, s, ids, ws, qs)
  {
    var task, c := cfg.tasks[step.id], s.clients[step.id];
    ClientPays(cfg, t, s.db, task, c, step.now, qs);
    WorkersSee(cfg, t, s, step, ws);
    ClientsMove(cfg, t, s, step, ids);
  }

  lemma ClientsMove(cfg: Config, t: Tariff, s: State, step: Step, ids: seq<Id>)
    requires cfg.Valid() && step.ClientStep? && Enabled(cfg, s, step) && step.id in ids && NoDup(ids)
    ensures Sum(ClientLoads(cfg, t, After(cfg, s, step), ids)) + ClientLoad(t, cfg.tasks[step.id], s.clients[step.id])
         <= Sum(ClientLoads(cfg, t, s, ids)) + ClientLoad(t, cfg.tasks[step.id], After(cfg, s, step).clients[step.id])
  {
    var i :| 0 <= i < |ids| && ids[i] == step.id;
    SumMoves(ClientLoads(cfg, t, After(cfg, s, step), ids), ClientLoads(cfg, t, s, ids), i, 0);
  }

  /** Main step: no step adds work, and every productive step takes some away. */
  lemma StepWorks(cfg: Config, t: Tariff, s: State, step: Step, ids: seq<Id>, ws: seq<WorkerId>, qs: seq<string>)
    requires Kept(cfg, s) && Roster(cfg, ids, ws, qs) && |ws| == t.crowd && Priced(cfg, t, s.db, qs) && Enabled(cfg, s, step)
    ensures Work(cfg, t, After(cfg, s, step), ids, ws, qs) + One(Productive(s, step)) <= Work(cfg, t, s, ids, ws, qs)
  {
    if step.WorkerStep? {
      WorkerStepWorks(cfg, t, s, step, ids, ws, qs);
    } else if step.ClientStep? {
      ClientStepWorks(cfg, t, s, step, ids, ws, qs);
    } else {
      TickWorks(cfg, t, s, step, ids, ws, qs);
    }
  }

  // ---- whole runs ----

  /** How many of the first n steps were productive. */
  ghost function ProductiveSteps(run: seq<State>, steps: seq<Step>, n: nat): nat
    requires n <= |steps| < |run|
  {
    if n == 0 then 0 else ProductiveSteps(run, steps, n - 1) + One(Productive(run[n - 1], steps[n - 1]))
  }

  /** How many copies a task and its registrations can lead to at most, as the prices count them. */
  function Share(task: Task, crowd: nat, tasks: nat): nat {
    |task.dependsOn| * (3 * (crowd * tasks) + 1) + 4
  }

  function Shares(cfg: Config, ids: seq<Id>, crowd: nat): seq<nat> {
    seq(|ids|, i requires 0 <= i < |ids| => if ids[i] in cfg.tasks then Share(cfg.tasks[ids[i]], crowd, |cfg.tasks|) else 0)
  }

  function Retries(cfg: Config, ids: seq<Id>): seq<nat> {
    seq(|ids|, i requires 0 <= i < |ids| => if ids[i] in cfg.tasks then cfg.tasks[ids[i]].maxRetry else 0)
  }

  function TariffOf(cfg: Config, ids: seq<Id>, ws: seq<WorkerId>): (t: Tariff)
    ensures Sound(t) && t.crowd == |ws| && t.tasks == |cfg.tasks|
  {
    var crowd, room, most := |ws|, Sum(Shares(cfg, ids, |ws|)), Sum(Retries(cfg, ids));
    var base := room + crowd + 2;
    Tariff(Prices(CYCLE * ((room + crowd + 1) * Power(base, most)) + 20, base, most), room, crowd, |cfg.tasks|)
  }

  /** How many productive steps a run can have at most. */
  function Budget(cfg: Config, ids: seq<Id>, ws: seq<WorkerId>): nat {
    TariffOf(cfg, ids, ws).p.copy * TariffOf(cfg, ids, ws).room
  }

  /** At first all work is with the clients, and each has no more than its share. */
  lemma FreshShare(t: Tariff, task: Task)
    requires t.p.copy >= 20
    ensures ClientLoad(t, task, Fresh) <= t.p.copy * Share(task, t.crowd, t.tasks)
  {
    var n, g, m := |task.dependsOn|, t.p.copy, t.crowd * t.tasks;
    Regroup(t.crowd, g, t.tasks);
    assert t.crowd * ListPrice(t) == 3 * (g * m);
    assert g * (3 * m + 1) == 3 * (g * m) + g;
    Ordered(3 * (g * m) + 2, g * (3 * m + 1), n);
    assert g * (n * (3 * m + 1) + 4) == n * (g * (3 * m + 1)) + 4 * g by { Regroup(n, g, 3 * m + 1); }
    assert n * (3 * (g * m) + 2) == (3 * (g * m) + 2) * n && n * (g * (3 * m + 1)) == (g * (3 * m + 1)) * n;
  }

  lemma Regroup(a: nat, g: nat, b: nat)
    ensures a * (3 * g * b) == 3 * (g * (a * b)) && g * (a * b) == a * (g * b)
    ensures g * (a * b + 4) == g * (a * b) + 4 * g
  {
    assert a * (g * b) == (a * g) * b == (g * a) * b == g * (a * b);
    assert 3 * g * b == 3 * (g * b);
  }

  lemma {:induction false} SumScaled(a: seq<nat>, b: seq<nat>, g: nat)
    requires |a| == |b| && forall i :: 0 <= i < |a| ==> a[i] <= g * b[i]
    ensures Sum(a) <= g * Sum(b)
    decreases |a|
  {
    if a != [] {
      SumScaled(a[1..], b[1..], g);
      assert g * (b[0] + Sum(b[1..])) == g * b[0] + g * Sum(b[1..]);
    }
  }

  lemma {:induction false} SumZero(a: seq<nat>)
    requires forall i :: 0 <= i < |a| ==> a[i] == 0
    ensures Sum(a) == 0
    decreases |a|
  {
    if a != [] {
      SumZero(a[1..]);
    }
  }

  lemma {:induction false} SumAtLeast(a: seq<nat>, i: nat)
    requires i < |a|
    ensures a[i] <= Sum(a)
    decreases |a|
  {
    if i > 0 {
      SumAtLeast(a[1..], i - 1);
    }
  }

  lemma StartLoads(cfg: Config, t: Tariff, s: State, ws: seq<WorkerId>, qs: seq<string>)
    requires Init(cfg, s)
    ensures Load(t.p, s.db, qs) == 0 && Sum(WorkerLoads(cfg, t, s, ws)) == 0
  {
    EmptyStore(s.db);
    SumZero(Loads(t.p, s.db, qs));
    forall w | w in s.workers ensures WorkerLoad(cfg, t, s.db, s.workers[w]) == 0 {
      assert s.workers[w] == Idle;
      assert Open(cfg, s.db, Idle) == {};
    }
    SumZero(WorkerLoads(cfg, t, s, ws));
  }

  lemma StartClients(cfg: Config, t: Tariff, s: State, ids: seq<Id>)
    requires Init(cfg, s) && Sound(t) && t.tasks == |cfg.tasks|
    ensures Sum(ClientLoads(cfg, t, s, ids)) <= t.p.copy * Sum(Shares(cfg, ids, t.crowd))
  {
    var clients, shares := ClientLoads(cfg, t, s, ids), Shares(cfg, ids, t.crowd);
    forall i | 0 <= i < |ids| ensures clients[i] <= t.p.copy * shares[i] {
      if ids[i] in cfg.tasks { FreshShare(t, cfg.tasks[ids[i]]); }
    }
    SumScaled(clients, shares, t.p.copy);
  }

  lemma StartWork(cfg: Config, s: State, ids: seq<Id>, ws: seq<WorkerId>, qs: seq<string>)
    requires Init(cfg, s)
    ensures Work(cfg, TariffOf(cfg, ids, ws), s, ids, ws, qs) <= Budget(cfg, ids, ws)
  {
    StartLoads(cfg, TariffOf(cfg, ids, ws), s, ws, qs);
    StartClients(cfg, TariffOf(cfg, ids, ws), s, ids);
  }

  /** While the work left is within the budget, there is room for what is in the store. */
  lemma RoomEnough(cfg: Config, s: State, ids: seq<Id>, ws: seq<WorkerId>, qs: seq<string>)
    requires Roster(cfg, ids, ws, qs)
    requires Work(cfg, TariffOf(cfg, ids, ws), s, ids, ws, qs) <= Budget(cfg, ids, ws)
    ensures Priced(cfg, TariffOf(cfg, ids, ws), s.db, qs)
  {
    var t := TariffOf(cfg, ids, ws);
    LoadFits(t, s.db, qs);
    forall x | x in cfg.tasks ensures cfg.tasks[x].maxRetry <= t.p.most {
      MostRetries(cfg, ids, x);
    }
    WorkersCounted(cfg.workers, ws);
  }

  lemma LoadFits(t: Tariff, db: Db, qs: seq<string>)
    requires Sound(t) && Load(t.p, db, qs) <= t.p.copy * t.room
    ensures Size(db, qs) <= t.room
  {
    LoadAtLeast(t.p, db, qs);
    Fewer(Size(db, qs), t.room, t.p.copy);
  }

  lemma MostRetries(cfg: Config, ids: seq<Id>, x: Id)
    requires x in cfg.tasks && x in ids
    ensures cfg.tasks[x].maxRetry <= Sum(Retries(cfg, ids))
  {
    var i :| 0 <= i < |ids| && ids[i] == x;
    SumAtLeast(Retries(cfg, ids), i);
  }

  lemma Fewer(a: nat, b: nat, g: nat)
    requires a * g <= g * b && g > 0
    ensures a <= b
  {
    assert b * g == g * b;
    if a > b {
      MoreTimes(b, g);
      Ordered(b + 1, a, g);
    }
  }

  lemma {:induction false} WorkersCounted(workers: set<WorkerId>, ws: seq<WorkerId>)
    requires forall i, j :: 0 <= i < j < |ws| ==> ws[i] != ws[j]
    requires forall w :: w in ws <==> w in workers
    ensures |ws| == |workers|
    decreases |ws|
  {
    if ws == [] {
      assert forall w :: w in workers ==> w in ws;
      assert workers == {};
    } else {
      var last, rest := ws[|ws| - 1], ws[..|ws| - 1];
      assert ws == rest + [last];
      WorkersCounted(workers - {last}, rest);
      assert last in ws;
    }
  }

  lemma WorkNext(cfg: Config, s: State, step: Step, s': State, ids: seq<Id>, ws: seq<WorkerId>, qs: seq<string>)
    requires Kept(cfg, s) && Next(cfg, s, step, s') && Roster(cfg, ids, ws, qs)
    requires Work(cfg, TariffOf(cfg, ids, ws), s, ids, ws, qs) <= Budget(cfg, ids, ws)
    ensures Work(cfg, TariffOf(cfg, ids, ws), s', ids, ws, qs) + One(Productive(s, step)) <= Work(cfg, TariffOf(cfg, ids, ws), s, ids, ws, qs)
  {
    RoomEnough(cfg, s, ids, ws, qs);
    StepWorks(cfg, TariffOf(cfg, ids, ws), s, step, ids, ws, qs);
  }

  lemma {:induction false} WorkThroughout(cfg: Config, run: seq<State>, steps: seq<Step>, n: nat, ids: seq<Id>, ws: seq<WorkerId>, qs: seq<string>)
    requires IsRun(cfg, run, steps) && n <= |steps| && Roster(cfg, ids, ws, qs)
    ensures Work(cfg, TariffOf(cfg, ids, ws), run[n], ids, ws, qs) + ProductiveSteps(run, steps, n) <= Budget(cfg, ids, ws)
  {
    if n == 0 {
      StartWork(cfg, run[0], ids, ws, qs);
    } else {
      WorkThroughout(cfg, run, steps, n - 1, ids, ws, qs);
      var s, s' := StatesAt(cfg, run, steps, n);
      WorkNext(cfg, s, steps[n - 1], s', ids, ws, qs);
    }
  }

  /**
   * Main result: in every run - with any dependencies, with tasks released twice, whatever the
   * interleaving, the handler results and the clocks - there are at most so many productive steps
   * as the submitted tasks allow for; a closed system therefore comes to rest, except for polling.
   */
  lemma BoundedWork(cfg: Config, run: seq<State>, steps: seq<Step>, n: nat, ids: seq<Id>, ws: seq<WorkerId>, qs: seq<string>)
    requires IsRun(cfg, run, steps) && n <= |steps| && Roster(cfg, ids, ws, qs)
    ensures ProductiveSteps(run, steps, n) <= Budget(cfg, ids, ws)
  {
    WorkThroughout(cfg, run, steps, n, ids, ws, qs);
  }
}
