/**
 * Runs that show what the conditions of the other results are for. They exist for every task with
 * two different dependencies that have none themselves: without the script and with two workers it
 * can be put on its queue twice and run by two workers at the same time; with the script or
 * without, it can be buried and freed.
 */
module Counterexamples {
  import opened Basics
  import opened Keys
  import opened SortedSets
  import opened Tasks
  import opened Store
  import opened Commands
  import opened Protocol
  import opened Bookkeeping
  import opened Events
  import opened Ownership
  import opened Lineage

  // ---- runs, one step at a time ----

  datatype Trace = Trace(run: seq<State>, steps: seq<Step>)

  /** How often a run has freed a task, entered its handler, and buried it. */
  datatype Tally = Tally(freed: nat, entered: nat, buried: nat)

  const NONE := Tally(0, 0, 0)

  ghost function TallyOf(cfg: Config, t: Trace, d: Id): Tally
    requires |t.run| == |t.steps| + 1
  {
    Tally(Count(cfg, t.run, t.steps, |t.steps|, Frees(d)), Count(cfg, t.run, t.steps, |t.steps|, Enters(d)),
          Count(cfg, t.run, t.steps, |t.steps|, Buries(d)))
  }

  /** The run ends in s with this tally for d. */
  ghost predicate Shows(cfg: Config, t: Trace, s: State, d: Id, n: Tally) {
    IsRun(cfg, t.run, t.steps) && t.run[|t.steps|] == s && TallyOf(cfg, t, d) == n
  }

  lemma Take(cfg: Config, t: Trace, s: State, d: Id, n: Tally, step: Step) returns (t': Trace)
    requires Shows(cfg, t, s, d, n) && Enabled(cfg, s, step)
    ensures Shows(cfg, t', After(cfg, s, step), d,
                  Tally(n.freed + One(Occurs(cfg, s, step, Frees(d))), n.entered + One(Occurs(cfg, s, step, Enters(d))),
                        n.buried + One(Occurs(cfg, s, step, Buries(d)))))
  {
    t' := Trace(t.run + [After(cfg, s, step)], t.steps + [step]);
    OneMore(cfg, t.run, t.steps, step);
    CountSame(cfg, t.run, t.steps, t'.run, t'.steps, |t.steps|, Frees(d));
    CountSame(cfg, t.run, t.steps, t'.run, t'.steps, |t.steps|, Enters(d));
    CountSame(cfg, t.run, t.steps, t'.run, t'.steps, |t.steps|, Buries(d));
  }

  /** What a worker's next command adds to the tally. */
  ghost function Added(cfg: Config, db: Db, w: Worker, c: Choice, d: Id, n: Tally): Tally {
    Tally(n.freed + One(By(cfg, db, w, c, Frees(d))), n.entered + One(By(cfg, db, w, c, Enters(d))),
          n.buried + One(By(cfg, db, w, c, Buries(d))))
  }

  lemma Act(cfg: Config, t: Trace, s: State, d: Id, n: Tally, w: WorkerId, c: Choice) returns (t': Trace, s': State)
    requires Shows(cfg, t, s, d, n) && w in s.workers && Fits(s.db, s.workers[w], c)
    ensures s' == State(Do(s.db, WorkerCommand(cfg, s.workers[w], c)), s.clients, s.workers[w := WorkerNext(cfg, s.db, s.workers[w], c)])
    ensures Shows(cfg, t', s', d, Added(cfg, s.db, s.workers[w], c, d, n))
  {
    t' := Take(cfg, t, s, d, n, WorkerStep(w, c));
    s' := After(cfg, s, WorkerStep(w, c));
  }

  lemma Call(cfg: Config, t: Trace, s: State, d: Id, n: Tally, y: Id) returns (t': Trace, s': State)
    requires Shows(cfg, t, s, d, n) && y in s.clients && y in cfg.tasks && !s.clients[y].Accepted? && !s.clients[y].Rejected?
    ensures s' == State(Do(s.db, ClientCommand(cfg.tasks[y], s.clients[y], 0)),
                        s.clients[y := ClientNext(cfg, s.db, cfg.tasks[y], s.clients[y])], s.workers)
    ensures Shows(cfg, t', s', d, n)
  {
    t' := Take(cfg, t, s, d, n, ClientStep(y, 0));
    s' := After(cfg, s, ClientStep(y, 0));
  }

  // ---- the scene ----

  /** Submitted with enqueue, with nothing to wait for and straight to a queue. */
  predicate Plain(cfg: Config, y: Id) {
    y in cfg.tasks && y !in cfg.delayed && cfg.tasks[y].dependsOn == [] && cfg.tasks[y].uniqueKey.None? && cfg.tasks[y].group.None?
  }

  /** What the queues hold: nothing but d on its own, so often. */
  ghost predicate Queues(db: Db, q: string, queue: seq<Id>) {
    && db.flags == {}
    && (forall r :: db.Ranks(PriorityKey(r)) == [])
    && (forall r :: db.List(QueueKey(r)) == if r == q then queue else [])
  }

  /** d is registered and waits for pending; the dependencies in left are yet to be submitted; all queues are empty. */
  ghost predicate Scene(s: State, d: Id, left: set<Id>, pending: set<Id>) {
    && Queues(s.db, "", [])
    && s.db.Members(PendingDepsKey(d)) == pending
    && d in s.db.tasks && s.db.tasks[d].data.id == d
    && (forall y :: y in left ==> y in s.clients && s.clients[y] == Fresh && s.db.Members(TaskDepsKey(y)) == {d})
  }

  // ---- registering d ----

  /** The first i dependencies are pending, of which the first j know of d. */
  ghost predicate Registering(cfg: Config, s: State, d: Id, i: nat, j: nat)
    requires d in cfg.tasks && i <= |cfg.tasks[d].dependsOn| && j <= |cfg.tasks[d].dependsOn|
  {
    var deps := cfg.tasks[d].dependsOn;
    && Queues(s.db, cfg.tasks[d].queue, []) && s.clients.Keys == cfg.tasks.Keys
    && (forall y :: y in s.clients && y != d ==> s.clients[y] == Fresh)
    && (forall x :: x in s.db.Members(PendingDepsKey(d)) <==> x in deps[..i])
    && (forall y :: s.db.Members(TaskDepsKey(y)) == if y in deps[..j] then {d} else {})
    && d in s.db.tasks && s.db.tasks[d] == Record(cfg.tasks[d], cfg.tasks[d].queue)
  }

  lemma {:induction false} RegisterPending(cfg: Config, t: Trace, s: State, d: Id, n: Tally, i: nat) returns (t': Trace, s': State)
    requires cfg.Valid() && d in cfg.tasks && i <= |cfg.tasks[d].dependsOn| && d in s.clients && s.clients[d] == AddingPending(i)
    requires Shows(cfg, t, s, d, n) && Registering(cfg, s, d, i, 0)
    ensures Shows(cfg, t', s', d, n) && Registering(cfg, s', d, |cfg.tasks[d].dependsOn|, 0)
    ensures d in s'.clients && s'.clients[d] == AddingDependents(0) && s'.workers == s.workers
    decreases |cfg.tasks[d].dependsOn| - i
  {
    var deps := cfg.tasks[d].dependsOn;
    t', s' := Call(cfg, t, s, d, n, d);
    if i < |deps| {
      assert deps[..i + 1] == deps[..i] + [deps[i]];
      PendingAdded(cfg, s, s', d, i);
      t', s' := RegisterPending(cfg, t', s', d, n, i + 1);
    }
  }

  lemma PendingAdded(cfg: Config, s: State, s': State, d: Id, i: nat)
    requires d in cfg.tasks && i < |cfg.tasks[d].dependsOn| && Registering(cfg, s, d, i, 0)
    requires s'.db == s.db.SAdd(PendingDepsKey(d), cfg.tasks[d].dependsOn[i]) && d in s.clients
    requires s'.clients == s.clients[d := AddingPending(i + 1)]
    ensures Registering(cfg, s', d, i + 1, 0)
  {
    var deps := cfg.tasks[d].dependsOn;
    assert deps[..i + 1] == deps[..i] + [deps[i]];
    assert s'.db.Members(PendingDepsKey(d)) == s.db.Members(PendingDepsKey(d)) + {deps[i]};
    forall y ensures s'.db.Members(TaskDepsKey(y)) == s.db.Members(TaskDepsKey(y)) {
    }
    SameQueues(s.db, s'.db, cfg.tasks[d].queue, []);
  }

  lemma SameQueues(db: Db, db': Db, q: string, queue: seq<Id>)
    requires Queues(db, q, queue) && db'.lists == db.lists && db'.zsets == db.zsets && db'.flags == db.flags
    ensures Queues(db', q, queue)
  {
    assert forall r :: db'.List(QueueKey(r)) == db.List(QueueKey(r));
    assert forall r :: db'.Ranks(PriorityKey(r)) == db.Ranks(PriorityKey(r));
  }

  lemma {:induction false} RegisterDependents(cfg: Config, t: Trace, s: State, d: Id, n: Tally, j: nat) returns (t': Trace, s': State)
    requires cfg.Valid() && d in cfg.tasks && j <= |cfg.tasks[d].dependsOn| && d in s.clients && s.clients[d] == AddingDependents(j)
    requires Shows(cfg, t, s, d, n) && Registering(cfg, s, d, |cfg.tasks[d].dependsOn|, j)
    ensures Shows(cfg, t', s', d, n) && Registering(cfg, s', d, |cfg.tasks[d].dependsOn|, |cfg.tasks[d].dependsOn|)
    ensures s'.workers == s.workers
    decreases |cfg.tasks[d].dependsOn| - j
  {
    var deps := cfg.tasks[d].dependsOn;
    t', s' := Call(cfg, t, s, d, n, d);
    if j < |deps| {
      DependentAdded(cfg, s, s', d, j);
      t', s' := RegisterDependents(cfg, t', s', d, n, j + 1);
    }
  }

  lemma DependentAdded(cfg: Config, s: State, s': State, d: Id, j: nat)
    requires d in cfg.tasks && j < |cfg.tasks[d].dependsOn| && Registering(cfg, s, d, |cfg.tasks[d].dependsOn|, j)
    requires s'.db == s.db.SAdd(TaskDepsKey(cfg.tasks[d].dependsOn[j]), d) && d in s.clients
    requires s'.clients == s.clients[d := AddingDependents(j + 1)]
    ensures Registering(cfg, s', d, |cfg.tasks[d].dependsOn|, j + 1)
  {
    var deps := cfg.tasks[d].dependsOn;
    assert deps[..j + 1] == deps[..j] + [deps[j]];
    assert s'.db.Members(PendingDepsKey(d)) == s.db.Members(PendingDepsKey(d));
    forall y ensures s'.db.Members(TaskDepsKey(y)) == if y in deps[..j + 1] then {d} else {} {
      assert y in deps[..j + 1] <==> y in deps[..j] || y == deps[j];
    }
    SameQueues(s.db, s'.db, cfg.tasks[d].queue, []);
  }

  lemma Begin(cfg: Config, d: Id) returns (t: Trace, s: State)
    requires cfg.Valid() && d in cfg.tasks && d !in cfg.delayed && cfg.tasks[d].dependsOn != []
    ensures Shows(cfg, t, s, d, NONE) && s.workers == (map w | w in cfg.workers :: Idle)
    ensures d in s.clients && s.clients[d] == AddingPending(0) && Registering(cfg, s, d, 0, 0)
  {
    s := State(EMPTY, map id | id in cfg.tasks :: Fresh, map w | w in cfg.workers :: Idle);
    EmptyStore(s.db);
    t := Trace([s], []);
    assert IsRun(cfg, t.run, t.steps);
    var clients := s.clients;
    t, s := Call(cfg, t, s, d, NONE, d);
    assert s.db == EMPTY.HSet(d, Record(cfg.tasks[d], cfg.tasks[d].queue));
    assert cfg.tasks[d].dependsOn[..0] == [];
    assert forall k :: s.db.List(k) == [] && s.db.Ranks(k) == [] && s.db.Members(k) == {};
  }

  /** A run that does nothing but register d. */
  lemma Registered(cfg: Config, d: Id) returns (t: Trace, s: State)
    requires cfg.Valid() && d in cfg.tasks && d !in cfg.delayed && cfg.tasks[d].dependsOn != []
    ensures Shows(cfg, t, s, d, NONE) && s.workers == (map w | w in cfg.workers :: Idle)
    ensures Registering(cfg, s, d, |cfg.tasks[d].dependsOn|, |cfg.tasks[d].dependsOn|)
  {
    t, s := Begin(cfg, d);
    t, s := RegisterPending(cfg, t, s, d, NONE, 0);
    t, s := RegisterDependents(cfg, t, s, d, NONE, 0);
  }

  lemma SceneSet(cfg: Config, s: State, d: Id, left: set<Id>)
    requires cfg.Valid() && d in cfg.tasks && Registering(cfg, s, d, |cfg.tasks[d].dependsOn|, |cfg.tasks[d].dependsOn|)
    requires forall y :: y in left ==> y in cfg.tasks[d].dependsOn && y in cfg.tasks && y != d
    ensures Scene(s, d, left, set y | y in cfg.tasks[d].dependsOn)
  {
    var deps := cfg.tasks[d].dependsOn;
    assert deps[..|deps|] == deps;
    assert s.db.Members(PendingDepsKey(d)) == set y | y in deps;
  }

  // ---- a worker deals with a dependency ----

  /** s without the dependency y, which knows d. */
  ghost predicate Served(cfg: Config, s: State, s': State, d: Id, left: set<Id>, pending: set<Id>, y: Id, w: WorkerId, worker: Worker)
    requires d in cfg.tasks
  {
    && Scene(s', d, left - {y}, pending)
    && s'.db.Members(TaskDepsKey(y)) == {d}
    && w in s.workers && s'.workers == s.workers[w := worker]
  }

  /** Only the record of y and active lists differ. */
  ghost predicate SameScene(db: Db, db': Db, y: Id) {
    && db'.flags == db.flags && db'.sets == db.sets && (forall x :: x != y && x in db.tasks ==> x in db'.tasks && db'.tasks[x] == db.tasks[x])
    && (forall r :: db'.Ranks(PriorityKey(r)) == db.Ranks(PriorityKey(r)))
    && (forall r :: db'.List(QueueKey(r)) == db.List(QueueKey(r)))
  }

  lemma OneScored(db: Db, stored: Db, r: Record, y: Id)
    requires db.Ranks(PriorityKey(r.queue)) == [] && db.flags == {}
    requires stored == db.HSet(y, r).ZAdd(PriorityKey(r.queue), y, r.data.priority)
    ensures stored.PDequeue(r.queue).1 == Got(y) && SameScene(db, stored.PDequeue(r.queue).0, y)
    ensures stored.PDequeue(r.queue).0.tasks == db.tasks[y := r]
  {
    var k, e := PriorityKey(r.queue), Entry(r.data.priority, y);
    assert ZRem([], y) == [] && stored.Ranks(k) == [e];
    assert ZRem([e], y) == [];
  }

  /** It loads the record and enters the handler. */
  lemma LoadIt(cfg: Config, t: Trace, s: State, d: Id, n: Tally, w: WorkerId, y: Id) returns (t': Trace, s': State)
    requires Shows(cfg, t, s, d, n) && w in s.workers && s.workers[w].Loading? && s.workers[w].id == y && y in s.db.tasks
    ensures Shows(cfg, t', s', d, n.(entered := n.entered + One(y == d)))
    ensures s' == s.(workers := s.workers[w := Running(s.db.tasks[y].data.(status := Active))])
  {
    t', s' := Act(cfg, t, s, d, n, w, Go);
  }

  lemma DequeueIt(cfg: Config, t: Trace, s: State, d: Id, n: Tally, y: Id, w: WorkerId, q: string) returns (t': Trace, s': State)
    requires Shows(cfg, t, s, d, n) && w in s.workers && s.workers[w].Idle? && s.db.PDequeue(q).1 == Got(y)
    ensures Shows(cfg, t', s', d, n) && s' == State(s.db.PDequeue(q).0, s.clients, s.workers[w := Loading(y, Some(q))])
  {
    t', s' := Act(cfg, t, s, d, n, w, Poll(q, false));
  }

  /** From the priority queue. */
  lemma FetchScored(cfg: Config, t: Trace, s: State, d: Id, n: Tally, y: Id, w: WorkerId, db: Db) returns (t': Trace, s': State)
    requires Shows(cfg, t, s, d, n) && y in cfg.tasks && y != d && w in s.workers && s.workers[w].Idle?
    requires db.Ranks(PriorityKey(cfg.tasks[y].queue)) == [] && db.flags == {}
    requires s.db == db.HSet(y, Record(cfg.tasks[y], cfg.tasks[y].queue)).ZAdd(PriorityKey(cfg.tasks[y].queue), y, cfg.tasks[y].priority)
    ensures Shows(cfg, t', s', d, n) && s'.clients == s.clients
    ensures s'.workers == s.workers[w := Running(cfg.tasks[y].(status := Active))]
    ensures SameScene(db, s'.db, y)
  {
    var q := cfg.tasks[y].queue;
    OneScored(db, s.db, Record(cfg.tasks[y], q), y);
    t', s' := DequeueIt(cfg, t, s, d, n, y, w, q);
    t', s' := LoadIt(cfg, t', s', d, n, w, y);
  }

  /** A worker turns to the plain list of a queue whose priority queue is empty. */
  lemma TurnToList(cfg: Config, t: Trace, s: State, d: Id, n: Tally, w: WorkerId, q: string) returns (t': Trace, s': State)
    requires Shows(cfg, t, s, d, n) && w in s.workers && s.workers[w].Idle?
    requires s.db.Ranks(PriorityKey(q)) == [] && s.db.flags == {}
    ensures Shows(cfg, t', s', d, n) && s' == s.(workers := s.workers[w := Popping(q)])
  {
    t', s' := Act(cfg, t, s, d, n, w, Poll(q, false));
    assert s' == s.(workers := s.workers[w := CheckingPause(q)]);
    t', s' := Act(cfg, t', s', d, n, w, Go);
  }

  /** It pops the first task there and makes it active. */
  lemma PopFirst(cfg: Config, t: Trace, s: State, d: Id, n: Tally, w: WorkerId, q: string) returns (t': Trace, s': State)
    requires Shows(cfg, t, s, d, n) && w in s.workers && s.workers[w] == Popping(q) && s.db.List(QueueKey(q)) != []
    ensures Shows(cfg, t', s', d, n) && s'.clients == s.clients
    ensures var y := s.db.List(QueueKey(q))[0];
            s'.db == s.db.LPop(QueueKey(q)).LPush(ActiveKey(q), y) && s'.workers == s.workers[w := Loading(y, None)]
  {
    t', s' := Act(cfg, t, s, d, n, w, Go);
    assert s'.workers[w] == InHand(q, s.db.List(QueueKey(q))[0]);
    t', s' := Act(cfg, t', s', d, n, w, Go);
  }

  lemma OneListed(db: Db, stored: Db, r: Record, y: Id)
    requires db.List(QueueKey(r.queue)) == [] && stored == db.HSet(y, r).RPush(QueueKey(r.queue), y)
    ensures var after := stored.LPop(QueueKey(r.queue)).LPush(ActiveKey(r.queue), y);
            stored.List(QueueKey(r.queue)) == [y] && SameScene(db, after, y) && after.tasks == db.tasks[y := r]
  {
  }

  /** From the plain list. */
  lemma FetchListed(cfg: Config, t: Trace, s: State, d: Id, n: Tally, y: Id, w: WorkerId, db: Db) returns (t': Trace, s': State)
    requires Shows(cfg, t, s, d, n) && y in cfg.tasks && y != d && w in s.workers && s.workers[w].Idle?
    requires db.Ranks(PriorityKey(cfg.tasks[y].queue)) == [] && db.List(QueueKey(cfg.tasks[y].queue)) == [] && db.flags == {}
    requires s.db == db.HSet(y, Record(cfg.tasks[y], cfg.tasks[y].queue)).RPush(QueueKey(cfg.tasks[y].queue), y)
    ensures Shows(cfg, t', s', d, n) && s'.clients == s.clients
    ensures s'.workers == s.workers[w := Running(cfg.tasks[y].(status := Active))]
    ensures SameScene(db, s'.db, y)
  {
    var q := cfg.tasks[y].queue;
    OneListed(db, s.db, Record(cfg.tasks[y], q), y);
    t', s' := TurnToList(cfg, t, s, d, n, w, q);
    t', s' := PopFirst(cfg, t', s', d, n, w, q);
    t', s' := LoadIt(cfg, t', s', d, n, w, y);
  }

  lemma SceneStays(cfg: Config, s: State, s': State, d: Id, left: set<Id>, pending: set<Id>, y: Id)
    requires d in cfg.tasks && y != d && Scene(s, d, left, pending) && SameScene(s.db, s'.db, y)
    requires forall x :: x != y && x in s.clients ==> x in s'.clients && s'.clients[x] == s.clients[x]
    ensures Scene(s', d, left - {y}, pending) && s'.db.Members(TaskDepsKey(y)) == s.db.Members(TaskDepsKey(y))
  {
    assert forall k :: s'.db.Members(k) == s.db.Members(k);
  }

  /** y is submitted, and worker w starts with it. */
  lemma Start(cfg: Config, t: Trace, s: State, d: Id, n: Tally, left: set<Id>, pending: set<Id>, y: Id, w: WorkerId) returns (t': Trace, s': State)
    requires cfg.Valid() && d in cfg.tasks && Shows(cfg, t, s, d, n) && Scene(s, d, left, pending)
    requires Plain(cfg, y) && y in left && y != d && w in s.workers && s.workers[w].Idle?
    ensures Shows(cfg, t', s', d, n)
    ensures Served(cfg, s, s', d, left, pending, y, w, Running(cfg.tasks[y].(status := Active)))
  {
    var db, clients, workers := s.db, s.clients, s.workers;
    t', s' := Call(cfg, t, s, d, n, y);
    assert s'.clients[y] == Routing && s'.db == db.HSet(y, Record(cfg.tasks[y], cfg.tasks[y].queue));
    t', s' := Call(cfg, t', s', d, n, y);
    assert s'.clients == clients[y := Accepted];
    if cfg.tasks[y].priority != DEFAULT_PRIORITY {
      t', s' := FetchScored(cfg, t', s', d, n, y, w, db);
    } else {
      t', s' := FetchListed(cfg, t', s', d, n, y, w, db);
    }
    SceneStays(cfg, s, s', d, left, pending, y);
  }

  lemma StoredScene(db: Db, q: string, y: Id, r: Record)
    ensures SameScene(db, db.LRem(ActiveKey(q), y).HSet(y, r), y)
  {
  }

  lemma Return(cfg: Config, t: Trace, s: State, d: Id, n: Tally, w: WorkerId, ok: bool) returns (t': Trace, s': State)
    requires Shows(cfg, t, s, d, n) && w in s.workers && s.workers[w].Running?
    ensures Shows(cfg, t', s', d, n) && s' == s.(workers := s.workers[w := Handled(s.workers[w].task, ok)])
  {
    t', s' := Act(cfg, t, s, d, n, w, Result(ok));
  }

  lemma StoreResult(cfg: Config, t: Trace, s: State, d: Id, n: Tally, w: WorkerId, task: Task, status: Status) returns (t': Trace, s': State)
    requires Shows(cfg, t, s, d, n) && w in s.workers && s.workers[w] == Saving(task, status)
    ensures Shows(cfg, t', s', d, n)
    ensures s' == State(s.db.HSet(task.id, Record(task.(status := status), task.queue)), s.clients, s.workers[w := AfterSave(task, status)])
  {
    t', s' := Act(cfg, t, s, d, n, w, Go);
  }

  lemma Acknowledge(cfg: Config, t: Trace, s: State, d: Id, n: Tally, w: WorkerId, task: Task, status: Status) returns (t': Trace, s': State)
    requires Shows(cfg, t, s, d, n) && w in s.workers && s.workers[w] == Unlisting(task, status)
    ensures Shows(cfg, t', s', d, n) && s'.clients == s.clients && s'.workers == s.workers[w := AfterSave(task, status)]
    ensures s'.db == s.db.LRem(ActiveKey(task.queue), task.id).HSet(task.id, Record(task.(status := status), task.queue))
  {
    t', s' := Act(cfg, t, s, d, n, w, Go);
    assert s'.workers[w] == Saving(task, status);
    t', s' := StoreResult(cfg, t', s', d, n, w, task, status);
  }

  /** The handler of y returns, and its result is stored. */
  lemma Finish(cfg: Config, t: Trace, s: State, d: Id, n: Tally, left: set<Id>, pending: set<Id>, y: Id, w: WorkerId, ok: bool) returns (t': Trace, s': State)
    requires cfg.Valid() && d in cfg.tasks && y in cfg.tasks && y != d && Shows(cfg, t, s, d, n)
    requires Scene(s, d, left, pending) && s.db.Members(TaskDepsKey(y)) == {d} && y !in left
    requires w in s.workers && s.workers[w] == Running(cfg.tasks[y].(status := Active))
    requires ok || cfg.tasks[y].maxRetry <= 1
    ensures Shows(cfg, t', s', d, n)
    ensures Served(cfg, s, s', d, left, pending, y, w, if ok then ReleaseListing(y) else FailListing(y, cfg.tasks[y].queue))
  {
    var active := cfg.tasks[y].(status := Active);
    var task, status := if ok then active else Attempted(active), if ok then Processed else Dead;
    t', s' := Return(cfg, t, s, d, n, w, ok);
    t', s' := Acknowledge(cfg, t', s', d, n, w, task, status);
    StoredScene(s.db, task.queue, y, Record(task.(status := status), task.queue));
    SceneStays(cfg, s, s', d, left, pending, y);
    assert left - {y} == left;
  }

  // ---- the loop over the dependents of y ----

  /** Worker w lists the dependents of y command by command. */
  lemma ListThem(cfg: Config, t: Trace, s: State, d: Id, n: Tally, y: Id, w: WorkerId) returns (t': Trace, s': State)
    requires !cfg.atomicRelease && Shows(cfg, t, s, d, n) && s.db.Members(TaskDepsKey(y)) == {d}
    requires w in s.workers && s.workers[w] == ReleaseListing(y)
    ensures Shows(cfg, t', s', d, n) && s' == s.(workers := s.workers[w := Dropping(y, [d])])
  {
    t', s' := Act(cfg, t, s, d, n, w, Choice.Order([d]));
  }

  /** It drops y from what d waits for. */
  lemma Drop(cfg: Config, t: Trace, s: State, d: Id, n: Tally, y: Id, w: WorkerId) returns (t': Trace, s': State)
    requires Shows(cfg, t, s, d, n) && w in s.workers && s.workers[w] == Dropping(y, [d])
    ensures Shows(cfg, t', s', d, n) && s'.clients == s.clients
    ensures s'.db == s.db.SRem(PendingDepsKey(d), y) && s'.workers == s.workers[w := Counting(y, d, [])]
  {
    assert [d][1..] == [];
    t', s' := Act(cfg, t, s, d, n, w, Go);
  }

  lemma DropScene(s: State, s': State, d: Id, left: set<Id>, pending: set<Id>, y: Id)
    requires Scene(s, d, left, pending) && s'.db == s.db.SRem(PendingDepsKey(d), y) && s'.clients == s.clients
    ensures Scene(s', d, left, pending - {y})
    ensures forall k :: k != PendingDepsKey(d) ==> s'.db.Members(k) == s.db.Members(k)
  {
    SetFrame(s.db, SRem(PendingDepsKey(d), y), PendingDepsKey(d));
    forall k | k != PendingDepsKey(d) ensures s'.db.Members(k) == s.db.Members(k) {
      SetFrame(s.db, SRem(PendingDepsKey(d), y), k);
    }
    SameQueues(s.db, s'.db, "", []);
  }

  /** As long as d waits for something else, the worker leaves it alone and ends the loop. */
  lemma PassOn(cfg: Config, t: Trace, s: State, d: Id, n: Tally, y: Id, w: WorkerId) returns (t': Trace, s': State)
    requires Shows(cfg, t, s, d, n) && w in s.workers && s.workers[w] == Counting(y, d, []) && s.db.Members(PendingDepsKey(d)) != {}
    ensures Shows(cfg, t', s', d, n) && s'.clients == s.clients
    ensures s'.db == s.db.Del(TaskDepsKey(y)) && s'.workers == s.workers[w := Idle]
  {
    t', s' := Act(cfg, t, s, d, n, w, Go);
    assert s' == s.(workers := s.workers[w := Dropping(y, [])]);
    t', s' := Act(cfg, t', s', d, n, w, Go);
  }

  lemma DelScene(s: State, s': State, d: Id, left: set<Id>, pending: set<Id>, y: Id)
    requires Scene(s, d, left, pending) && y !in left
    requires s'.db == s.db.Del(TaskDepsKey(y)) && s'.clients == s.clients
    ensures Scene(s', d, left, pending)
  {
    SameQueues(s.db, s'.db, "", []);
    forall k | k != TaskDepsKey(y) ensures s'.db.Members(k) == s.db.Members(k) {
      SetFrame(s.db, Del(TaskDepsKey(y)), k);
    }
  }

  // ---- all but two dependencies are processed in turn ----

  /** Worker w takes y as far as the head of its release loop. */
  lemma ServeUp(cfg: Config, t: Trace, s: State, d: Id, n: Tally, left: set<Id>, pending: set<Id>, y: Id, w: WorkerId) returns (t': Trace, s': State)
    requires cfg.Valid() && !cfg.atomicRelease && d in cfg.tasks && Shows(cfg, t, s, d, n) && Scene(s, d, left, pending)
    requires Plain(cfg, y) && y in left && y != d && w in s.workers && s.workers[w].Idle?
    ensures Shows(cfg, t', s', d, n)
    ensures Served(cfg, s, s', d, left, pending, y, w, Dropping(y, [d]))
  {
    t', s' := Start(cfg, t, s, d, n, left, pending, y, w);
    t', s' := Finish(cfg, t', s', d, n, left - {y}, pending, y, w, true);
    var before := s';
    t', s' := ListThem(cfg, t', s', d, n, y, w);
    assert s'.db == before.db && s'.clients == before.clients;
    assert left - {y} - {y} == left - {y};
  }

  lemma ServeOne(cfg: Config, t: Trace, s: State, d: Id, n: Tally, left: set<Id>, pending: set<Id>, y: Id, w: WorkerId) returns (t': Trace, s': State)
    requires cfg.Valid() && !cfg.atomicRelease && d in cfg.tasks && Shows(cfg, t, s, d, n) && Scene(s, d, left, pending)
    requires Plain(cfg, y) && y in left && y != d && w in s.workers && s.workers[w].Idle? && pending - {y} != {}
    ensures Shows(cfg, t', s', d, n) && Scene(s', d, left - {y}, pending - {y}) && s'.workers == s.workers
  {
    var workers := s.workers;
    t', s' := ServeUp(cfg, t, s, d, n, left, pending, y, w);
    var up := s';
    t', s' := Drop(cfg, t', s', d, n, y, w);
    DropScene(up, s', d, left - {y}, pending, y);
    var dropped := s';
    t', s' := PassOn(cfg, t', s', d, n, y, w);
    DelScene(dropped, s', d, left - {y}, pending - {y}, y);
    assert s'.workers == workers[w := Idle] == workers;
  }

  lemma {:induction false} ServeAll(cfg: Config, t: Trace, s: State, d: Id, n: Tally, left: set<Id>, a: Id, b: Id, w: WorkerId) returns (t': Trace, s': State)
    requires cfg.Valid() && !cfg.atomicRelease && d in cfg.tasks && Shows(cfg, t, s, d, n) && Scene(s, d, left, left)
    requires (forall y :: y in left ==> Plain(cfg, y) && y != d) && a in left && b in left && w in s.workers && s.workers[w].Idle?
    ensures Shows(cfg, t', s', d, n) && Scene(s', d, {a, b}, {a, b}) && s'.workers == s.workers
    decreases left
  {
    if left == {a, b} {
      t', s' := t, s;
    } else {
      var y :| y in left && y != a && y != b;
      assert a in left - {y};
      t', s' := ServeOne(cfg, t, s, d, n, left, left, y, w);
      t', s' := ServeAll(cfg, t', s', d, n, left - {y}, a, b, w);
    }
  }

  // ---- the last two at the same time ----

  /** SCARD, and HGET of the queue. */
  lemma Decide(cfg: Config, t: Trace, s: State, d: Id, n: Tally, y: Id, w: WorkerId) returns (t': Trace, s': State)
    requires Shows(cfg, t, s, d, n) && w in s.workers && s.workers[w] == Counting(y, d, []) && s.db.Members(PendingDepsKey(d)) == {}
    requires d in s.db.tasks
    ensures Shows(cfg, t', s', d, n) && s' == s.(workers := s.workers[w := Pushing(y, d, [], s.db.tasks[d].queue)])
  {
    t', s' := Act(cfg, t, s, d, n, w, Go);
    assert s' == s.(workers := s.workers[w := Fetching(y, d, [])]);
    t', s' := Act(cfg, t', s', d, n, w, Go);
  }

  lemma Push(cfg: Config, t: Trace, s: State, d: Id, n: Tally, y: Id, w: WorkerId, q: string) returns (t': Trace, s': State)
    requires Shows(cfg, t, s, d, n) && w in s.workers && s.workers[w] == Pushing(y, d, [], q)
    ensures Shows(cfg, t', s', d, n.(freed := n.freed + 1))
    ensures s' == State(s.db.RPush(QueueKey(q), d), s.clients, s.workers[w := Clearing(y, d, [])])
  {
    t', s' := Act(cfg, t, s, d, n, w, Go);
  }

  /** The worker ends its loop. */
  lemma EndLoop(cfg: Config, t: Trace, s: State, d: Id, n: Tally, y: Id, w: WorkerId) returns (t': Trace, s': State)
    requires Shows(cfg, t, s, d, n) && w in s.workers && s.workers[w] == Clearing(y, d, [])
    ensures Shows(cfg, t', s', d, n) && s'.clients == s.clients && s'.workers == s.workers[w := Idle]
    ensures s'.db == s.db.Del(PendingDepsKey(d)).Del(TaskDepsKey(y))
  {
    t', s' := Act(cfg, t, s, d, n, w, Go);
    assert s'.workers[w] == Dropping(y, []) && s'.db == s.db.Del(PendingDepsKey(d));
    t', s' := Act(cfg, t', s', d, n, w, Go);
  }

  /** An idle worker takes d from its queue and enters its handler. */
  lemma TakeIt(cfg: Config, t: Trace, s: State, d: Id, n: Tally, w: WorkerId, q: string, queue: seq<Id>) returns (t': Trace, s': State)
    requires Shows(cfg, t, s, d, n) && w in s.workers && s.workers[w].Idle? && Queues(s.db, q, [d] + queue) && d in s.db.tasks
    requires s.db.tasks[d].data.id == d
    ensures Shows(cfg, t', s', d, n.(entered := n.entered + 1)) && Queues(s'.db, q, queue) && s'.db.tasks == s.db.tasks
    ensures w in s'.workers && Holds(s'.workers[w]) == Some(d) && s'.workers == s.workers[w := s'.workers[w]]
  {
    t', s' := TurnToList(cfg, t, s, d, n, w, q);
    t', s' := PopFirst(cfg, t', s', d, n, w, q);
    PoppedQueues(s.db, q, d, queue);
    t', s' := LoadIt(cfg, t', s', d, n, w, d);
  }

  lemma PoppedQueues(db: Db, q: string, d: Id, queue: seq<Id>)
    requires Queues(db, q, [d] + queue)
    ensures Queues(db.LPop(QueueKey(q)).LPush(ActiveKey(q), d), q, queue) && db.List(QueueKey(q))[0] == d
    ensures db.LPop(QueueKey(q)).LPush(ActiveKey(q), d).tasks == db.tasks
  {
    assert ([d] + queue)[1..] == queue;
  }

  lemma PushedQueues(db: Db, q: string, d: Id, queue: seq<Id>)
    requires Queues(db, q, queue)
    ensures Queues(db.RPush(QueueKey(q), d), q, queue + [d])
  {
  }

  /** Both workers have listed d, and it waits for nothing but their two dependencies. */
  ghost predicate Window(cfg: Config, s: State, d: Id, a: Id, b: Id, v: WorkerId, w: WorkerId)
    requires d in cfg.tasks
  {
    && Scene(s, d, {}, {a, b}) && v != w && v in s.workers && w in s.workers
    && s.workers[v] == Dropping(a, [d]) && s.workers[w] == Dropping(b, [d])
  }

  /** Each drops its dependency before the other one counts. */
  lemma BothDecide(cfg: Config, t: Trace, s: State, d: Id, n: Tally, a: Id, b: Id, v: WorkerId, w: WorkerId) returns (t': Trace, s': State)
    requires d in cfg.tasks && Shows(cfg, t, s, d, n) && Window(cfg, s, d, a, b, v, w)
    ensures Shows(cfg, t', s', d, n) && Scene(s', d, {}, {})
    ensures d in s.db.tasks && d in s'.db.tasks && s'.db.tasks[d] == s.db.tasks[d]
    ensures var q := s.db.tasks[d].queue; s'.workers == s.workers[v := Pushing(a, d, [], q)][w := Pushing(b, d, [], q)]
  {
    var s0, q := s, s.db.tasks[d].queue;
    t', s' := Drop(cfg, t, s, d, n, a, v);
    DropScene(s0, s', d, {}, {a, b}, a);
    var s1 := s';
    t', s' := Drop(cfg, t', s', d, n, b, w);
    DropScene(s1, s', d, {}, {a, b} - {a}, b);
    assert {a, b} - {a} - {b} == {};
    t', s' := Decide(cfg, t', s', d, n, a, v);
    t', s' := Decide(cfg, t', s', d, n, b, w);
    assert s'.workers == s.workers[v := Pushing(a, d, [], q)][w := Pushing(b, d, [], q)];
  }

  lemma BothPush(cfg: Config, t: Trace, s: State, d: Id, n: Tally, a: Id, b: Id, v: WorkerId, w: WorkerId, q: string) returns (t': Trace, s': State)
    requires d in cfg.tasks && Shows(cfg, t, s, d, n) && Scene(s, d, {}, {}) && v != w && v in s.workers && w in s.workers
    requires s.workers[v] == Pushing(a, d, [], q) && s.workers[w] == Pushing(b, d, [], q)
    ensures Shows(cfg, t', s', d, n.(freed := n.freed + 2)) && Queues(s'.db, q, [d, d]) && s'.db.tasks == s.db.tasks
    ensures s'.workers == s.workers[v := Idle][w := Idle]
  {
    assert Queues(s.db, q, []);
    t', s' := Push(cfg, t, s, d, n, a, v, q);
    PushedQueues(s.db, q, d, []);
    var s1 := s';
    t', s' := Push(cfg, t', s', d, n.(freed := n.freed + 1), b, w, q);
    PushedQueues(s1.db, q, d, [] + [d]);
    assert [] + [d] + [d] == [d, d];
    var s2 := s';
    t', s' := EndLoop(cfg, t', s', d, n.(freed := n.freed + 2), a, v);
    t', s' := EndLoop(cfg, t', s', d, n.(freed := n.freed + 2), b, w);
    SameQueues(s2.db, s'.db, q, [d, d]);
    assert s'.workers == s.workers[v := Idle][w := Idle];
  }

  lemma BothRun(cfg: Config, t: Trace, s: State, d: Id, n: Tally, v: WorkerId, w: WorkerId, q: string) returns (t': Trace, s': State)
    requires d in cfg.tasks && Shows(cfg, t, s, d, n) && Queues(s.db, q, [d, d]) && v != w && v in s.workers && w in s.workers
    requires s.workers[v].Idle? && s.workers[w].Idle? && d in s.db.tasks && s.db.tasks[d].data.id == d
    ensures Shows(cfg, t', s', d, n.(entered := n.entered + 2)) && v in s'.workers && w in s'.workers
    ensures Holds(s'.workers[v]) == Some(d) && Holds(s'.workers[w]) == Some(d)
  {
    assert [d, d] == [d] + [d] && [d] == [d] + [];
    t', s' := TakeIt(cfg, t, s, d, n, v, q, [d]);
    t', s' := TakeIt(cfg, t', s', d, n.(entered := n.entered + 1), w, q, []);
  }

  /** The two dependencies left are taken by the two workers, as far as the heads of their loops. */
  lemma Windowed(cfg: Config, d: Id, a: Id, b: Id, v: WorkerId, w: WorkerId) returns (t: Trace, s: State)
    requires cfg.Valid() && !cfg.atomicRelease && d in cfg.tasks && a in cfg.Depends(d) && b in cfg.Depends(d) && a != b
    requires (forall y :: y in cfg.Depends(d) ==> Plain(cfg, y)) && v in cfg.workers && w in cfg.workers && v != w
    ensures Shows(cfg, t, s, d, NONE) && Window(cfg, s, d, a, b, v, w)
  {
    var deps := set y | y in cfg.Depends(d);
    t, s := Registered(cfg, d);
    SceneSet(cfg, s, d, deps);
    t, s := ServeAll(cfg, t, s, d, NONE, deps, a, b, v);
    t, s := ServeUp(cfg, t, s, d, NONE, {a, b}, {a, b}, a, v);
    assert {a, b} - {a} == {b};
    t, s := ServeUp(cfg, t, s, d, NONE, {b}, {a, b}, b, w);
    assert {b} - {b} == {};
  }

  /**
   * Two workers run the same task: take any configuration without the script and with two
   * workers, and any task d with two different dependencies, all of them plain. Then there is a
   * run in which d is put on its queue twice, and two workers are in its handler at the same time
   * - so its handler is entered more often than max(1, max_retry) if max_retry is at most one.
   */
  lemma TwoWorkersAtOnce(cfg: Config, d: Id, a: Id, b: Id, v: WorkerId, w: WorkerId)
    requires cfg.Valid() && !cfg.atomicRelease && d in cfg.tasks && a in cfg.Depends(d) && b in cfg.Depends(d) && a != b
    requires (forall y :: y in cfg.Depends(d) ==> Plain(cfg, y)) && v in cfg.workers && w in cfg.workers && v != w
    ensures exists run: seq<State>, steps: seq<Step> ::
      && IsRun(cfg, run, steps)
      && Count(cfg, run, steps, |steps|, Frees(d)) == 2 && Count(cfg, run, steps, |steps|, Enters(d)) == 2
      && v in run[|steps|].workers && Holds(run[|steps|].workers[v]) == Some(d)
      && w in run[|steps|].workers && Holds(run[|steps|].workers[w]) == Some(d)
  {
    var t, s := Windowed(cfg, d, a, b, v, w);
    var q := s.db.tasks[d].queue;
    t, s := BothDecide(cfg, t, s, d, NONE, a, b, v, w);
    t, s := BothPush(cfg, t, s, d, NONE, a, b, v, w, q);
    t, s := BothRun(cfg, t, s, d, Tally(2, 0, 0), v, w, q);
    assert IsRun(cfg, t.run, t.steps);
  }

  // ---- buried, then freed ----

  /** The worker with the dead y lists d and reads its record. */
  lemma ReadDoomed(cfg: Config, t: Trace, s: State, d: Id, n: Tally, y: Id, w: WorkerId, q: string) returns (t': Trace, s': State)
    requires Shows(cfg, t, s, d, n) && s.db.Members(TaskDepsKey(y)) == {d} && d in s.db.tasks
    requires w in s.workers && s.workers[w] == FailListing(y, q)
    ensures Shows(cfg, t', s', d, n) && s' == s.(workers := s.workers[w := FailSaving(y, q, d, [], s.db.tasks[d].data)])
  {
    t', s' := Act(cfg, t, s, d, n, w, Choice.Order([d]));
    assert s' == s.(workers := s.workers[w := FailFetching(y, q, [d])]);
    assert [d][1..] == [];
    t', s' := Act(cfg, t', s', d, n, w, Go);
  }

  /** It marks d dead. */
  lemma Condemn(cfg: Config, t: Trace, s: State, d: Id, n: Tally, y: Id, w: WorkerId, q: string) returns (t': Trace, s': State)
    requires Shows(cfg, t, s, d, n) && s.db.Members(TaskDepsKey(y)) == {d} && d in s.db.tasks
    requires w in s.workers && s.workers[w] == FailListing(y, q)
    ensures Shows(cfg, t', s', d, n) && s'.clients == s.clients && s'.workers == s.workers[w := FailPushing(y, q, d, [])]
    ensures s'.db == s.db.HSet(d, Record(s.db.tasks[d].data.(status := Dead), q))
  {
    t', s' := ReadDoomed(cfg, t, s, d, n, y, w, q);
    t', s' := Act(cfg, t', s', d, n, w, Go);
  }

  lemma Bury(cfg: Config, t: Trace, s: State, d: Id, n: Tally, y: Id, w: WorkerId, q: string) returns (t': Trace, s': State)
    requires Shows(cfg, t, s, d, n) && w in s.workers && s.workers[w] == FailPushing(y, q, d, [])
    ensures Shows(cfg, t', s', d, n.(buried := n.buried + 1)) && s'.clients == s.clients && s'.workers == s.workers[w := FailClearing(y, q, d, [])]
    ensures s'.db == s.db.LPush(DeadKey(q), d)
  {
    t', s' := Act(cfg, t, s, d, n, w, Go);
  }

  lemma Forget(cfg: Config, t: Trace, s: State, d: Id, n: Tally, y: Id, w: WorkerId, q: string) returns (t': Trace, s': State)
    requires Shows(cfg, t, s, d, n) && w in s.workers && s.workers[w] == FailClearing(y, q, d, [])
    ensures Shows(cfg, t', s', d, n) && s'.clients == s.clients && s'.workers == s.workers[w := Idle]
    ensures s'.db == s.db.Del(PendingDepsKey(d)).Del(TaskDepsKey(y))
  {
    t', s' := Act(cfg, t, s, d, n, w, Go);
    assert s'.workers[w] == FailFetching(y, q, []) && s'.db == s.db.Del(PendingDepsKey(d));
    t', s' := Act(cfg, t', s', d, n, w, Go);
  }

  lemma BuriedScene(s: State, s': State, d: Id, left: set<Id>, pending: set<Id>, y: Id, q: string)
    requires Scene(s, d, left, pending) && y !in left && s'.clients == s.clients
    requires s'.db == s.db.HSet(d, Record(s.db.tasks[d].data.(status := Dead), q)).LPush(DeadKey(q), d).Del(PendingDepsKey(d)).Del(TaskDepsKey(y))
    ensures Scene(s', d, left, {})
  {
    forall k ensures s'.db.Members(k) == if k == PendingDepsKey(d) || k == TaskDepsKey(y) then {} else s.db.Members(k) {
    }
    assert forall r :: s'.db.List(QueueKey(r)) == s.db.List(QueueKey(r));
    assert forall r :: s'.db.Ranks(PriorityKey(r)) == s.db.Ranks(PriorityKey(r));
  }

  /** The worker with the dead y buries d. */
  lemma BuryIt(cfg: Config, t: Trace, s: State, d: Id, left: set<Id>, pending: set<Id>, y: Id, w: WorkerId, q: string) returns (t': Trace, s': State)
    requires Shows(cfg, t, s, d, NONE) && Scene(s, d, left, pending) && s.db.Members(TaskDepsKey(y)) == {d} && y !in left
    requires w in s.workers && s.workers[w] == FailListing(y, q)
    ensures Shows(cfg, t', s', d, Tally(0, 0, 1)) && Scene(s', d, left, {}) && s'.workers == s.workers[w := Idle]
  {
    t', s' := Condemn(cfg, t, s, d, NONE, y, w, q);
    t', s' := Bury(cfg, t', s', d, NONE, y, w, q);
    t', s' := Forget(cfg, t', s', d, Tally(0, 0, 1), y, w, q);
    BuriedScene(s, s', d, left, pending, y, q);
    assert s'.workers == s.workers[w := Idle];
  }

  /** The dependency a of d is tried once, fails and dies; d is buried. */
  lemma FailUp(cfg: Config, t: Trace, s: State, d: Id, left: set<Id>, pending: set<Id>, a: Id, w: WorkerId) returns (t': Trace, s': State)
    requires cfg.Valid() && d in cfg.tasks && Shows(cfg, t, s, d, NONE) && Scene(s, d, left, pending)
    requires Plain(cfg, a) && cfg.tasks[a].maxRetry <= 1 && a in left && a != d && w in s.workers && s.workers[w].Idle?
    ensures Shows(cfg, t', s', d, Tally(0, 0, 1)) && Scene(s', d, left - {a}, {}) && s'.workers == s.workers
  {
    var q := cfg.tasks[a].queue;
    t', s' := Start(cfg, t, s, d, NONE, left, pending, a, w);
    t', s' := Finish(cfg, t', s', d, NONE, left - {a}, pending, a, w, false);
    assert left - {a} - {a} == left - {a};
    t', s' := BuryIt(cfg, t', s', d, left - {a}, pending, a, w, q);
    assert s'.workers == s.workers[w := Idle] == s.workers;
  }

  /** A worker with a processed dependency of d, and nothing pending, frees d - by script or command by command. */
  lemma FreeIt(cfg: Config, t: Trace, s: State, d: Id, n: Tally, b: Id, w: WorkerId) returns (t': Trace, s': State)
    requires Shows(cfg, t, s, d, n) && Scene(s, d, {}, {}) && s.db.Members(TaskDepsKey(b)) == {d}
    requires w in s.workers && s.workers[w] == ReleaseListing(b)
    ensures Shows(cfg, t', s', d, n.(freed := n.freed + 1))
  {
    if cfg.atomicRelease {
      t', s' := Act(cfg, t, s, d, n, w, Choice.Order([d]));
    } else {
      t', s' := ListThem(cfg, t, s, d, n, b, w);
      var listed := s';
      t', s' := Drop(cfg, t', s', d, n, b, w);
      DropScene(listed, s', d, {}, {}, b);
      t', s' := Decide(cfg, t', s', d, n, b, w);
      t', s' := Push(cfg, t', s', d, n, b, w, s'.db.tasks[d].queue);
    }
  }

  /**
   * A task is buried and later freed: take any configuration, with the script or without, and any
   * task d with two different plain dependencies, one of which may be tried only once. Then a
   * single worker can put d on the dead list and afterwards on its queue.
   */
  lemma BuriedAndFreed(cfg: Config, d: Id, a: Id, b: Id, w: WorkerId)
    requires cfg.Valid() && d in cfg.tasks && a in cfg.Depends(d) && b in cfg.Depends(d) && a != b && w in cfg.workers
    requires Plain(cfg, a) && Plain(cfg, b) && cfg.tasks[a].maxRetry <= 1
    ensures exists run: seq<State>, steps: seq<Step> ::
      && IsRun(cfg, run, steps)
      && Count(cfg, run, steps, |steps|, Buries(d)) == 1 && Count(cfg, run, steps, |steps|, Frees(d)) == 1
  {
    var deps := set y | y in cfg.Depends(d);
    var t, s := Registered(cfg, d);
    SceneSet(cfg, s, d, {a, b});
    t, s := FailUp(cfg, t, s, d, {a, b}, deps, a, w);
    assert {a, b} - {a} == {b} && {b} - {b} == {};
    t, s := Start(cfg, t, s, d, Tally(0, 0, 1), {b}, {}, b, w);
    t, s := Finish(cfg, t, s, d, Tally(0, 0, 1), {}, {}, b, w, true);
    t, s := FreeIt(cfg, t, s, d, Tally(0, 0, 1), b, w);
    assert IsRun(cfg, t.run, t.steps);
  }

  /**
   * So the condition on the lineage is exact one level deep: without the script, with two workers,
   * and for a task whose dependencies are plain, the task has one owner in every run if and only
   * if it has at most one different dependency.
   */
  lemma OneOwnerIffSingle(cfg: Config, d: Id, v: WorkerId, w: WorkerId)
    requires cfg.Valid() && !cfg.atomicRelease && d in cfg.tasks && v in cfg.workers && w in cfg.workers && v != w
    requires forall y :: y in cfg.Depends(d) ==> Plain(cfg, y)
    ensures cfg.Single(d) <==>
      forall run: seq<State>, steps: seq<Step> :: IsRun(cfg, run, steps) ==> Sole(cfg, run, |steps|, d)
  {
    if cfg.Single(d) {
      assert Lineage.Family(cfg, {d} + set y | y in cfg.Depends(d));
      assert Straight(cfg, d);
      forall run: seq<State>, steps: seq<Step> | IsRun(cfg, run, steps) ensures Sole(cfg, run, |steps|, d) {
        StraightIsOwned(cfg, run, steps, |steps|, d);
      }
    } else {
      var a, b :| a in cfg.Depends(d) && b in cfg.Depends(d) && a != b;
      TwoWorkersAtOnce(cfg, d, a, b, v, w);
      var run: seq<State>, steps: seq<Step> :| IsRun(cfg, run, steps) && Count(cfg, run, steps, |steps|, Frees(d)) == 2;
      GrantsSplit(cfg, run, steps, |steps|, d);
      OnePlaceIffGrantedOnce(cfg, run, steps, |steps|, d);
    }
  }
}
