/** What is left when a closed system has come to rest. */
module Quiescence {
  import opened Basics
  import opened Keys
  import opened SortedSets
  import opened Store
  import opened Commands
  import opened Protocol
  import opened Bookkeeping
  import opened Events
  import opened Flows
  import opened NoLostRelease
  import opened Verdicts
  import opened Termination

  /** Between two polls, with nothing in hand. */
  predicate Polling(w: Worker) {
    w.Idle? || w.CheckingPause? || w.Popping?
  }

  /** The steps of the path can be taken from s one after the other, and the last one is productive. */
  ghost predicate LeadsToWork(cfg: Config, s: State, path: seq<Step>)
    decreases |path|
  {
    && path != []
    && Enabled(cfg, s, path[0]) && !path[0].PauseQueue? && !path[0].ResumeQueue?
    && (Productive(s, path[0]) || LeadsToWork(cfg, After(cfg, s, path[0]), path[1..]))
  }

  /** However workers, clients and the scheduler go on, and whatever their clocks say, nobody finds anything to do. */
  ghost predicate AtRest(cfg: Config, s: State) {
    forall path :: !LeadsToWork(cfg, s, path)
  }

  lemma WorkNow(cfg: Config, s: State, step: Step)
    requires Enabled(cfg, s, step) && Productive(s, step)
    ensures LeadsToWork(cfg, s, [step])
  {
  }

  lemma WorkLater(cfg: Config, s: State, step: Step, path: seq<Step>)
    requires Enabled(cfg, s, step) && !step.PauseQueue? && !step.ResumeQueue?
    requires LeadsToWork(cfg, After(cfg, s, step), path)
    ensures LeadsToWork(cfg, s, [step] + path)
  {
    assert ([step] + path)[1..] == path;
  }

  lemma Enumeration(ids: set<Id>) returns (order: seq<Id>)
    ensures Enumerates(order, ids)
  {
    order := [];
    var rest := ids;
    while rest != {}
      invariant rest <= ids && NoDup(order) && forall x :: x in order <==> x in ids - rest
      decreases rest
    {
      var x :| x in rest;
      PushSpec(order, x);
      order, rest := order + [x], rest - {x};
    }
  }

  /** A worker that holds or finishes a task can always go on, and that is productive. */
  lemma BusyWorks(cfg: Config, s: State, w: WorkerId) returns (step: Step)
    requires w in s.workers && !Polling(s.workers[w])
    ensures Enabled(cfg, s, step) && Productive(s, step)
  {
    var worker := s.workers[w];
    if worker.ReleaseListing? || worker.FailListing? {
      var order := Enumeration(s.db.Members(TaskDepsKey(worker.done)));
      step := WorkerStep(w, Choice.Order(order));
    } else {
      step := WorkerStep(w, if worker.Running? then Result(true) else if worker.Rescheduling? then Clock(0) else Go);
    }
  }

  /** There is something to fetch for workers that poll queue q. */
  ghost predicate Stocked(db: Db, q: string) {
    db.Ranks(PriorityKey(q)) != [] || db.List(QueueKey(q)) != []
  }

  lemma IdleFinds(cfg: Config, s: State, w: WorkerId, q: string) returns (path: seq<Step>)
    requires w in s.workers && s.workers[w].Idle? && s.db.flags == {} && Stocked(s.db, q)
    ensures LeadsToWork(cfg, s, path)
  {
    var poll := WorkerStep(w, Poll(q, false));
    if s.db.Ranks(PriorityKey(q)) != [] {
      WorkNow(cfg, s, poll);
      path := [poll];
    } else {
      var rest := CheckerFinds(cfg, After(cfg, s, poll), w, q);
      WorkLater(cfg, s, poll, rest);
      path := [poll] + rest;
    }
  }

  lemma CheckerFinds(cfg: Config, s: State, w: WorkerId, q: string) returns (path: seq<Step>)
    requires w in s.workers && s.workers[w] == CheckingPause(q) && s.db.flags == {} && s.db.List(QueueKey(q)) != []
    ensures LeadsToWork(cfg, s, path)
  {
    var go := WorkerStep(w, Go);
    var s' := After(cfg, s, go);
    assert s'.workers[w] == Popping(q) && s'.db == s.db;
    WorkNow(cfg, s', go);
    WorkLater(cfg, s, go, [go]);
    path := [go] + [go];
  }

  /** Any polling worker comes round to a queue in which there is something. */
  lemma PollingFinds(cfg: Config, s: State, w: WorkerId, q: string) returns (path: seq<Step>)
    requires w in s.workers && Polling(s.workers[w]) && s.db.flags == {} && Stocked(s.db, q)
    ensures LeadsToWork(cfg, s, path)
    decreases if s.workers[w].Idle? then 0 else if s.workers[w].Popping? then 1 else 2
  {
    var go := WorkerStep(w, Go);
    if s.workers[w].Idle? {
      path := IdleFinds(cfg, s, w, q);
    } else if Productive(s, go) {
      WorkNow(cfg, s, go);
      path := [go];
    } else {
      var s' := After(cfg, s, go);
      assert s'.db == s.db;
      var rest := PollingFinds(cfg, s', w, q);
      WorkLater(cfg, s, go, rest);
      path := [go] + rest;
    }
  }

  // ---- what rest means for clients, workers and tasks ----

  lemma ClientsFinished(cfg: Config, s: State, x: Id)
    requires AtRest(cfg, s) && x in s.clients && x in cfg.tasks
    ensures s.clients[x].Accepted? || s.clients[x].Rejected?
  {
    if !s.clients[x].Accepted? && !s.clients[x].Rejected? {
      WorkNow(cfg, s, ClientStep(x, 0));
    }
  }

  lemma WorkersPoll(cfg: Config, s: State, w: WorkerId)
    requires AtRest(cfg, s) && w in s.workers
    ensures Polling(s.workers[w])
  {
    if !Polling(s.workers[w]) {
      var step := BusyWorks(cfg, s, w);
      WorkNow(cfg, s, step);
    }
  }

  /** A set that the scheduler looks at is empty: at some time its first task is due. */
  lemma NothingScheduled(cfg: Config, s: State, q: string)
    requires AtRest(cfg, s)
    ensures s.db.Ranks(RetryKey(q)) == [] && s.db.Ranks(DelayedKey(q)) == []
  {
    if s.db.Ranks(RetryKey(q)) != [] {
      WorkNow(cfg, s, RetryTick(q, s.db.Ranks(RetryKey(q))[0].score));
    }
    if s.db.Ranks(DelayedKey(q)) != [] {
      WorkNow(cfg, s, DelayedTick(q, s.db.Ranks(DelayedKey(q))[0].score));
    }
  }

  lemma NothingStocked(cfg: Config, s: State, w: WorkerId, q: string)
    requires AtRest(cfg, s) && s.db.flags == {} && w in s.workers
    ensures !Stocked(s.db, q)
  {
    if Stocked(s.db, q) {
      WorkersPoll(cfg, s, w);
      var path := PollingFinds(cfg, s, w, q);
    }
  }

  // ---- tasks do not vanish ----

  /** x is on a queue, in a sorted set that is emptied onto one, or with a worker. */
  ghost predicate Present(s: State, x: Id) {
    || (exists q: string :: x in s.db.List(QueueKey(q)))
    || (exists k: Key :: Scheduling(k) && Has(s.db.Ranks(k), x))
    || (exists w :: w in s.workers && Holds(s.workers[w]) == Some(x))
  }

  /** The client of x has put it on its way (not in a group). */
  ghost predicate Sent(cfg: Config, s: State, x: Id) {
    && x in cfg.tasks && x in s.clients && s.clients[x].Accepted?
    && (x in cfg.delayed || (cfg.tasks[x].dependsOn == [] && cfg.tasks[x].group.None?))
  }

  lemma SentNow(cfg: Config, s: State, step: Step, x: Id)
    requires Kept(cfg, s) && Enabled(cfg, s, step) && !Sent(cfg, s, x) && Sent(cfg, After(cfg, s, step), x)
    ensures Present(After(cfg, s, step), x)
  {
    var c, s' := CommandOf(cfg, s, step), After(cfg, s, step);
    assert ClientRight(cfg, x, s.clients[x]);
    assert ((c.RPush? && c.k.QueueKey?) || (c.ZAdd? && Scheduling(c.k))) && c.id == x;
    if c.ZAdd? {
      HasZAdd(s.db.Ranks(c.k), x, c.score, x);
      assert Has(s'.db.Ranks(c.k), x);
    } else {
      assert x in s'.db.List(QueueKey(c.k.name));
    }
  }

  lemma FreedNow(cfg: Config, s: State, step: Step, x: Id)
    requires Enabled(cfg, s, step) && RanksValid(s.db) && Occurs(cfg, s, step, Frees(x))
    ensures Present(After(cfg, s, step), x)
  {
    var w, c := s.workers[step.w], CommandOf(cfg, s, step);
    var q := if w.Pushing? then w.queue else s.db.tasks[x].queue;
    EnabledOrdered(cfg, s, step);
    TimesExact(s.db, c, QueueKey(q), x);
    assert x in After(cfg, s, step).db.List(QueueKey(q));
  }

  lemma ListedStays(cfg: Config, s: State, step: Step, x: Id, q: string)
    requires Enabled(cfg, s, step) && x in s.db.List(QueueKey(q))
    ensures Present(After(cfg, s, step), x)
  {
    var c, s' := CommandOf(cfg, s, step), After(cfg, s, step);
    EnabledOrdered(cfg, s, step);
    TakingKeys(cfg, s, step);
    if c.LPop? && c.k == QueueKey(q) {
      var l := s.db.List(QueueKey(q));
      if l[0] == x {
        assert Holds(s'.workers[step.w]) == Some(x);
      } else {
        assert l == [l[0]] + l[1..];
        assert x in s'.db.List(QueueKey(q));
      }
    } else {
      ListGrows(s.db, c, QueueKey(q));
      assert x in s'.db.List(QueueKey(q));
    }
  }

  lemma ScoredStays(cfg: Config, s: State, step: Step, x: Id, k: Key)
    requires Enabled(cfg, s, step) && RanksValid(s.db) && Scheduling(k) && Has(s.db.Ranks(k), x)
    ensures Present(After(cfg, s, step), x)
  {
    var c, s' := CommandOf(cfg, s, step), After(cfg, s, step);
    EnabledOrdered(cfg, s, step);
    RanksExact(s.db, c, k, x);
    if Unranks(s.db, c, k, x) {
      UnrankedStays(cfg, s, step, x, k);
    } else {
      assert Has(s'.db.Ranks(k), x);
    }
  }

  lemma UnrankedStays(cfg: Config, s: State, step: Step, x: Id, k: Key)
    requires Enabled(cfg, s, step) && Unranks(s.db, CommandOf(cfg, s, step), k, x)
    ensures Present(After(cfg, s, step), x)
  {
    var c, s' := CommandOf(cfg, s, step), After(cfg, s, step);
    if c.PDequeue? {
      assert Holds(s'.workers[step.w]) == Some(x);
    } else {
      MoveLists(s.db, c.k, c.dest, c.now, x);
      assert x in s'.db.List(QueueKey(step.queue));
    }
  }

  lemma HeldStays(cfg: Config, s: State, step: Step, x: Id, w: WorkerId)
    requires Kept(cfg, s) && Enabled(cfg, s, step) && w in s.workers && Holds(s.workers[w]) == Some(x)
    ensures Present(After(cfg, s, step), x) || Occurs(cfg, s, step, Finishes(x))
  {
    var c, s' := CommandOf(cfg, s, step), After(cfg, s, step);
    if step.WorkerStep? && step.w == w {
      assert WorkerRight(cfg, s, s.workers[w]) && RecordKept(cfg, x, s.db.tasks[x]);
      if s.workers[w].Rescheduling? {
        HasZAdd(s.db.Ranks(c.k), x, c.score, x);
        assert Scheduling(c.k) && Has(s'.db.Ranks(c.k), x);
      } else {
        HolderGoesOn(cfg, s.db, s.workers[w], step.choice, x);
        assert Holds(s'.workers[w]) == Some(x) || Occurs(cfg, s, step, Finishes(x));
      }
    } else {
      assert Holds(s'.workers[w]) == Some(x);
    }
  }

  lemma HolderGoesOn(cfg: Config, db: Db, w: Worker, c: Choice, x: Id)
    requires Holds(w) == Some(x) && !w.Rescheduling? && Fits(db, w, c)
    requires w.Loading? ==> x in db.tasks && db.tasks[x].data.id == x
    requires w.Unlisting? || w.Saving? ==> Possible(w.task, w.status)
    ensures Holds(WorkerNext(cfg, db, w, c)) == Some(x) || By(cfg, db, w, c, Finishes(x))
  {
  }

  lemma PresentStays(cfg: Config, s: State, step: Step, x: Id)
    requires Kept(cfg, s) && Enabled(cfg, s, step) && Present(s, x)
    ensures Present(After(cfg, s, step), x) || Occurs(cfg, s, step, Finishes(x))
  {
    if q: string :| x in s.db.List(QueueKey(q)) {
      ListedStays(cfg, s, step, x, q);
    } else if k: Key :| Scheduling(k) && Has(s.db.Ranks(k), x) {
      ScoredStays(cfg, s, step, x, k);
    } else {
      var w :| w in s.workers && Holds(s.workers[w]) == Some(x);
      HeldStays(cfg, s, step, x, w);
    }
  }

  lemma PresentNext(cfg: Config, run: seq<State>, steps: seq<Step>, n: nat, x: Id)
    requires IsRun(cfg, run, steps) && 0 < n <= |steps|
    requires Present(run[n - 1], x) || (Sent(cfg, run[n], x) && !Sent(cfg, run[n - 1], x)) || Occurs(cfg, run[n - 1], steps[n - 1], Frees(x))
    ensures Present(run[n], x) || Occurs(cfg, run[n - 1], steps[n - 1], Finishes(x))
  {
    var s, s' := StatesAt(cfg, run, steps, n);
    if Present(s, x) {
      PresentStays(cfg, s, steps[n - 1], x);
    } else if Occurs(cfg, s, steps[n - 1], Frees(x)) {
      FreedNow(cfg, s, steps[n - 1], x);
    } else {
      SentNow(cfg, s, steps[n - 1], x);
    }
  }

  /** In every run a task that was sent or freed is on its way, or got a final result. */
  lemma {:induction false} NothingVanishes(cfg: Config, run: seq<State>, steps: seq<Step>, n: nat, x: Id)
    requires IsRun(cfg, run, steps) && n <= |steps|
    requires Sent(cfg, run[n], x) || Count(cfg, run, steps, n, Frees(x)) >= 1
    ensures Present(run[n], x) || Count(cfg, run, steps, n, Finishes(x)) >= 1
  {
    assert n > 0;
    if Sent(cfg, run[n - 1], x) || Count(cfg, run, steps, n - 1, Frees(x)) >= 1 {
      NothingVanishes(cfg, run, steps, n - 1, x);
    }
    if Count(cfg, run, steps, n - 1, Finishes(x)) == 0 {
      PresentNext(cfg, run, steps, n, x);
    }
  }

  lemma NobodyPresent(cfg: Config, s: State, x: Id, w: WorkerId)
    requires RanksKept(cfg, s) && AtRest(cfg, s) && s.db.flags == {} && w in s.workers
    ensures !Present(s, x)
  {
    forall q ensures x !in s.db.List(QueueKey(q)) { NothingStocked(cfg, s, w, q); }
    forall k: Key | Scheduling(k) ensures !Has(s.db.Ranks(k), x) {
      NothingStocked(cfg, s, w, k.name);
      NothingScheduled(cfg, s, k.name);
    }
    forall v | v in s.workers ensures Holds(s.workers[v]) != Some(x) { WorkersPoll(cfg, s, v); }
  }

  // ---- what is left ----

  /** x waits for good: some dependency never listed it, and none failed it. */
  ghost predicate WaitsForGood(cfg: Config, run: seq<State>, steps: seq<Step>, n: nat, x: Id)
    requires n <= |steps| < |run|
  {
    && Count(cfg, run, steps, n, Dooms(x)) == 0
    && exists y :: y in cfg.Depends(x) && Count(cfg, run, steps, n, Names(y, x)) == 0
  }

  /** Refused as a duplicate, or put in a group. */
  ghost predicate SetAside(cfg: Config, s: State, x: Id)
    requires x in cfg.tasks && x in s.clients
  {
    s.clients[x].Rejected? || (cfg.Depends(x) == [] && x !in cfg.delayed && cfg.tasks[x].group.Some?)
  }

  lemma NobodyIn(cfg: Config, s: State, p: Part)
    requires AtRest(cfg, s)
    ensures Workforce(s, p) == {}
  {
    forall w | w in s.workers ensures !In(s.workers[w], p) { WorkersPoll(cfg, s, w); }
  }

  /** At rest, whoever was listed to be failed is on a dead list. */
  lemma DoomedAreBuried(cfg: Config, run: seq<State>, steps: seq<Step>, n: nat, x: Id)
    requires IsRun(cfg, run, steps) && n <= |steps| && AtRest(cfg, run[n])
    ensures Count(cfg, run, steps, n, Dooms(x)) == Count(cfg, run, steps, n, Buries(x))
    ensures Count(cfg, run, steps, n, Dooms(x)) >= 1 <==> OnDeadList(run[n], x)
  {
    FlowsThroughout(cfg, run, steps, n, ToDoom(x));
    FlowsThroughout(cfg, run, steps, n, ToBury(x));
    NobodyIn(cfg, run[n], ToDoom(x));
    NobodyIn(cfg, run[n], ToBury(x));
    BuriedForGood(cfg, run, steps, n, x);
  }

  /** At rest, a task that nobody failed was freed exactly if all its dependencies listed it. */
  lemma FreedAtRest(cfg: Config, run: seq<State>, steps: seq<Step>, n: nat, x: Id)
    requires IsRun(cfg, run, steps) && n <= |steps| && AtRest(cfg, run[n]) && x in cfg.tasks && cfg.Depends(x) != []
    requires Count(cfg, run, steps, n, Dooms(x)) == 0
    ensures Count(cfg, run, steps, n, Frees(x)) >= 1 <==> !WaitsForGood(cfg, run, steps, n, x)
  {
    forall w | w in run[n].workers ensures !Releasing(run[n].workers[w]) { WorkersPoll(cfg, run[n], w); }
    ReleasedIffAllListIt(cfg, run, steps, n, x);
  }

  /**
   * Main result: when any run has come to rest with no queue paused and at least one worker, every
   * task got a final result, or is on a dead list because a dependency died, or was refused as a
   * duplicate or put in a group - or it waits for good, which is so exactly if some dependency
   * never listed it and none failed it; and a task that waits is on no queue and with no worker.
   */
  lemma NothingLeftBehind(cfg: Config, run: seq<State>, steps: seq<Step>, n: nat, x: Id)
    requires IsRun(cfg, run, steps) && n <= |steps| && x in cfg.tasks
    requires AtRest(cfg, run[n]) && run[n].db.flags == {} && cfg.workers != {}
    ensures x in run[n].clients
    ensures || Count(cfg, run, steps, n, Finishes(x)) >= 1
            || OnDeadList(run[n], x)
            || SetAside(cfg, run[n], x)
            || WaitsForGood(cfg, run, steps, n, x)
    ensures cfg.Depends(x) != [] && WaitsForGood(cfg, run, steps, n, x) ==>
      Count(cfg, run, steps, n, Frees(x)) == 0 && !AtLarge(run[n], x) && !OnDeadList(run[n], x)
  {
    KeptThroughout(cfg, run, steps, n);
    ClientsFinished(cfg, run[n], x);
    var w :| w in cfg.workers;
    NobodyPresent(cfg, run[n], x, w);
    DoomedAreBuried(cfg, run, steps, n, x);
    if Sent(cfg, run[n], x) || Count(cfg, run, steps, n, Frees(x)) >= 1 { NothingVanishes(cfg, run, steps, n, x); }
    if cfg.Depends(x) != [] && Count(cfg, run, steps, n, Dooms(x)) == 0 {
      FreedAtRest(cfg, run, steps, n, x);
      if AtLarge(run[n], x) { OnlyFreedRuns(cfg, run, steps, n, x); }
    }
  }

  // ---- rest is never out of reach ----

  /** The longer run starts with the shorter one, and in the rest of it no queue is paused or resumed. */
  ghost predicate Extends(run: seq<State>, steps: seq<Step>, run': seq<State>, steps': seq<Step>) {
    && run <= run' && steps <= steps'
    && forall i :: |steps| <= i < |steps'| ==> !steps'[i].PauseQueue? && !steps'[i].ResumeQueue?
  }

  lemma {:induction false} SameProductive(run: seq<State>, steps: seq<Step>, run': seq<State>, steps': seq<Step>, n: nat)
    requires |run| == |steps| + 1 && |run'| == |steps'| + 1 && Extends(run, steps, run', steps') && n <= |steps|
    ensures ProductiveSteps(run', steps', n) == ProductiveSteps(run, steps, n)
  {
    if n > 0 {
      SameProductive(run, steps, run', steps', n - 1);
      assert run[n - 1] == run'[n - 1] && steps[n - 1] == steps'[n - 1];
    }
  }

  lemma {:induction false} Follow(cfg: Config, run: seq<State>, steps: seq<Step>, path: seq<Step>)
    returns (run': seq<State>, steps': seq<Step>)
    requires IsRun(cfg, run, steps) && LeadsToWork(cfg, run[|steps|], path)
    ensures IsRun(cfg, run', steps') && Extends(run, steps, run', steps')
    ensures ProductiveSteps(run', steps', |steps'|) > ProductiveSteps(run, steps, |steps|)
    decreases |path|
  {
    var s, step := run[|steps|], path[0];
    OneMore(cfg, run, steps, step);
    run', steps' := run + [After(cfg, s, step)], steps + [step];
    SameProductive(run, steps, run', steps', |steps|);
    if !Productive(s, step) {
      run', steps' := Follow(cfg, run', steps', path[1..]);
    }
  }

  lemma WorkerRoster(workers: set<WorkerId>) returns (ws: seq<WorkerId>)
    ensures forall i, j :: 0 <= i < j < |ws| ==> ws[i] != ws[j]
    ensures forall w :: w in ws <==> w in workers
    decreases workers
  {
    if workers == {} {
      ws := [];
    } else {
      var w :| w in workers;
      var rest := WorkerRoster(workers - {w});
      assert w !in rest;
      ws := rest + [w];
    }
  }

  /**
   * Every run can be continued, without pausing or resuming a queue, until the system is at rest,
   * so NothingLeftBehind is never out of reach.
   */
  lemma RestIsReachable(cfg: Config, run: seq<State>, steps: seq<Step>)
    requires IsRun(cfg, run, steps)
    ensures exists run', steps' ::
      IsRun(cfg, run', steps') && Extends(run, steps, run', steps') && AtRest(cfg, run'[|steps'|])
  {
    var ids := Enumeration(cfg.tasks.Keys);
    var ws := WorkerRoster(cfg.workers);
    var qs := Enumeration(cfg.queues);
    var run', steps' := ComeToRest(cfg, run, steps, ids, ws, qs);
  }

  lemma {:induction false} ComeToRest(cfg: Config, run: seq<State>, steps: seq<Step>, ids: seq<Id>, ws: seq<WorkerId>, qs: seq<string>)
    returns (run': seq<State>, steps': seq<Step>)
    requires IsRun(cfg, run, steps) && Roster(cfg, ids, ws, qs)
    ensures IsRun(cfg, run', steps') && Extends(run, steps, run', steps') && AtRest(cfg, run'[|steps'|])
    decreases Budget(cfg, ids, ws) - ProductiveSteps(run, steps, |steps|)
  {
    run', steps' := run, steps;
    if !AtRest(cfg, run[|steps|]) {
      var path :| LeadsToWork(cfg, run[|steps|], path);
      run', steps' := Follow(cfg, run, steps, path);
      BoundedWork(cfg, run', steps', |steps'|, ids, ws, qs);
      run', steps' := ComeToRest(cfg, run', steps', ids, ws, qs);
    }
  }
}
