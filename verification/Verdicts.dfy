/** What a waiting task gets: freed or buried, and exactly when both. */
module Verdicts {
  import opened Basics
  import opened Keys
  import opened Tasks
  import opened SortedSets
  import opened Store
  import opened Commands
  import opened Protocol
  import opened Bookkeeping
  import opened Events
  import opened Flows
  import opened DependencySafety

  // ---- who gets on a dead list ----

  ghost predicate OnDeadList(s: State, d: Id) {
    exists k: Key :: k.DeadKey? && d in s.db.List(k)
  }

  /** A dead list changes only when a worker pushes a task that it has condemned. */
  lemma DeadListMoves(cfg: Config, s: State, step: Step, k: Key, d: Id)
    requires Enabled(cfg, s, step) && k.DeadKey?
    ensures var c := CommandOf(cfg, s, step);
            d in After(cfg, s, step).db.List(k) <==> d in s.db.List(k) || (c.LPush? && c.k == k && c.id == d)
  {
    var c := CommandOf(cfg, s, step);
    EnabledOrdered(cfg, s, step);
    TakingKeys(cfg, s, step);
    if c.ReleaseAll? {
      ReleaseLists(s.db, c.done, c.order, k, d);
    } else if !(c.LPush? && c.k == k) {
      DeadListSame(cfg, s, step, k);
    }
  }

  lemma DeadListSame(cfg: Config, s: State, step: Step, k: Key)
    requires Enabled(cfg, s, step) && k.DeadKey? && !CommandOf(cfg, s, step).ReleaseAll?
    requires !(CommandOf(cfg, s, step).LPush? && CommandOf(cfg, s, step).k == k)
    ensures After(cfg, s, step).db.List(k) == s.db.List(k)
  {
    TakingKeys(cfg, s, step);
    ListSame(s.db, CommandOf(cfg, s, step), k);
  }

  lemma BuriedNext(cfg: Config, s: State, step: Step, s': State, d: Id)
    requires Next(cfg, s, step, s')
    ensures OnDeadList(s', d) <==> OnDeadList(s, d) || Occurs(cfg, s, step, Buries(d))
  {
    forall k: Key | k.DeadKey?
      ensures d in s'.db.List(k) <==>
              d in s.db.List(k) || (CommandOf(cfg, s, step).LPush? && CommandOf(cfg, s, step).k == k && CommandOf(cfg, s, step).id == d)
    {
      DeadListMoves(cfg, s, step, k, d);
    }
    if Occurs(cfg, s, step, Buries(d)) {
      assert d in s'.db.List(DeadKey(s.workers[step.w].queue));
    }
  }

  /** In every run a task is on a dead list exactly if it was buried: nothing takes it off again. */
  lemma {:induction false} BuriedForGood(cfg: Config, run: seq<State>, steps: seq<Step>, n: nat, d: Id)
    requires IsRun(cfg, run, steps) && n <= |steps|
    ensures OnDeadList(run[n], d) <==> Count(cfg, run, steps, n, Buries(d)) >= 1
  {
    if n > 0 {
      BuriedForGood(cfg, run, steps, n - 1, d);
      RunStep(cfg, run, steps, n);
      BuriedNext(cfg, run[n - 1], steps[n - 1], run[n], d);
    }
  }

  /** In every run only tasks with dependencies are ever on a dead list; a task's own failures do not put it there. */
  lemma OnlyDependentsBuried(cfg: Config, run: seq<State>, steps: seq<Step>, n: nat, d: Id)
    requires IsRun(cfg, run, steps) && n <= |steps| && OnDeadList(run[n], d)
    ensures cfg.Depends(d) != []
  {
    BuriedForGood(cfg, run, steps, n, d);
    Happened(cfg, run, steps, n, Buries(d));
    var j :| 0 <= j < n && Occurs(cfg, run[j], steps[j], Buries(d));
    KnownAt(cfg, run, steps, j, steps[j].w, d);
  }

  // ---- who gets to run ----

  /** d is on a list other than a dead list, in a sorted set, or held by a worker. */
  ghost predicate AtLarge(s: State, d: Id) {
    || (exists k: Key :: !k.DeadKey? && d in s.db.List(k))
    || (exists k: Key :: Has(s.db.Ranks(k), d))
    || (exists w :: w in s.workers && Holds(s.workers[w]) == Some(d))
  }

  lemma LargeBefore(cfg: Config, s: State, step: Step, d: Id)
    requires Kept(cfg, s) && cfg.Depends(d) != [] && Enabled(cfg, s, step) && AtLarge(After(cfg, s, step), d)
    ensures AtLarge(s, d) || Occurs(cfg, s, step, Frees(d))
  {
    var s', c := After(cfg, s, step), CommandOf(cfg, s, step);
    EnabledOrdered(cfg, s, step);
    ActorsRight(cfg, s, step);
    if k: Key :| !k.DeadKey? && d in s'.db.List(k) {
      ListFrame(s.db, c, k, d);
      if d !in s.db.List(k) { ListedAtLarge(cfg, s, step, k, d); }
    } else if k: Key :| Has(s'.db.Ranks(k), d) {
      RanksFrame(s.db, c, k, d);
      if !Has(s.db.Ranks(k), d) { ScoredAtLarge(cfg, s, step, d); }
    } else {
      var w :| w in s'.workers && Holds(s'.workers[w]) == Some(d);
      if step.WorkerStep? && w == step.w {
        HeldAtLarge(cfg, s, s.workers[w], step.choice, d);
        assert Holds(s.workers[w]) == Some(d) ==> AtLarge(s, d);
      }
    }
  }

  lemma ListedAtLarge(cfg: Config, s: State, step: Step, k: Key, d: Id)
    requires RanksKept(cfg, s) && SubmitterRight(cfg, s, step) && cfg.Depends(d) != [] && Enabled(cfg, s, step)
    requires !k.DeadKey? && Commands.Lists(s.db, CommandOf(cfg, s, step), k, d)
    ensures AtLarge(s, d) || Occurs(cfg, s, step, Frees(d))
  {
    var c := CommandOf(cfg, s, step);
    if c.MoveDue? {
      TailHas(s.db.Ranks(c.k), BatchCount(s.db.Ranks(c.k), c.now, BATCH_SIZE), d);
    } else if c.PDequeue? {
      assert Has(s.db.Ranks(PriorityKey(c.queue)), d);
    } else if c.LPush? {
      assert Holds(s.workers[step.w]) == Some(d);
    }
  }

  lemma ScoredAtLarge(cfg: Config, s: State, step: Step, d: Id)
    requires SubmitterRight(cfg, s, step) && cfg.Depends(d) != [] && Enabled(cfg, s, step)
    requires CommandOf(cfg, s, step).ZAdd? && CommandOf(cfg, s, step).id == d
    ensures AtLarge(s, d)
  {
    assert step.WorkerStep? && Holds(s.workers[step.w]) == Some(d);
  }

  /** A worker gets hold of a task only from a queue. */
  lemma HeldAtLarge(cfg: Config, s: State, w: Worker, c: Choice, d: Id)
    requires cfg.Valid() && (forall x :: x in s.db.tasks ==> RecordKept(cfg, x, s.db.tasks[x]))
    requires Holds(WorkerNext(cfg, s.db, w, c)) == Some(d)
    ensures AtLarge(s, d) || Holds(w) == Some(d)
  {
    if w.Idle? && c.Poll? && s.db.PDequeue(c.queue).1.Got? {
      assert s.db.Ranks(PriorityKey(c.queue))[0].id == d;
      assert Has(s.db.Ranks(PriorityKey(c.queue)), d);
    } else if w.Popping? && s.db.List(QueueKey(w.queue)) != [] {
      assert d in s.db.List(QueueKey(w.queue));
    } else if w.Loading? && w.id in s.db.tasks {
      assert RecordKept(cfg, w.id, s.db.tasks[w.id]);
    }
  }

  lemma LargeStep(cfg: Config, run: seq<State>, steps: seq<Step>, n: nat, d: Id)
    requires IsRun(cfg, run, steps) && 0 < n <= |steps| && cfg.Depends(d) != [] && AtLarge(run[n], d)
    ensures AtLarge(run[n - 1], d) || Occurs(cfg, run[n - 1], steps[n - 1], Frees(d))
  {
    var s, s' := StatesAt(cfg, run, steps, n);
    LargeBefore(cfg, s, steps[n - 1], d);
  }

  lemma StartNowhere(cfg: Config, s: State, d: Id)
    requires Init(cfg, s)
    ensures !AtLarge(s, d)
  {
    EmptyStore(s.db);
  }

  /** In every run a task with dependencies gets to a queue or to a worker only by being freed. */
  lemma {:induction false} OnlyFreedRuns(cfg: Config, run: seq<State>, steps: seq<Step>, n: nat, d: Id)
    requires IsRun(cfg, run, steps) && n <= |steps| && cfg.Depends(d) != [] && AtLarge(run[n], d)
    ensures Count(cfg, run, steps, n, Frees(d)) >= 1
  {
    if n == 0 {
      StartNowhere(cfg, run[0], d);
    } else {
      LargeStep(cfg, run, steps, n, d);
      if AtLarge(run[n - 1], d) { OnlyFreedRuns(cfg, run, steps, n - 1, d); }
    }
  }

  // ---- once the set is deleted ----

  /** d is linked, and nothing is pending for it: then nothing ever will be. */
  ghost predicate Emptied(s: State, d: Id) {
    d in s.clients && Linking(s.clients[d]) && s.db.Members(PendingDepsKey(d)) == {}
  }

  lemma EmptiedStays(cfg: Config, s: State, step: Step, s': State, d: Id)
    requires cfg.Valid() && Next(cfg, s, step, s') && Emptied(s, d)
    ensures Emptied(s', d)
    ensures Occurs(cfg, s, step, Sees(d)) <==> Occurs(cfg, s, step, Asks(d)) && (s.workers[step.w].Counting? || d in s.db.tasks)
  {
    EnabledOrdered(cfg, s, step);
    SetFrame(s.db, CommandOf(cfg, s, step), PendingDepsKey(d));
  }

  lemma ForgetsEmpties(cfg: Config, s: State, step: Step, s': State, d: Id)
    requires Next(cfg, s, step, s') && Occurs(cfg, s, step, Forgets(d)) && d in s.clients && Linking(s.clients[d])
    ensures Emptied(s', d)
  {
    SetFrame(s.db, CommandOf(cfg, s, step), PendingDepsKey(d));
  }

  /** From then on every look at what is pending for d finds nothing. */
  lemma {:induction false} AsksAfter(cfg: Config, run: seq<State>, steps: seq<Step>, j: nat, n: nat, d: Id)
    requires IsRun(cfg, run, steps) && j < n <= |steps| && Occurs(cfg, run[j], steps[j], Forgets(d))
    ensures Emptied(run[n], d)
    ensures Count(cfg, run, steps, n, Sees(d)) - Count(cfg, run, steps, j, Sees(d))
         == Count(cfg, run, steps, n, Asks(d)) - Count(cfg, run, steps, j, Asks(d))
  {
    RunStep(cfg, run, steps, n);
    if n == j + 1 {
      KnownAt(cfg, run, steps, j, steps[j].w, d);
      ForgetsEmpties(cfg, run[j], steps[j], run[n], d);
    } else {
      AsksAfter(cfg, run, steps, j, n - 1, d);
      AsksNext(cfg, run, steps, n, d);
    }
  }

  lemma AsksNext(cfg: Config, run: seq<State>, steps: seq<Step>, n: nat, d: Id)
    requires IsRun(cfg, run, steps) && 0 < n <= |steps| && Emptied(run[n - 1], d)
    ensures Emptied(run[n], d)
    ensures Occurs(cfg, run[n - 1], steps[n - 1], Sees(d)) <==> Occurs(cfg, run[n - 1], steps[n - 1], Asks(d))
  {
    RunStep(cfg, run, steps, n);
    RecordAt(cfg, run, steps, n - 1, d);
    EmptiedStays(cfg, run[n - 1], steps[n - 1], run[n], d);
  }

  /**
   * After pending_deps(d) was deleted by a worker that failed d (step j), d is freed once for each
   * worker that asks whether it is free - whatever else d depends on: deleting the set makes it
   * read as nothing left to wait for. (Workers between their SCARD and their push are counted.)
   */
  lemma ForgottenIsFree(cfg: Config, run: seq<State>, steps: seq<Step>, j: nat, n: nat, d: Id)
    requires IsRun(cfg, run, steps) && j < n <= |steps| && Occurs(cfg, run[j], steps[j], Forgets(d))
    ensures run[n].db.Members(PendingDepsKey(d)) == {}
    ensures Count(cfg, run, steps, n, Frees(d)) + |Workforce(run[n], ToPush(d))|
         == Count(cfg, run, steps, j, Sees(d)) + (Count(cfg, run, steps, n, Asks(d)) - Count(cfg, run, steps, j, Asks(d)))
  {
    AsksAfter(cfg, run, steps, j, n, d);
    FlowsThroughout(cfg, run, steps, n, ToPush(d));
  }

  // ---- until the set is deleted ----

  /**
   * As long as the dependency x of d has not listed d to release it, and nobody has forgotten
   * what d waits for, x is pending for d, and so nobody sees d free.
   */
  ghost predicate Holding(cfg: Config, s: State, x: Id, d: Id) {
    && d in s.clients
    && (Linking(s.clients[d]) ==> x in s.db.Members(PendingDepsKey(d)))
    && (s.clients[d].AddingPending? ==>
          forall j :: 0 <= j < s.clients[d].i && j < |cfg.Depends(d)| && cfg.Depends(d)[j] == x ==> x in s.db.Members(PendingDepsKey(d)))
    && (forall w :: w in s.workers ==> !Ignores(s.workers[w], x, d))
  }

  /** The worker releases d for x, or has seen d free. */
  predicate Ignores(w: Worker, x: Id, d: Id) {
    (Releasing(w) && Knows(w, d) && w.done == x) || ((w.Fetching? || w.Pushing? || w.Clearing?) && w.dep == d)
  }

  lemma HoldingWorker(cfg: Config, s: State, w: Worker, c: Choice, x: Id, d: Id)
    requires TailRight(cfg, s, w) && Fits(s.db, w, c) && d in s.clients && !Ignores(w, x, d)
    requires Linking(s.clients[d]) ==> x in s.db.Members(PendingDepsKey(d))
    requires !By(cfg, s.db, w, c, Names(x, d))
    ensures !Ignores(WorkerNext(cfg, s.db, w, c), x, d)
  {
    if Tail(w).Some? && !w.ReleaseListing? && !w.FailListing? {
      assert w.Counting? && w.dep == d ==> Knows(w, d);
      HoldingLoop(cfg, s.db, w, c, x, d);
    } else if !w.ReleaseListing? {
      HoldersKnowNone(cfg, s.db, w, c, d);
    }
  }

  lemma HoldingLoop(cfg: Config, db: Db, w: Worker, c: Choice, x: Id, d: Id)
    requires Tail(w).Some? && !w.ReleaseListing? && !w.FailListing? && !Ignores(w, x, d)
    requires w.Counting? && w.dep == d ==> x in db.Members(PendingDepsKey(d))
    ensures !Ignores(WorkerNext(cfg, db, w, c), x, d)
  {
    KnowsLess(cfg, db, w, c, d);
  }

  lemma HoldersKnowNone(cfg: Config, db: Db, w: Worker, c: Choice, d: Id)
    requires Tail(w).None? || w.FailListing?
    ensures var w' := WorkerNext(cfg, db, w, c); Releasing(w') ==> w'.ReleaseListing? && !Knows(w', d)
  {
  }

  lemma HoldingPending(cfg: Config, s: State, step: Step, x: Id, d: Id)
    requires step.WorkerStep? && Enabled(cfg, s, step) && !Ignores(s.workers[step.w], x, d)
    requires !Occurs(cfg, s, step, Names(x, d)) && !Occurs(cfg, s, step, Forgets(d))
    ensures x in s.db.Members(PendingDepsKey(d)) ==> x in After(cfg, s, step).db.Members(PendingDepsKey(d))
  {
    EnabledOrdered(cfg, s, step);
    SetFrame(s.db, CommandOf(cfg, s, step), PendingDepsKey(d));
  }

  lemma HoldingNext(cfg: Config, s: State, step: Step, s': State, x: Id, d: Id)
    requires Kept(cfg, s) && x in cfg.Depends(d) && Holding(cfg, s, x, d) && Next(cfg, s, step, s')
    requires !Occurs(cfg, s, step, Names(x, d)) && !Occurs(cfg, s, step, Forgets(d))
    ensures Holding(cfg, s', x, d) && !Occurs(cfg, s, step, Sees(d))
  {
    if step.WorkerStep? {
      var w := s.workers[step.w];
      assert WorkerRight(cfg, s, w);
      HoldingWorker(cfg, s, w, step.choice, x, d);
      HoldingPending(cfg, s, step, x, d);
      assert Current(w) == Some(d) ==> Knows(w, d);
      assert ScriptNames(cfg, w, step.choice, d) ==> Links(cfg, s, d, w.done);
      HoldingUnseen(cfg, s.db, s.clients[d], w, step.choice, x, d);
    } else {
      OtherHolds(cfg, s, step, x, d);
    }
  }

  lemma OtherHolds(cfg: Config, s: State, step: Step, x: Id, d: Id)
    requires cfg.Valid() && x in cfg.Depends(d) && Holding(cfg, s, x, d) && ClientsRight(cfg, s)
    requires !step.WorkerStep? && Enabled(cfg, s, step)
    ensures Holding(cfg, After(cfg, s, step), x, d)
  {
    if step.ClientStep? && step.id == d {
      SetFrame(s.db, CommandOf(cfg, s, step), PendingDepsKey(d));
    } else {
      PendingSame(cfg, s, step, d);
    }
  }

  lemma HoldingUnseen(cfg: Config, db: Db, client: Client, w: Worker, c: Choice, x: Id, d: Id)
    requires Fits(db, w, c) && !By(cfg, db, w, c, Names(x, d))
    requires Linking(client) ==> x in db.Members(PendingDepsKey(d))
    requires (Current(w) == Some(d) || ScriptNames(cfg, w, c, d)) ==> Linking(client)
    ensures !By(cfg, db, w, c, Sees(d))
  {
  }

  lemma {:induction false} HoldingThroughout(cfg: Config, run: seq<State>, steps: seq<Step>, n: nat, x: Id, d: Id)
    requires IsRun(cfg, run, steps) && n <= |steps| && d in cfg.tasks && x in cfg.Depends(d)
    requires Count(cfg, run, steps, n, Names(x, d)) == 0 && Count(cfg, run, steps, n, Forgets(d)) == 0
    ensures Holding(cfg, run[n], x, d) && Count(cfg, run, steps, n, Sees(d)) == 0
  {
    if n > 0 {
      HoldingThroughout(cfg, run, steps, n - 1, x, d);
      var s, s' := StatesAt(cfg, run, steps, n);
      HoldingNext(cfg, s, steps[n - 1], s', x, d);
    }
  }

  // ---- both verdicts ----

  /** Each dependency of d gets at most one final result. */
  ghost predicate FinishOnce(cfg: Config, run: seq<State>, steps: seq<Step>, n: nat, d: Id)
    requires n <= |steps| < |run|
  {
    forall x :: x in cfg.Depends(d) ==> Count(cfg, run, steps, n, Finishes(x)) <= 1
  }

  /** Results are counted once. */
  lemma {:induction false} FinishesSplit(cfg: Config, run: seq<State>, steps: seq<Step>, n: nat, x: Id)
    requires n <= |steps| < |run|
    ensures Count(cfg, run, steps, n, Finishes(x)) == Count(cfg, run, steps, n, Saves(x, Processed)) + Count(cfg, run, steps, n, Saves(x, Dead))
  {
    if n > 0 {
      FinishesSplit(cfg, run, steps, n - 1, x);
    }
  }

  /** A dependency that fails d never lists it to release it, neither before nor after. */
  lemma DeadNeverNames(cfg: Config, run: seq<State>, steps: seq<Step>, m: nat, n: nat, w: WorkerId, d: Id)
    requires IsRun(cfg, run, steps) && m <= n <= |steps| && FinishOnce(cfg, run, steps, n, d)
    requires w in run[m].workers && Failing(run[m].workers[w]) && Knows(run[m].workers[w], d)
    ensures var x := run[m].workers[w].done; x in cfg.Depends(d) && Count(cfg, run, steps, n, Names(x, d)) == 0
  {
    var x := run[m].workers[w].done;
    KnownAt(cfg, run, steps, m, w, d);
    AcknowledgedThroughout(cfg, run, steps, m, w);
    CountGrows(cfg, run, steps, m, n, Saves(x, Dead));
    FinishesSplit(cfg, run, steps, n, x);
    NamesProcessed(cfg, run, steps, n, x, d);
  }

  lemma NamesProcessed(cfg: Config, run: seq<State>, steps: seq<Step>, n: nat, x: Id, d: Id)
    requires IsRun(cfg, run, steps) && n <= |steps| && Count(cfg, run, steps, n, Saves(x, Processed)) == 0
    ensures Count(cfg, run, steps, n, Names(x, d)) == 0
  {
    Happened(cfg, run, steps, n, Names(x, d));
    if j :| 0 <= j < n && Occurs(cfg, run[j], steps[j], Names(x, d)) {
      AcknowledgedThroughout(cfg, run, steps, j, steps[j].w);
      CountGrows(cfg, run, steps, j, n, Saves(x, Processed));
    }
  }

  lemma FinishOnceEarlier(cfg: Config, run: seq<State>, steps: seq<Step>, m: nat, n: nat, d: Id)
    requires m <= n <= |steps| < |run| && FinishOnce(cfg, run, steps, n, d)
    ensures FinishOnce(cfg, run, steps, m, d)
  {
    forall x | x in cfg.Depends(d) ensures Count(cfg, run, steps, m, Finishes(x)) <= 1 {
      CountGrows(cfg, run, steps, m, n, Finishes(x));
    }
  }

  /** The first step with an event. */
  lemma {:induction false} FirstTime(cfg: Config, run: seq<State>, steps: seq<Step>, n: nat, e: Event) returns (j: nat)
    requires n <= |steps| < |run| && Count(cfg, run, steps, n, e) >= 1
    ensures j < n && Occurs(cfg, run[j], steps[j], e) && Count(cfg, run, steps, j, e) == 0
  {
    if Count(cfg, run, steps, n - 1, e) >= 1 {
      j := FirstTime(cfg, run, steps, n - 1, e);
    } else {
      j := n - 1;
    }
  }

  /** Until the first deletion nobody sees a task free that a dead dependency has listed. */
  lemma UnseenBefore(cfg: Config, run: seq<State>, steps: seq<Step>, j: nat, d: Id, w: WorkerId)
    requires IsRun(cfg, run, steps) && j <= |steps| && FinishOnce(cfg, run, steps, j, d)
    requires w in run[j].workers && Failing(run[j].workers[w]) && Knows(run[j].workers[w], d)
    requires Count(cfg, run, steps, j, Forgets(d)) == 0
    ensures Count(cfg, run, steps, j, Sees(d)) == 0
  {
    DeadNeverNames(cfg, run, steps, j, j, w, d);
    HoldingThroughout(cfg, run, steps, j, run[j].workers[w].done, d);
  }

  /** A worker that is about to forget what d waits for has buried it. */
  lemma {:induction false} ForgetterBuried(cfg: Config, run: seq<State>, steps: seq<Step>, n: nat, w: WorkerId, d: Id)
    requires IsRun(cfg, run, steps) && n <= |steps| && w in run[n].workers
    requires run[n].workers[w].FailClearing? && run[n].workers[w].dep == d
    ensures Count(cfg, run, steps, n, Buries(d)) >= 1
  {
    assert n > 0;
    RunStep(cfg, run, steps, n);
    var before := run[n - 1].workers[w];
    if before.FailClearing? && before.dep == d {
      ForgetterBuried(cfg, run, steps, n - 1, w, d);
    } else {
      if before.FailFetching? && before.todo != [] {
        assert before.todo[0] in Todo(before);
        KnownAt(cfg, run, steps, n - 1, w, before.todo[0]);
      }
      assert Occurs(cfg, run[n - 1], steps[n - 1], Buries(d));
    }
  }

  /** Once d was forgotten (step j, the first time), it is freed exactly once for each later question. */
  lemma FreedPerQuestion(cfg: Config, run: seq<State>, steps: seq<Step>, j: nat, n: nat, d: Id)
    requires IsRun(cfg, run, steps) && j < n <= |steps| && FinishOnce(cfg, run, steps, n, d)
    requires Occurs(cfg, run[j], steps[j], Forgets(d)) && Count(cfg, run, steps, j, Forgets(d)) == 0
    requires forall w :: w in run[n].workers ==> !In(run[n].workers[w], ToPush(d))
    ensures Count(cfg, run, steps, n, Frees(d)) == Count(cfg, run, steps, n, Asks(d)) - Count(cfg, run, steps, j, Asks(d))
  {
    FinishOnceEarlier(cfg, run, steps, j, n, d);
    UnseenBefore(cfg, run, steps, j, d, steps[j].w);
    ForgottenIsFree(cfg, run, steps, j, n, d);
    assert Workforce(run[n], ToPush(d)) == {};
  }

  /** A task that was buried but not yet forgotten has not been seen free. */
  lemma BuriedUnforgotten(cfg: Config, run: seq<State>, steps: seq<Step>, n: nat, d: Id)
    requires IsRun(cfg, run, steps) && n <= |steps| && FinishOnce(cfg, run, steps, n, d)
    requires Count(cfg, run, steps, n, Forgets(d)) == 0 && Count(cfg, run, steps, n, Buries(d)) >= 1
    ensures Count(cfg, run, steps, n, Sees(d)) == 0
  {
    var j := FirstTime(cfg, run, steps, n, Buries(d));
    DeadNeverNames(cfg, run, steps, j, n, steps[j].w, d);
    HoldingThroughout(cfg, run, steps, n, run[j].workers[steps[j].w].done, d);
  }

  lemma {:induction false} CountBetween(cfg: Config, run: seq<State>, steps: seq<Step>, m: nat, n: nat, e: Event)
    requires m <= n <= |steps| < |run|
    ensures Count(cfg, run, steps, n, e) > Count(cfg, run, steps, m, e) <==>
      exists j :: m <= j < n && Occurs(cfg, run[j], steps[j], e)
    ensures Count(cfg, run, steps, n, e) >= Count(cfg, run, steps, m, e)
  {
    if m < n {
      CountBetween(cfg, run, steps, m, n - 1, e);
    }
  }

  lemma ForgottenBothIff(cfg: Config, run: seq<State>, steps: seq<Step>, n: nat, d: Id)
    requires IsRun(cfg, run, steps) && n <= |steps| && FinishOnce(cfg, run, steps, n, d)
    requires Count(cfg, run, steps, n, Forgets(d)) >= 1
    requires forall w :: w in run[n].workers ==> !In(run[n].workers[w], ToPush(d))
    ensures Count(cfg, run, steps, n, Buries(d)) >= 1
    ensures Count(cfg, run, steps, n, Frees(d)) >= 1 <==>
      exists i, j :: 0 <= i < j < n && Occurs(cfg, run[i], steps[i], Forgets(d)) && Occurs(cfg, run[j], steps[j], Asks(d))
  {
    var first := FirstTime(cfg, run, steps, n, Forgets(d));
    ForgetterBuried(cfg, run, steps, first, steps[first].w, d);
    CountGrows(cfg, run, steps, first, n, Buries(d));
    FreedPerQuestion(cfg, run, steps, first, n, d);
    CountBetween(cfg, run, steps, first, n, Asks(d));
    assert !Occurs(cfg, run[first], steps[first], Asks(d));
    forall i | 0 <= i < first ensures !Occurs(cfg, run[i], steps[i], Forgets(d)) {
      Happened(cfg, run, steps, first, Forgets(d));
    }
  }

  /**
   * Main result, exactly when a task gets both verdicts: if each dependency of d gets one final
   * result, and no worker is about to push d, then d was put on a dead list and also on its queue
   * if and only if some worker asked whether d is free (with SCARD, or by listing it in the
   * script) after another one had deleted what it waits for.
   */
  lemma BothVerdictsIff(cfg: Config, run: seq<State>, steps: seq<Step>, n: nat, d: Id)
    requires IsRun(cfg, run, steps) && n <= |steps| && FinishOnce(cfg, run, steps, n, d)
    requires forall w :: w in run[n].workers ==> !In(run[n].workers[w], ToPush(d))
    ensures Count(cfg, run, steps, n, Buries(d)) >= 1 && Count(cfg, run, steps, n, Frees(d)) >= 1 <==>
      exists i, j :: 0 <= i < j < n && Occurs(cfg, run[i], steps[i], Forgets(d)) && Occurs(cfg, run[j], steps[j], Asks(d))
  {
    if Count(cfg, run, steps, n, Forgets(d)) >= 1 {
      ForgottenBothIff(cfg, run, steps, n, d);
    } else {
      Happened(cfg, run, steps, n, Forgets(d));
      if Count(cfg, run, steps, n, Buries(d)) >= 1 {
        BuriedUnforgotten(cfg, run, steps, n, d);
        FlowsThroughout(cfg, run, steps, n, ToPush(d));
      }
    }
  }
}
