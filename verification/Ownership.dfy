/**
 * Single ownership, task by task and in every run: a task is in exactly one place as long as it
 * was freed or condemned at most once - and only as long as that.
 */
module Ownership {
  import opened Basics
  import opened Keys
  import opened SortedSets
  import opened Store
  import opened Commands
  import opened Protocol
  import opened Bookkeeping
  import opened Events
  import opened Places

  /** The lists on which x may be. */
  predicate KeyKept(cfg: Config, x: Id, p: Place)
    requires x in cfg.tasks
  {
    p.Listed? ==> p.k == QueueKey(cfg.tasks[x].queue) || p.k.DeadKey?
  }

  predicate HandRight(cfg: Config, w: Worker, x: Id)
    requires x in cfg.tasks
  {
    w.InHand? && w.id == x ==> w.queue == cfg.tasks[x].queue
  }

  /** What a worker remembers of x while x waits. */
  ghost predicate UntouchedBy(cfg: Config, w: Worker, x: Id)
    requires x in cfg.tasks
  {
    && (w.FailSaving? && w.dep == x ==> w.data == cfg.tasks[x])
    && (w.Pushing? && w.dep == x ==> w.queue == cfg.tasks[x].queue)
  }

  /** Nobody has touched the waiting task x since it was submitted. */
  ghost predicate Untouched(cfg: Config, s: State, x: Id)
    requires x in cfg.tasks
  {
    && (x in s.db.tasks ==> s.db.tasks[x] == Record(cfg.tasks[x], cfg.tasks[x].queue))
    && (forall w :: w in s.workers ==> UntouchedBy(cfg, s.workers[w], x))
  }

  /**
   * x is at place p, was freed or condemned so many times, and got so many final results. A task
   * with dependencies awaits exactly until it is freed or condemned.
   */
  ghost predicate Owned(cfg: Config, s: State, x: Id, p: Place, granted: nat, finished: nat) {
    && At(cfg, s, x, p) && KeyKept(cfg, x, p)
    && (forall w :: w in s.workers ==> HandRight(cfg, s.workers[w], x))
    && finished == One(p == Settled)
    && (if cfg.Depends(x) == [] then granted == 0
        else (p == Awaiting <==> granted == 0) && (granted == 0 ==> Untouched(cfg, s, x)))
  }

  // ---- commands take tasks only from where they are ----

  /** Only tasks with dependencies are freed or condemned. */
  lemma GrantsWaiting(cfg: Config, s: State, step: Step, x: Id)
    requires Kept(cfg, s) && Enabled(cfg, s, step) && Occurs(cfg, s, step, Grants(x))
    ensures cfg.Depends(x) != []
  {
    var w := s.workers[step.w];
    assert WorkerRight(cfg, s, w);
    if w.ReleaseListing? {
      assert Links(cfg, s, x, w.done);
    } else {
      assert Knows(w, x);
    }
  }

  lemma ClientProper(cfg: Config, s: State, step: Step, x: Id, p: Place)
    requires At(cfg, s, x, p) && step.ClientStep? && Enabled(cfg, s, step) && SubmitterRight(cfg, s, step)
    ensures Proper(cfg, s, step, x, p)
  {
  }

  lemma TickProper(cfg: Config, s: State, step: Step, x: Id, p: Place)
    requires RanksKept(cfg, s) && At(cfg, s, x, p) && !step.ClientStep? && !step.WorkerStep?
    ensures Proper(cfg, s, step, x, p)
  {
    var c := CommandOf(cfg, s, step);
    if c.MoveDue? && Takes(s.db, c, x) {
      TailHas(s.db.Ranks(c.k), BatchCount(s.db.Ranks(c.k), c.now, BATCH_SIZE), x);
      assert RankKept(cfg, s.db, c.k, x);
    }
  }

  lemma DequeueProper(cfg: Config, s: State, step: Step, x: Id, p: Place)
    requires RanksKept(cfg, s) && At(cfg, s, x, p) && KeyKept(cfg, x, p) && step.WorkerStep? && Enabled(cfg, s, step)
    requires s.workers[step.w].Idle? || s.workers[step.w].Popping?
    ensures Proper(cfg, s, step, x, p)
  {
    var c := CommandOf(cfg, s, step);
    if c.PDequeue? && Takes(s.db, c, x) {
      assert Has(s.db.Ranks(PriorityKey(c.queue)), x);
      assert RankKept(cfg, s.db, PriorityKey(c.queue), x);
    }
    if c.LPop? && Takes(s.db, c, x) {
      assert x in s.db.List(c.k);
      assert Times(s.db.List(c.k), x) > 0;
    }
  }

  lemma HolderProper(cfg: Config, s: State, step: Step, x: Id, p: Place)
    requires step.WorkerStep? && Enabled(cfg, s, step) && x in cfg.tasks && GripFits(step.w, s.workers[step.w], x, p)
    requires HandRight(cfg, s.workers[step.w], x) && HoldsRight(cfg, s, s.workers[step.w]) && Holds(s.workers[step.w]).Some?
    ensures Proper(cfg, s, step, x, p)
  {
  }

  lemma TailProper(cfg: Config, s: State, step: Step, x: Id, p: Place)
    requires step.WorkerStep? && Enabled(cfg, s, step) && x in cfg.tasks && GripFits(step.w, s.workers[step.w], x, p)
    requires Occurs(cfg, s, step, Grants(x)) ==> p == Awaiting && Untouched(cfg, s, x)
    requires s.workers[step.w].FailSaving? ==> s.workers[step.w].data.id == s.workers[step.w].dep
    requires Tail(s.workers[step.w]).Some? || s.workers[step.w].CheckingPause?
    ensures Proper(cfg, s, step, x, p)
  {
  }

  lemma StepProper(cfg: Config, s: State, step: Step, x: Id, p: Place, granted: nat, finished: nat)
    requires Kept(cfg, s) && Owned(cfg, s, x, p, granted, finished) && Enabled(cfg, s, step)
    requires Occurs(cfg, s, step, Grants(x)) ==> granted == 0
    ensures Proper(cfg, s, step, x, p)
  {
    ActorsRight(cfg, s, step);
    if step.ClientStep? {
      ClientProper(cfg, s, step, x, p);
    } else if step.WorkerStep? {
      var w := s.workers[step.w];
      if w.Idle? || w.Popping? {
        DequeueProper(cfg, s, step, x, p);
      } else if Holds(w).Some? {
        HolderProper(cfg, s, step, x, p);
      } else {
        if Occurs(cfg, s, step, Grants(x)) { GrantsWaiting(cfg, s, step, x); }
        TailProper(cfg, s, step, x, p);
      }
    } else {
      TickProper(cfg, s, step, x, p);
    }
  }

  // ---- the place after the step is right ----

  lemma GrippedMoves(cfg: Config, s: State, step: Step, x: Id, p: Place)
    requires Kept(cfg, s) && x in cfg.tasks && GrippedRight(s, x, p) && Proper(cfg, s, step, x, p) && Enabled(cfg, s, step)
    requires step.WorkerStep? && s.workers[step.w].FailSaving? && s.workers[step.w].dep == x ==> s.workers[step.w].data == cfg.tasks[x]
    ensures GrippedRight(After(cfg, s, step), x, Moved(cfg, s, step, x, p))
  {
    var p' := Moved(cfg, s, step, x, p);
    var s' := After(cfg, s, step);
    assert s'.workers.Keys == s.workers.Keys;
    forall v | v in s.workers ensures GripFits(v, s'.workers[v], x, p') {
      assert GripFits(v, s.workers[v], x, p);
      if step.WorkerStep? && v == step.w {
        assert WorkerRight(cfg, s, s.workers[v]);
        GripMoves(cfg, s, step, x, p);
      } else {
        OtherGrip(cfg, s, step, x, p, v);
      }
    }
  }

  lemma FirstRecord(cfg: Config, s: State, step: Step, x: Id)
    requires cfg.Valid() && step.ClientStep? && Enabled(cfg, s, step)
    requires CommandOf(cfg, s, step).HSet? && CommandOf(cfg, s, step).id == x
    ensures x in cfg.tasks && s.clients[x].Fresh?
    ensures CommandOf(cfg, s, step).record == Record(cfg.tasks[x], cfg.tasks[x].queue)
  {
  }

  lemma DoneMoves(cfg: Config, s: State, step: Step, x: Id, p: Place)
    requires cfg.Valid() && x in cfg.tasks && (Done(s, x) <==> p == Settled) && (x in s.clients && s.clients[x].Fresh? ==> x !in s.db.tasks)
    requires Proper(cfg, s, step, x, p) && Enabled(cfg, s, step)
    ensures Done(After(cfg, s, step), x) <==> Moved(cfg, s, step, x, p) == Settled
  {
    var c := CommandOf(cfg, s, step);
    EnabledOrdered(cfg, s, step);
    TaskFrame(s.db, c);
    if c.HSet? && c.id == x && step.ClientStep? {
      FirstRecord(cfg, s, step, x);
    }
    SettlesOnlyByStore(cfg, s, step, x, p);
  }

  lemma SettlesOnlyByStore(cfg: Config, s: State, step: Step, x: Id, p: Place)
    requires x in cfg.tasks && Proper(cfg, s, step, x, p)
    ensures !Stores(CommandOf(cfg, s, step), step, x) ==> (Moved(cfg, s, step, x, p) == Settled <==> p == Settled)
    ensures Stores(CommandOf(cfg, s, step), step, x) ==>
      (Moved(cfg, s, step, x, p) == Settled <==> Final(CommandOf(cfg, s, step).record.data)) && p != Settled
  {
  }

  lemma ClientMoves(cfg: Config, s: State, step: Step, x: Id, p: Place)
    requires cfg.Valid() && x in cfg.tasks && x in s.clients && ClientRight(cfg, x, s.clients[x]) && ClientFits(cfg, s, x, p)
    requires Proper(cfg, s, step, x, p) && Enabled(cfg, s, step)
    ensures ClientFits(cfg, After(cfg, s, step), x, Moved(cfg, s, step, x, p))
  {
  }

  /** The parts of At. */
  lemma AtParts(cfg: Config, s: State, x: Id, p: Place)
    requires x in cfg.tasks && x in s.clients
    requires ListedRight(cfg, s, x, p) && ScoredRight(s, x, p) && GrippedRight(s, x, p)
    requires p.ActiveBy? || p.Hand? ==> p.w in s.workers
    requires Done(s, x) <==> p == Settled
    requires ClientFits(cfg, s, x, p)
    ensures At(cfg, s, x, p)
  {
  }

  lemma AtMoves(cfg: Config, s: State, step: Step, x: Id, p: Place)
    requires Kept(cfg, s) && At(cfg, s, x, p) && Proper(cfg, s, step, x, p) && Enabled(cfg, s, step)
    requires step.WorkerStep? && s.workers[step.w].FailSaving? && s.workers[step.w].dep == x ==> s.workers[step.w].data == cfg.tasks[x]
    ensures At(cfg, After(cfg, s, step), x, Moved(cfg, s, step, x, p))
  {
    ListedMoves(cfg, s, step, x, p);
    ScoredMoves(cfg, s, step, x, p);
    GrippedMoves(cfg, s, step, x, p);
    DoneMoves(cfg, s, step, x, p);
    ClientMoves(cfg, s, step, x, p);
    MovedWorker(cfg, s, step, x, p);
    AtParts(cfg, After(cfg, s, step), x, Moved(cfg, s, step, x, p));
  }

  lemma MovedWorker(cfg: Config, s: State, step: Step, x: Id, p: Place)
    requires x in cfg.tasks && x in s.clients && (p.ActiveBy? || p.Hand? ==> p.w in s.workers)
    requires Proper(cfg, s, step, x, p) && Enabled(cfg, s, step)
    ensures x in After(cfg, s, step).clients
    ensures var p' := Moved(cfg, s, step, x, p); p'.ActiveBy? || p'.Hand? ==> p'.w in After(cfg, s, step).workers
  {
  }

  // ---- the rest of the invariant ----

  lemma KeyMoves(cfg: Config, s: State, step: Step, x: Id, p: Place)
    requires x in cfg.tasks && KeyKept(cfg, x, p) && Proper(cfg, s, step, x, p) && Enabled(cfg, s, step)
    ensures KeyKept(cfg, x, Moved(cfg, s, step, x, p))
  {
  }

  lemma HandMoves(cfg: Config, s: State, step: Step, x: Id, p: Place)
    requires x in cfg.tasks && KeyKept(cfg, x, p) && Proper(cfg, s, step, x, p) && step.WorkerStep? && Enabled(cfg, s, step)
    requires HandRight(cfg, s.workers[step.w], x)
    ensures HandRight(cfg, After(cfg, s, step).workers[step.w], x)
  {
  }

  /** A task settles with its final result, and only then. */
  lemma FinishMoves(cfg: Config, s: State, step: Step, x: Id, p: Place)
    requires cfg.Valid() && x in cfg.tasks && Proper(cfg, s, step, x, p) && Enabled(cfg, s, step)
    requires MoverRight(cfg, s, step)
    requires step.WorkerStep? && s.workers[step.w].FailSaving? && s.workers[step.w].dep == x ==> s.workers[step.w].data == cfg.tasks[x]
    ensures One(Moved(cfg, s, step, x, p) == Settled) == One(p == Settled) + One(Occurs(cfg, s, step, Finishes(x)))
  {
    SettlesOnlyByStore(cfg, s, step, x, p);
    if Occurs(cfg, s, step, Finishes(x)) {
      assert Stores(CommandOf(cfg, s, step), step, x);
    }
  }

  /** A waiting task is taken exactly when it is freed or condemned. */
  lemma GrantTakes(cfg: Config, s: State, step: Step, x: Id)
    requires cfg.Valid() && MoverRight(cfg, s, step) && x in cfg.tasks && Enabled(cfg, s, step) && Proper(cfg, s, step, x, Awaiting)
    requires step.WorkerStep? ==> GripFits(step.w, s.workers[step.w], x, Awaiting)
    ensures var c := CommandOf(cfg, s, step); Takes(s.db, c, x) || Stores(c, step, x) <==> Occurs(cfg, s, step, Grants(x))
  {
    if step.WorkerStep? && !Occurs(cfg, s, step, Grants(x)) {
      OthersAwait(cfg, s, step, x);
    }
  }

  lemma OthersAwait(cfg: Config, s: State, step: Step, x: Id)
    requires cfg.Valid() && MoverRight(cfg, s, step) && x in cfg.tasks && Enabled(cfg, s, step) && Proper(cfg, s, step, x, Awaiting)
    requires step.WorkerStep? && GripFits(step.w, s.workers[step.w], x, Awaiting) && !Occurs(cfg, s, step, Grants(x))
    ensures !Takes(s.db, CommandOf(cfg, s, step), x) && !Stores(CommandOf(cfg, s, step), step, x)
  {
  }

  /** A task leaves Awaiting exactly then, and never comes back. */
  lemma GrantMoves(cfg: Config, s: State, step: Step, x: Id, p: Place)
    requires cfg.Valid() && MoverRight(cfg, s, step) && x in cfg.tasks && Proper(cfg, s, step, x, p) && Enabled(cfg, s, step)
    requires Occurs(cfg, s, step, Grants(x)) ==> p == Awaiting
    requires step.WorkerStep? ==> GripFits(step.w, s.workers[step.w], x, p)
    requires step.WorkerStep? && s.workers[step.w].FailSaving? && s.workers[step.w].dep == x ==> s.workers[step.w].data == cfg.tasks[x]
    ensures Moved(cfg, s, step, x, p) == Awaiting <==> p == Awaiting && !Occurs(cfg, s, step, Grants(x))
  {
    if p == Awaiting { GrantTakes(cfg, s, step, x); }
    if Takes(s.db, CommandOf(cfg, s, step), x) || Stores(CommandOf(cfg, s, step), step, x) { NeverBackToAwaiting(cfg, s, step, x, p); }
  }

  lemma NeverBackToAwaiting(cfg: Config, s: State, step: Step, x: Id, p: Place)
    requires Takes(s.db, CommandOf(cfg, s, step), x) || Stores(CommandOf(cfg, s, step), step, x)
    ensures Moved(cfg, s, step, x, p) != Awaiting
  {
  }

  lemma UntouchedStays(cfg: Config, s: State, step: Step, x: Id)
    requires cfg.Valid() && x in cfg.tasks && Untouched(cfg, s, x) && Enabled(cfg, s, step) && MoverRight(cfg, s, step)
    requires !Occurs(cfg, s, step, Grants(x))
    requires forall w :: w in s.workers ==> Holds(s.workers[w]) != Some(x)
    ensures Untouched(cfg, After(cfg, s, step), x)
  {
    EnabledOrdered(cfg, s, step);
    TaskFrame(s.db, CommandOf(cfg, s, step));
    var s' := After(cfg, s, step);
    forall w | w in s'.workers ensures UntouchedBy(cfg, s'.workers[w], x) {
      if step.WorkerStep? && w == step.w { MoverUntouched(cfg, s.db, s.workers[w], step.choice, x); }
    }
  }

  lemma MoverUntouched(cfg: Config, db: Db, w: Worker, c: Choice, x: Id)
    requires x in cfg.tasks && UntouchedBy(cfg, w, x) && (x in db.tasks ==> db.tasks[x] == Record(cfg.tasks[x], cfg.tasks[x].queue))
    ensures UntouchedBy(cfg, WorkerNext(cfg, db, w, c), x)
  {
  }

  // ---- one step, and whole runs ----

  /** What the step may do to x: it comes from a worker that x's place agrees with, and condemns x untouched. */
  ghost predicate Orderly(cfg: Config, s: State, step: Step, x: Id, p: Place)
    requires x in cfg.tasks
  {
    && MoverRight(cfg, s, step) && Proper(cfg, s, step, x, p)
    && (Occurs(cfg, s, step, Grants(x)) ==> cfg.Depends(x) != [] && p == Awaiting)
    && (step.WorkerStep? ==> step.w in s.workers && GripFits(step.w, s.workers[step.w], x, p))
    && (step.WorkerStep? && s.workers[step.w].FailSaving? && s.workers[step.w].dep == x ==> s.workers[step.w].data == cfg.tasks[x])
  }

  lemma StepOrderly(cfg: Config, s: State, step: Step, x: Id, p: Place, granted: nat, finished: nat)
    requires Kept(cfg, s) && Owned(cfg, s, x, p, granted, finished) && Enabled(cfg, s, step)
    requires Occurs(cfg, s, step, Grants(x)) ==> granted == 0
    ensures Orderly(cfg, s, step, x, p)
  {
    ActorsRight(cfg, s, step);
    StepProper(cfg, s, step, x, p, granted, finished);
    if Occurs(cfg, s, step, Grants(x)) {
      GrantsWaiting(cfg, s, step, x);
      assert UntouchedBy(cfg, s.workers[step.w], x);
    }
    assert step.WorkerStep? && s.workers[step.w].FailSaving? && s.workers[step.w].dep == x ==> Occurs(cfg, s, step, Grants(x));
  }

  lemma HandsStay(cfg: Config, s: State, step: Step, x: Id, p: Place)
    requires x in cfg.tasks && KeyKept(cfg, x, p) && Proper(cfg, s, step, x, p) && Enabled(cfg, s, step)
    requires forall w :: w in s.workers ==> HandRight(cfg, s.workers[w], x)
    ensures forall w :: w in After(cfg, s, step).workers ==> HandRight(cfg, After(cfg, s, step).workers[w], x)
  {
    var s' := After(cfg, s, step);
    forall w | w in s'.workers ensures HandRight(cfg, s'.workers[w], x) {
      if step.WorkerStep? && w == step.w { HandMoves(cfg, s, step, x, p); }
    }
  }

  lemma WaitMoves(cfg: Config, s: State, step: Step, x: Id, p: Place, granted: nat)
    requires cfg.Valid() && x in cfg.tasks && GrippedRight(s, x, p) && Orderly(cfg, s, step, x, p) && Enabled(cfg, s, step)
    requires (p == Awaiting <==> granted == 0) && (granted == 0 ==> Untouched(cfg, s, x))
    ensures var granted' := granted + One(Occurs(cfg, s, step, Grants(x)));
            && (Moved(cfg, s, step, x, p) == Awaiting <==> granted' == 0)
            && (granted' == 0 ==> Untouched(cfg, After(cfg, s, step), x))
  {
    GrantMoves(cfg, s, step, x, p);
    if granted == 0 && !Occurs(cfg, s, step, Grants(x)) {
      forall w | w in s.workers ensures Holds(s.workers[w]) != Some(x) {
        assert GripFits(w, s.workers[w], x, p);
      }
      UntouchedStays(cfg, s, step, x);
    }
  }

  lemma StepOwns(cfg: Config, s: State, step: Step, x: Id, p: Place, granted: nat, finished: nat)
    requires Kept(cfg, s) && Owned(cfg, s, x, p, granted, finished) && Enabled(cfg, s, step)
    requires Orderly(cfg, s, step, x, p)
    ensures Owned(cfg, After(cfg, s, step), x, Moved(cfg, s, step, x, p),
                  granted + One(Occurs(cfg, s, step, Grants(x))), finished + One(Occurs(cfg, s, step, Finishes(x))))
  {
    AtMoves(cfg, s, step, x, p);
    KeyMoves(cfg, s, step, x, p);
    FinishMoves(cfg, s, step, x, p);
    HandsStay(cfg, s, step, x, p);
    if cfg.Depends(x) != [] { WaitMoves(cfg, s, step, x, p, granted); }
  }

  lemma OwnsNext(cfg: Config, s: State, step: Step, s': State, x: Id, p: Place, granted: nat, finished: nat) returns (p': Place)
    requires Kept(cfg, s) && Owned(cfg, s, x, p, granted, finished) && Next(cfg, s, step, s')
    requires granted + One(Occurs(cfg, s, step, Grants(x))) <= 1
    ensures Orderly(cfg, s, step, x, p) && p' == Moved(cfg, s, step, x, p)
    ensures Owned(cfg, s', x, p', granted + One(Occurs(cfg, s, step, Grants(x))), finished + One(Occurs(cfg, s, step, Finishes(x))))
  {
    p' := Moved(cfg, s, step, x, p);
    StepOrderly(cfg, s, step, x, p, granted, finished);
    StepOwns(cfg, s, step, x, p, granted, finished);
  }

  lemma StartOwned(cfg: Config, s: State, x: Id)
    requires Init(cfg, s) && x in cfg.tasks
    ensures Owned(cfg, s, x, Start(cfg, x), 0, 0)
  {
    EmptyStore(s.db);
    assert s.clients[x] == Fresh;
  }

  /** Before anything is submitted. */
  function Start(cfg: Config, x: Id): Place {
    if cfg.Depends(x) == [] then WithClient else Awaiting
  }

  /** Where x is after n steps of a run in which it was freed or condemned at most once. */
  lemma {:induction false} PlaceOf(cfg: Config, run: seq<State>, steps: seq<Step>, n: nat, x: Id) returns (p: Place)
    requires IsRun(cfg, run, steps) && n <= |steps| && x in cfg.tasks && Count(cfg, run, steps, n, Grants(x)) <= 1
    ensures Owned(cfg, run[n], x, p, Count(cfg, run, steps, n, Grants(x)), Count(cfg, run, steps, n, Finishes(x)))
  {
    if n == 0 {
      StartOwned(cfg, run[0], x);
      p := Start(cfg, x);
    } else {
      p := PlaceOf(cfg, run, steps, n - 1, x);
      var s, s' := StatesAt(cfg, run, steps, n);
      p := OwnsNext(cfg, s, steps[n - 1], s', x, p, Count(cfg, run, steps, n - 1, Grants(x)), Count(cfg, run, steps, n - 1, Finishes(x)));
    }
  }

  /**
   * In every state of a run in which x was freed or condemned at most once so far, x is in exactly
   * one place.
   */
  lemma ExactlyOnePlace(cfg: Config, run: seq<State>, steps: seq<Step>, n: nat, x: Id)
    requires IsRun(cfg, run, steps) && n <= |steps| && x in cfg.tasks && Count(cfg, run, steps, n, Grants(x)) <= 1
    ensures exists p :: At(cfg, run[n], x, p) && forall q :: At(cfg, run[n], x, q) ==> q == p
  {
    var p := PlaceOf(cfg, run, steps, n, x);
    forall q | At(cfg, run[n], x, q) ensures q == p {
      OnePlace(cfg, run[n], x, p, q);
    }
  }

  // ---- what one place means for workers ----

  /**
   * In particular no two workers have the same task in hand, and no queue holds it meanwhile.
   */
  lemma NeverTwoWorkers(cfg: Config, run: seq<State>, steps: seq<Step>, n: nat, v: WorkerId, w: WorkerId, x: Id)
    requires IsRun(cfg, run, steps) && n <= |steps| && x in cfg.tasks && Count(cfg, run, steps, n, Grants(x)) <= 1
    requires v in run[n].workers && w in run[n].workers
    requires Holds(run[n].workers[v]) == Some(x) && Holds(run[n].workers[w]) == Some(x)
    ensures v == w
    ensures forall q :: x !in run[n].db.List(QueueKey(q)) && !Has(run[n].db.Ranks(PriorityKey(q)), x)
  {
    var p := PlaceOf(cfg, run, steps, n, x);
    assert GripFits(v, run[n].workers[v], x, p) && GripFits(w, run[n].workers[w], x, p);
    GrippedOffQueues(cfg, run[n], x, p);
  }

  lemma GrippedOffQueues(cfg: Config, s: State, x: Id, p: Place)
    requires x in cfg.tasks && ListedRight(cfg, s, x, p) && ScoredRight(s, x, p)
    requires p.ActiveBy? || p.Hand?
    ensures forall q :: x !in s.db.List(QueueKey(q)) && !Has(s.db.Ranks(PriorityKey(q)), x)
  {
    forall q ensures x !in s.db.List(QueueKey(q)) {
      assert Times(s.db.List(QueueKey(q)), x) == 0;
    }
  }

  /**
   * A task acknowledged as processed, or dead of its own failures, is on no list - not on a dead
   * list either - and in no sorted set, and no worker has it; and it got that result once.
   */
  lemma SettledIsNowhere(cfg: Config, run: seq<State>, steps: seq<Step>, n: nat, x: Id)
    requires IsRun(cfg, run, steps) && n <= |steps| && x in cfg.tasks && Count(cfg, run, steps, n, Grants(x)) <= 1
    ensures Count(cfg, run, steps, n, Finishes(x)) == One(Done(run[n], x))
    ensures Done(run[n], x) ==> forall k :: x !in run[n].db.List(k) && !Has(run[n].db.Ranks(k), x)
    ensures Done(run[n], x) ==> forall w :: w in run[n].workers ==> Grip(run[n].workers[w]) != Some(x)
  {
    var p := PlaceOf(cfg, run, steps, n, x);
    if Done(run[n], x) { NowhereWhenSettled(cfg, run[n], x, p); }
  }

  lemma NowhereWhenSettled(cfg: Config, s: State, x: Id, p: Place)
    requires At(cfg, s, x, p) && p == Settled
    ensures forall k :: x !in s.db.List(k) && !Has(s.db.Ranks(k), x)
    ensures forall w :: w in s.workers ==> Grip(s.workers[w]) != Some(x)
  {
    forall k ensures x !in s.db.List(k) {
      assert Times(s.db.List(k), x) == 0;
    }
    forall w | w in s.workers ensures Grip(s.workers[w]) != Some(x) {
      assert GripFits(w, s.workers[w], x, p);
    }
  }

  // ---- and only as long as that ----

  /** Freeing or condemning a task takes it from nowhere. */
  lemma StaysWhereItWas(cfg: Config, s: State, step: Step, x: Id, p: Place, p': Place)
    requires RanksValid(s.db) && At(cfg, s, x, p) && At(cfg, After(cfg, s, step), x, p') && Enabled(cfg, s, step)
    requires p != Awaiting && p != WithClient && KeyKept(cfg, x, p) && (p == Settled ==> p' == Settled)
    requires Occurs(cfg, s, step, Grants(x))
    ensures p' == p
  {
    var s' := After(cfg, s, step);
    Found(cfg, s, x, p);
    if p.Listed? {
      ListedStaysListed(cfg, s, step, x, p, p');
    } else if p.Scored? {
      RankedStays(cfg, s, step, x, p.k);
      assert Has(s'.db.Ranks(p.k), x);
    } else if p.ActiveBy? || p.Hand? {
      assert GripFits(p.w, s'.workers[p.w], x, p');
    }
  }

  lemma ListedStaysListed(cfg: Config, s: State, step: Step, x: Id, p: Place, p': Place)
    requires RanksValid(s.db) && At(cfg, s, x, p) && At(cfg, After(cfg, s, step), x, p') && Enabled(cfg, s, step)
    requires p.Listed? && KeyKept(cfg, x, p) && Occurs(cfg, s, step, Grants(x))
    ensures p' == p
  {
    Found(cfg, s, x, p);
    ListedStays(cfg, s, step, x, p.k);
    ListedThere(cfg, After(cfg, s, step), x, p', p.k);
  }

  lemma ListedThere(cfg: Config, s: State, x: Id, p: Place, k: Key)
    requires At(cfg, s, x, p) && Times(s.db.List(k), x) >= 1 && !k.ActiveKey?
    ensures p == Listed(k)
  {
    assert Times(s.db.List(k), x) == One(ListOf(cfg, x, p) == Some(k));
  }

  lemma RankedStays(cfg: Config, s: State, step: Step, x: Id, k: Key)
    requires Enabled(cfg, s, step) && Occurs(cfg, s, step, Grants(x))
    ensures After(cfg, s, step).db.Ranks(k) == s.db.Ranks(k)
  {
    EnabledOrdered(cfg, s, step);
    RanksSame(s.db, CommandOf(cfg, s, step), k);
  }

  lemma ListedStays(cfg: Config, s: State, step: Step, x: Id, k: Key)
    requires RanksValid(s.db) && Enabled(cfg, s, step) && Occurs(cfg, s, step, Grants(x))
    ensures Times(After(cfg, s, step).db.List(k), x) == Times(s.db.List(k), x) + One(Commands.Lists(s.db, CommandOf(cfg, s, step), k, x))
  {
    EnabledOrdered(cfg, s, step);
    TimesExact(s.db, CommandOf(cfg, s, step), k, x);
  }

  /** But it puts it somewhere. */
  lemma FreedMoves(cfg: Config, s: State, step: Step, x: Id, p: Place, p': Place)
    requires RanksValid(s.db) && At(cfg, s, x, p) && At(cfg, After(cfg, s, step), x, p') && Enabled(cfg, s, step)
    requires Occurs(cfg, s, step, Grants(x)) && Occurs(cfg, s, step, Frees(x))
    ensures p' != p
  {
    var k := FreedTo(cfg, s, step, x);
    ListedStays(cfg, s, step, x, k);
    assert Times(s.db.List(k), x) == One(ListOf(cfg, x, p) == Some(k));
    assert Times(After(cfg, s, step).db.List(k), x) == One(ListOf(cfg, x, p') == Some(k));
  }

  lemma CondemnedMoves(cfg: Config, s: State, step: Step, x: Id, p: Place, p': Place)
    requires At(cfg, s, x, p) && At(cfg, After(cfg, s, step), x, p') && Enabled(cfg, s, step)
    requires Occurs(cfg, s, step, Condemns(x))
    ensures p' != p
  {
    assert GripFits(step.w, s.workers[step.w], x, p);
    assert GripFits(step.w, After(cfg, s, step).workers[step.w], x, p');
  }

  lemma SecondGrant(cfg: Config, s: State, step: Step, s': State, x: Id, p: Place, p': Place)
    requires RanksValid(s.db) && At(cfg, s, x, p) && At(cfg, s', x, p') && Next(cfg, s, step, s')
    requires p != Awaiting && p != WithClient && KeyKept(cfg, x, p) && (p == Settled ==> p' == Settled)
    ensures !Occurs(cfg, s, step, Grants(x))
  {
    if Occurs(cfg, s, step, Grants(x)) {
      if Occurs(cfg, s, step, Frees(x)) {
        FreedMoves(cfg, s, step, x, p, p');
      } else {
        CondemnedMoves(cfg, s, step, x, p, p');
      }
      StaysWhereItWas(cfg, s, step, x, p, p');
    }
  }

  /** The queue on which a step that frees x puts it. */
  lemma FreedTo(cfg: Config, s: State, step: Step, x: Id) returns (k: Key)
    requires Enabled(cfg, s, step) && Occurs(cfg, s, step, Frees(x))
    ensures k.QueueKey? && Commands.Lists(s.db, CommandOf(cfg, s, step), k, x)
  {
    var w := s.workers[step.w];
    k := QueueKey(if w.Pushing? then w.queue else s.db.tasks[x].queue);
  }

  /** In the first n steps x is in exactly one place all the time, and once settled it stays so. */
  ghost predicate Sole(cfg: Config, run: seq<State>, n: nat, x: Id)
    requires n < |run|
  {
    && (forall m :: 0 <= m <= n ==> Placed(cfg, run[m], x))
    && (forall m :: 0 <= m < n && Done(run[m], x) ==> Done(run[m + 1], x))
  }

  ghost predicate Placed(cfg: Config, s: State, x: Id) {
    exists p :: At(cfg, s, x, p)
  }

  lemma {:induction false} SoleGrantsOnce(cfg: Config, run: seq<State>, steps: seq<Step>, n: nat, x: Id)
    requires IsRun(cfg, run, steps) && n <= |steps| && x in cfg.tasks && Sole(cfg, run, n, x)
    ensures Count(cfg, run, steps, n, Grants(x)) <= 1
  {
    if n > 0 {
      SoleGrantsOnce(cfg, run, steps, n - 1, x);
      if Count(cfg, run, steps, n - 1, Grants(x)) == 1 {
        var p := PlaceOf(cfg, run, steps, n - 1, x);
        assert Placed(cfg, run[n], x);
        var p' :| At(cfg, run[n], x, p');
        assert Done(run[n - 1], x) ==> Done(run[n - 1 + 1], x);
        var s, s' := StatesAt(cfg, run, steps, n);
        SecondGrant(cfg, s, steps[n - 1], s', x, p, p');
      }
    }
  }

  lemma GrantedOnceSole(cfg: Config, run: seq<State>, steps: seq<Step>, n: nat, x: Id)
    requires IsRun(cfg, run, steps) && n <= |steps| && x in cfg.tasks && Count(cfg, run, steps, n, Grants(x)) <= 1
    ensures Sole(cfg, run, n, x)
  {
    forall m | 0 <= m <= n ensures Placed(cfg, run[m], x) {
      CountGrows(cfg, run, steps, m, n, Grants(x));
      var p := PlaceOf(cfg, run, steps, m, x);
    }
    forall m | 0 <= m < n && Done(run[m], x) ensures Done(run[m + 1], x) {
      CountGrows(cfg, run, steps, m, n, Grants(x));
      CountGrows(cfg, run, steps, m + 1, n, Grants(x));
      SettledIsNowhere(cfg, run, steps, m, x);
      SettledIsNowhere(cfg, run, steps, m + 1, x);
    }
  }

  /**
   * Main result, exactly when a task has one owner: in every run, x is in exactly one place all
   * the time, and once settled stays so, if and only if it was freed or condemned at most once.
   */
  lemma OnePlaceIffGrantedOnce(cfg: Config, run: seq<State>, steps: seq<Step>, n: nat, x: Id)
    requires IsRun(cfg, run, steps) && n <= |steps| && x in cfg.tasks
    ensures Sole(cfg, run, n, x) <==> Count(cfg, run, steps, n, Grants(x)) <= 1
  {
    if Sole(cfg, run, n, x) {
      SoleGrantsOnce(cfg, run, steps, n, x);
    }
    if Count(cfg, run, steps, n, Grants(x)) <= 1 {
      GrantedOnceSole(cfg, run, steps, n, x);
    }
  }
}
