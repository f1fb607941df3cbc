/**
 * A task never starts before its dependencies are processed: for every interleaving of single
 * commands, any number of workers, dependencies and concurrent submissions.
 */
module DependencySafety {
  import opened Basics
  import opened Keys
  import opened SortedSets
  import opened Tasks
  import opened Store
  import opened Commands
  import opened Protocol
  import opened Bookkeeping
  import opened Events

  ghost predicate AllIn(deps: seq<Id>, named: set<Id>) {
    forall x :: x in deps ==> x in named
  }

  /** A worker that holds d, or has seen that nothing is pending for it. */
  predicate Past(w: Worker, d: Id) {
    Holds(w) == Some(d) || ((w.Fetching? || w.Pushing? || w.Clearing?) && w.dep == d)
  }

  /**
   * The invariant, for one task d with dependencies that no worker has listed to fail it; named
   * are the dependencies that have listed d to release it. What is pending is what d depends on;
   * what is no longer pending has listed d; whoever is past the SCARD test, and whatever list or
   * sorted set d is in, has seen all of them do so.
   */
  ghost predicate Waits(cfg: Config, s: State, d: Id, named: set<Id>, freed: nat) {
    && d in s.clients
    && Pended(cfg, s, d, named)
    && (forall x :: x in s.db.Members(PendingDepsKey(d)) ==> x in cfg.Depends(d))
    && (forall w :: w in s.workers ==> WorkerWaits(cfg, s.workers[w], d, named))
    && (forall k :: d in s.db.List(k) ==> AllIn(cfg.Depends(d), named))
    && (forall k :: Has(s.db.Ranks(k), d) ==> AllIn(cfg.Depends(d), named))
    && (freed >= 1 ==> AllIn(cfg.Depends(d), named))
  }

  ghost predicate Pended(cfg: Config, s: State, d: Id, named: set<Id>)
    requires d in s.clients
  {
    var deps := cfg.Depends(d);
    var pending := s.db.Members(PendingDepsKey(d));
    match s.clients[d]
    case AddingPending(i) => forall j :: 0 <= j < i && j < |deps| ==> deps[j] in pending
    case _ => Linking(s.clients[d]) ==> forall x :: x in deps ==> x in pending || x in named
  }

  ghost predicate WorkerWaits(cfg: Config, w: Worker, d: Id, named: set<Id>) {
    && (Knows(w, d) ==> Releasing(w) && w.done in named)
    && (Past(w, d) ==> AllIn(cfg.Depends(d), named))
  }

  /** The dependency that lists d in this step. */
  ghost function NamedBy(s: State, step: Step, d: Id): set<Id> {
    if step.WorkerStep? && step.w in s.workers && s.workers[step.w].ReleaseListing? &&
       d in s.db.Members(TaskDepsKey(s.workers[step.w].done))
    then {s.workers[step.w].done} else {}
  }

  // ---- one step ----

  /** What the step takes out of pending_deps(d), for the worker that takes it. */
  lemma PendingShrinks(cfg: Config, s: State, step: Step, d: Id, named: set<Id>)
    requires step.WorkerStep? && Enabled(cfg, s, step) && WorkerWaits(cfg, s.workers[step.w], d, named)
    ensures var before, after := s.db.Members(PendingDepsKey(d)), After(cfg, s, step).db.Members(PendingDepsKey(d));
            after <= before && (forall x :: x in before && x in cfg.Depends(d) && x !in after ==> x in named + NamedBy(s, step, d))
  {
    EnabledOrdered(cfg, s, step);
    SetFrame(s.db, CommandOf(cfg, s, step), PendingDepsKey(d));
  }

  lemma PendingSame(cfg: Config, s: State, step: Step, d: Id)
    requires cfg.Valid() && Enabled(cfg, s, step) && !step.WorkerStep? && !(step.ClientStep? && step.id == d)
    ensures After(cfg, s, step).db.Members(PendingDepsKey(d)) == s.db.Members(PendingDepsKey(d))
  {
    SetFrame(s.db, CommandOf(cfg, s, step), PendingDepsKey(d));
  }

  /** Only workers that know of d touch what is pending for it, and then d is linked. */
  lemma UnlinkedSame(cfg: Config, s: State, step: Step, d: Id)
    requires step.WorkerStep? && Enabled(cfg, s, step) && !Knows(s.workers[step.w], d)
    requires d !in s.db.Members(TaskDepsKey(if Releasing(s.workers[step.w]) then s.workers[step.w].done else ""))
    ensures After(cfg, s, step).db.Members(PendingDepsKey(d)) == s.db.Members(PendingDepsKey(d))
  {
    EnabledOrdered(cfg, s, step);
    SetFrame(s.db, CommandOf(cfg, s, step), PendingDepsKey(d));
  }

  lemma PendedStays(cfg: Config, s: State, step: Step, d: Id, named: set<Id>, freed: nat)
    requires Kept(cfg, s) && Waits(cfg, s, d, named, freed) && cfg.Depends(d) != [] && Enabled(cfg, s, step)
    ensures Pended(cfg, After(cfg, s, step), d, named + NamedBy(s, step, d))
    ensures forall x :: x in After(cfg, s, step).db.Members(PendingDepsKey(d)) ==> x in cfg.Depends(d)
  {
    if step.WorkerStep? {
      var w := s.workers[step.w];
      assert WorkerRight(cfg, s, w);
      PendingShrinks(cfg, s, step, d, named);
      if !Linking(s.clients[d]) {
        assert !Knows(w, d);
        assert Releasing(w) ==> d !in s.db.Members(TaskDepsKey(w.done));
        assert d !in s.db.Members(TaskDepsKey(""));
        UnlinkedSame(cfg, s, step, d);
      }
    } else if step.ClientStep? && step.id == d {
      OwnClientPends(cfg, s, step, d, named);
    } else {
      PendingSame(cfg, s, step, d);
    }
  }

  lemma OwnClientPends(cfg: Config, s: State, step: Step, d: Id, named: set<Id>)
    requires cfg.Valid() && step.ClientStep? && step.id == d && Enabled(cfg, s, step) && cfg.Depends(d) != []
    requires d in s.clients && ClientRight(cfg, d, s.clients[d]) && Pended(cfg, s, d, named)
    requires forall x :: x in s.db.Members(PendingDepsKey(d)) ==> x in cfg.Depends(d)
    ensures Pended(cfg, After(cfg, s, step), d, named)
    ensures forall x :: x in After(cfg, s, step).db.Members(PendingDepsKey(d)) ==> x in cfg.Depends(d)
  {
    SetFrame(s.db, CommandOf(cfg, s, step), PendingDepsKey(d));
  }

  /** A command that puts d on a list comes from a worker that has seen all of d's dependencies list it. */
  lemma PlacedLate(cfg: Config, s: State, step: Step, d: Id, named: set<Id>, freed: nat, k: Key)
    requires Kept(cfg, s) && Waits(cfg, s, d, named, freed) && cfg.Depends(d) != [] && Enabled(cfg, s, step)
    requires Commands.Lists(s.db, CommandOf(cfg, s, step), k, d)
    ensures AllIn(cfg.Depends(d), named + NamedBy(s, step, d))
  {
    var c := CommandOf(cfg, s, step);
    ActorsRight(cfg, s, step);
    if c.MoveDue? {
      TailHas(s.db.Ranks(c.k), BatchCount(s.db.Ranks(c.k), c.now, BATCH_SIZE), d);
    } else if c.PDequeue? {
      assert Has(s.db.Ranks(PriorityKey(c.queue)), d);
    } else if c.ReleaseAll? {
      ScriptSeesAll(cfg, s, step, d, named);
    } else {
      PushedLate(cfg, s, step, d, named);
    }
  }

  lemma ScriptSeesAll(cfg: Config, s: State, step: Step, d: Id, named: set<Id>)
    requires Enabled(cfg, s, step) && SetsKept(cfg, s) && d in s.clients && Pended(cfg, s, d, named)
    requires var c := CommandOf(cfg, s, step); c.ReleaseAll? && d in c.order && Release.LastFor(s.db, c.done, d)
    ensures AllIn(cfg.Depends(d), named + NamedBy(s, step, d))
  {
    var done := CommandOf(cfg, s, step).done;
    assert d in s.db.Members(TaskDepsKey(done));
    assert Links(cfg, s, d, done);
  }

  lemma PushedLate(cfg: Config, s: State, step: Step, d: Id, named: set<Id>)
    requires cfg.Valid() && MoverRight(cfg, s, step) && SubmitterRight(cfg, s, step) && cfg.Depends(d) != [] && Enabled(cfg, s, step)
    requires step.WorkerStep? ==> WorkerWaits(cfg, s.workers[step.w], d, named)
    requires var c := CommandOf(cfg, s, step); (c.RPush? || c.LPush? || c.ZAdd?) && c.id == d
    ensures AllIn(cfg.Depends(d), named)
  {
  }

  lemma ContainersKeep(cfg: Config, s: State, step: Step, d: Id, named: set<Id>, freed: nat)
    requires Kept(cfg, s) && Waits(cfg, s, d, named, freed) && cfg.Depends(d) != [] && Enabled(cfg, s, step)
    ensures var s' := After(cfg, s, step); var named' := named + NamedBy(s, step, d);
            && (forall k :: d in s'.db.List(k) ==> AllIn(cfg.Depends(d), named'))
            && (forall k :: Has(s'.db.Ranks(k), d) ==> AllIn(cfg.Depends(d), named'))
  {
    var s' := After(cfg, s, step);
    var named' := named + NamedBy(s, step, d);
    var c := CommandOf(cfg, s, step);
    EnabledOrdered(cfg, s, step);
    forall k | d in s'.db.List(k) ensures AllIn(cfg.Depends(d), named') {
      ListFrame(s.db, c, k, d);
      if d !in s.db.List(k) { PlacedLate(cfg, s, step, d, named, freed, k); }
    }
    forall k | Has(s'.db.Ranks(k), d) ensures AllIn(cfg.Depends(d), named') {
      RanksFrame(s.db, c, k, d);
      if !Has(s.db.Ranks(k), d) {
        ActorsRight(cfg, s, step);
        PushedLate(cfg, s, step, d, named);
      }
    }
  }

  // ---- the worker that moves ----

  lemma WorkerMoves(cfg: Config, s: State, step: Step, d: Id, named: set<Id>, freed: nat)
    requires Kept(cfg, s) && Waits(cfg, s, d, named, freed) && step.WorkerStep? && Enabled(cfg, s, step)
    requires !Occurs(cfg, s, step, Dooms(d))
    ensures WorkerWaits(cfg, After(cfg, s, step).workers[step.w], d, named + NamedBy(s, step, d))
  {
    var w := s.workers[step.w];
    assert WorkerRight(cfg, s, w);
    if Holds(w).Some? {
      HoldMoves(cfg, s.db, w, step.choice, d, named);
    } else if w.ReleaseListing? || w.FailListing? {
      ListMoves(cfg, s, step, d, named);
    } else if Tail(w).Some? {
      LoopMoves(cfg, s, w, step.choice, d, named);
    } else {
      FetchMoves(cfg, s, w, step.choice, d, named);
    }
  }

  lemma HoldMoves(cfg: Config, db: Db, w: Worker, c: Choice, d: Id, named: set<Id>)
    requires Holds(w).Some? && WorkerWaits(cfg, w, d, named)
    requires w.Loading? && w.id in db.tasks ==> db.tasks[w.id].data.id == w.id
    ensures WorkerWaits(cfg, WorkerNext(cfg, db, w, c), d, named)
  {
  }

  lemma ListMoves(cfg: Config, s: State, step: Step, d: Id, named: set<Id>)
    requires step.WorkerStep? && Enabled(cfg, s, step) && !Occurs(cfg, s, step, Dooms(d))
    requires s.workers[step.w].ReleaseListing? || s.workers[step.w].FailListing?
    ensures WorkerWaits(cfg, After(cfg, s, step).workers[step.w], d, named + NamedBy(s, step, d))
  {
  }

  lemma LoopMoves(cfg: Config, s: State, w: Worker, c: Choice, d: Id, named: set<Id>)
    requires Tail(w).Some? && !w.ReleaseListing? && !w.FailListing? && WorkerWaits(cfg, w, d, named)
    requires d in s.clients && Pended(cfg, s, d, named) && (Knows(w, d) ==> Linking(s.clients[d]))
    ensures WorkerWaits(cfg, WorkerNext(cfg, s.db, w, c), d, named)
  {
    KnowsLess(cfg, s.db, w, c, d);
  }

  /** A worker fetches d only from where it was put. */
  lemma FetchMoves(cfg: Config, s: State, w: Worker, c: Choice, d: Id, named: set<Id>)
    requires w.Idle? || w.CheckingPause? || w.Popping?
    requires forall k :: d in s.db.List(k) ==> AllIn(cfg.Depends(d), named)
    requires forall k :: Has(s.db.Ranks(k), d) ==> AllIn(cfg.Depends(d), named)
    ensures WorkerWaits(cfg, WorkerNext(cfg, s.db, w, c), d, named)
  {
    if w.Idle? && c.Poll? && s.db.PDequeue(c.queue).1 == Got(d) {
      assert s.db.Ranks(PriorityKey(c.queue))[0].id == d;
      assert Has(s.db.Ranks(PriorityKey(c.queue)), d);
    }
  }

  lemma FreedLate(cfg: Config, s: State, step: Step, d: Id, named: set<Id>, freed: nat)
    requires Kept(cfg, s) && Waits(cfg, s, d, named, freed) && Enabled(cfg, s, step)
    requires Occurs(cfg, s, step, Frees(d))
    ensures AllIn(cfg.Depends(d), named + NamedBy(s, step, d))
  {
    if !s.workers[step.w].Pushing? {
      ScriptSeesAll(cfg, s, step, d, named);
    }
  }

  lemma StepKeeps(cfg: Config, s: State, step: Step, d: Id, named: set<Id>, freed: nat, freed': nat)
    requires Kept(cfg, s) && Waits(cfg, s, d, named, freed) && cfg.Depends(d) != [] && Enabled(cfg, s, step)
    requires !Occurs(cfg, s, step, Dooms(d)) && freed' == freed + if Occurs(cfg, s, step, Frees(d)) then 1 else 0
    ensures Waits(cfg, After(cfg, s, step), d, named + NamedBy(s, step, d), freed')
  {
    var s' := After(cfg, s, step);
    var named' := named + NamedBy(s, step, d);
    PendedStays(cfg, s, step, d, named, freed);
    ContainersKeep(cfg, s, step, d, named, freed);
    forall w | w in s'.workers ensures WorkerWaits(cfg, s'.workers[w], d, named') {
      if step.WorkerStep? && w == step.w {
        WorkerMoves(cfg, s, step, d, named, freed);
      }
    }
    if Occurs(cfg, s, step, Frees(d)) { FreedLate(cfg, s, step, d, named, freed); }
  }

  // ---- whole runs ----

  /** The dependencies that have listed d to release it in the first n steps. */
  ghost function Named(run: seq<State>, steps: seq<Step>, n: nat, d: Id): set<Id>
    requires n <= |steps| < |run|
  {
    if n == 0 then {} else Named(run, steps, n - 1, d) + NamedBy(run[n - 1], steps[n - 1], d)
  }

  lemma {:induction false} NamedCount(cfg: Config, run: seq<State>, steps: seq<Step>, n: nat, x: Id, d: Id)
    requires n <= |steps| < |run|
    ensures x in Named(run, steps, n, d) <==> Count(cfg, run, steps, n, Names(x, d)) >= 1
  {
    if n > 0 {
      NamedCount(cfg, run, steps, n - 1, x, d);
    }
  }

  lemma StartWaits(cfg: Config, s: State, d: Id)
    requires Init(cfg, s) && d in cfg.tasks
    ensures Waits(cfg, s, d, {}, 0)
  {
    EmptyStore(s.db);
  }

  lemma {:induction false} WaitsThroughout(cfg: Config, run: seq<State>, steps: seq<Step>, n: nat, d: Id)
    requires IsRun(cfg, run, steps) && n <= |steps| && d in cfg.tasks && cfg.Depends(d) != []
    requires Count(cfg, run, steps, n, Dooms(d)) == 0
    ensures Waits(cfg, run[n], d, Named(run, steps, n, d), Count(cfg, run, steps, n, Frees(d)))
  {
    if n == 0 {
      StartWaits(cfg, run[0], d);
    } else {
      WaitsThroughout(cfg, run, steps, n - 1, d);
      var s, s' := StatesAt(cfg, run, steps, n);
      WaitsNext(cfg, s, steps[n - 1], s', d, Named(run, steps, n - 1, d), Count(cfg, run, steps, n - 1, Frees(d)));
    }
  }

  lemma WaitsNext(cfg: Config, s: State, step: Step, s': State, d: Id, named: set<Id>, freed: nat)
    requires Kept(cfg, s) && Waits(cfg, s, d, named, freed) && cfg.Depends(d) != [] && Next(cfg, s, step, s')
    requires !Occurs(cfg, s, step, Dooms(d))
    ensures Waits(cfg, s', d, named + NamedBy(s, step, d), freed + if Occurs(cfg, s, step, Frees(d)) then 1 else 0)
  {
    StepKeeps(cfg, s, step, d, named, freed, freed + if Occurs(cfg, s, step, Frees(d)) then 1 else 0);
  }

  /** A worker finishes off only what it has acknowledged. */
  ghost predicate Acknowledged(cfg: Config, run: seq<State>, steps: seq<Step>, n: nat, w: Worker)
    requires n <= |steps| < |run|
  {
    && (Releasing(w) ==> Count(cfg, run, steps, n, Saves(w.done, Processed)) >= 1)
    && (Failing(w) ==> Count(cfg, run, steps, n, Saves(w.done, Dead)) >= 1)
  }

  /** Where a worker that finishes a task off comes from. */
  lemma TailBefore(cfg: Config, s: State, w: Worker, c: Choice)
    requires HoldsRight(cfg, s, w)
    ensures var w' := WorkerNext(cfg, s.db, w, c);
            && (Releasing(w') ==> (Releasing(w) && w.done == w'.done) || By(cfg, s.db, w, c, Saves(w'.done, Processed)))
            && (Failing(w') ==> (Failing(w) && w.done == w'.done) || By(cfg, s.db, w, c, Saves(w'.done, Dead)))
  {
  }

  lemma {:induction false} AcknowledgedThroughout(cfg: Config, run: seq<State>, steps: seq<Step>, n: nat, w: WorkerId)
    requires IsRun(cfg, run, steps) && n <= |steps| && w in run[n].workers
    ensures Acknowledged(cfg, run, steps, n, run[n].workers[w])
  {
    if n > 0 {
      RunStep(cfg, run, steps, n);
      AcknowledgedThroughout(cfg, run, steps, n - 1, w);
      if steps[n - 1].WorkerStep? && steps[n - 1].w == w {
        KeptThroughout(cfg, run, steps, n - 1);
        assert WorkerRight(cfg, run[n - 1], run[n - 1].workers[w]);
        TailBefore(cfg, run[n - 1], run[n - 1].workers[w], steps[n - 1].choice);
      }
    }
  }

  /** No dependency of d is acknowledged Dead. */
  ghost predicate NoneDies(cfg: Config, run: seq<State>, steps: seq<Step>, n: nat, d: Id)
    requires n <= |steps| < |run|
  {
    forall j, x :: 0 <= j < n && x in cfg.Depends(d) ==> !Occurs(cfg, run[j], steps[j], Saves(x, Dead))
  }

  /** Only a dependency that died can list d to fail it. */
  lemma DoomedByDead(cfg: Config, run: seq<State>, steps: seq<Step>, j: nat, d: Id) returns (x: Id)
    requires IsRun(cfg, run, steps) && j < |steps| && Occurs(cfg, run[j], steps[j], Dooms(d))
    ensures x in cfg.Depends(d) && exists i :: 0 <= i < j && Occurs(cfg, run[i], steps[i], Saves(x, Dead))
  {
    x := run[j].workers[steps[j].w].done;
    LinkedAt(cfg, run, steps, j, x, d);
    AcknowledgedThroughout(cfg, run, steps, j, steps[j].w);
    Happened(cfg, run, steps, j, Saves(x, Dead));
  }

  lemma {:induction false} NoneDiesNoneDoomed(cfg: Config, run: seq<State>, steps: seq<Step>, n: nat, d: Id)
    requires IsRun(cfg, run, steps) && n <= |steps| && NoneDies(cfg, run, steps, n, d)
    ensures Count(cfg, run, steps, n, Dooms(d)) == 0
  {
    if n > 0 {
      NoneDiesNoneDoomed(cfg, run, steps, n - 1, d);
      if Occurs(cfg, run[n - 1], steps[n - 1], Dooms(d)) {
        var x := DoomedByDead(cfg, run, steps, n - 1, d);
      }
    }
  }

  /** d is waiting on some list or in some sorted set, or a worker holds it (its handler may run). */
  ghost predicate Launched(s: State, d: Id) {
    || (exists k :: d in s.db.List(k))
    || (exists k :: Has(s.db.Ranks(k), d))
    || (exists w :: w in s.workers && Holds(s.workers[w]) == Some(d))
  }

  /**
   * Main result: take any run of clients, workers and the scheduler in which no dead dependency
   * of d has listed it in the first n steps (in particular any run in which no dependency of d
   * dies). If d, submitted with dependencies, is after n steps on any list, in any sorted set or
   * in the hands of a worker, then each of its dependencies was acknowledged Processed by some
   * earlier step, and after that listed d.
   */
  lemma NeverBeforeItsDependencies(cfg: Config, run: seq<State>, steps: seq<Step>, n: nat, d: Id, x: Id)
    requires IsRun(cfg, run, steps) && n <= |steps| && d in cfg.tasks && x in cfg.Depends(d)
    requires Count(cfg, run, steps, n, Dooms(d)) == 0 && Launched(run[n], d)
    ensures exists i, j :: 0 <= i < j < n && Occurs(cfg, run[i], steps[i], Saves(x, Processed)) && Occurs(cfg, run[j], steps[j], Names(x, d))
  {
    WaitsThroughout(cfg, run, steps, n, d);
    NamedCount(cfg, run, steps, n, x, d);
    Happened(cfg, run, steps, n, Names(x, d));
    var j :| 0 <= j < n && Occurs(cfg, run[j], steps[j], Names(x, d));
    AcknowledgedThroughout(cfg, run, steps, j, steps[j].w);
    Happened(cfg, run, steps, j, Saves(x, Processed));
  }
}
