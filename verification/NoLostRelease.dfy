/**
 * A task is released, however the commands of clients and workers interleave, exactly if each of
 * its dependencies lists it when it has been processed.
 */
module NoLostRelease {
  import opened Basics
  import opened Keys
  import opened Tasks
  import opened Store
  import opened Commands
  import opened Protocol
  import opened Bookkeeping
  import opened Events
  import opened DependencySafety

  /** A worker that has listed the dependents of a processed task and is going through them. */
  predicate Loops(w: Worker) {
    Releasing(w) && !w.ReleaseListing?
  }

  /** Some worker that goes through the dependents of x has d ahead. */
  ghost predicate Heads(s: State, x: Id, d: Id) {
    exists w :: w in s.workers && Loops(s.workers[w]) && s.workers[w].done == x && d in Todo(s.workers[w])
  }

  ghost predicate SomeoneDecides(s: State, d: Id) {
    exists w :: w in s.workers && Decides(s.workers[w], d)
  }

  /**
   * While d was not pushed: a dependency that has listed d and is still pending has a worker with
   * d ahead, and when nothing is pending any more some worker is about to push d.
   */
  ghost predicate Comes(s: State, d: Id, named: set<Id>, freed: nat) {
    && d in s.clients
    && (!Linking(s.clients[d]) ==> named == {})
    && (freed == 0 ==>
          && (forall x :: x in named && x in s.db.Members(PendingDepsKey(d)) ==> Heads(s, x, d))
          && (Linking(s.clients[d]) && s.db.Members(PendingDepsKey(d)) == {} ==> SomeoneDecides(s, d))
          && (forall w :: w in s.workers ==> !(s.workers[w].Clearing? && s.workers[w].dep == d)))
  }

  /** The worker takes done out of pending_deps(d). */
  predicate Drops(w: Worker, c: Command, d: Id) {
    (w.Dropping? && w.todo != [] && w.todo[0] == d) || (c.ReleaseAll? && d in c.order)
  }

  lemma WorkerPending(cfg: Config, s: State, step: Step, d: Id)
    requires step.WorkerStep? && Enabled(cfg, s, step) && (Knows(s.workers[step.w], d) ==> Releasing(s.workers[step.w]))
    ensures var w := s.workers[step.w];
            After(cfg, s, step).db.Members(PendingDepsKey(d)) ==
              if Drops(w, CommandOf(cfg, s, step), d) then s.db.Members(PendingDepsKey(d)) - {w.done}
              else if w.Clearing? && w.dep == d then {}
              else s.db.Members(PendingDepsKey(d))
  {
    EnabledOrdered(cfg, s, step);
    SetFrame(s.db, CommandOf(cfg, s, step), PendingDepsKey(d));
  }

  // ---- a worker's step ----

  lemma HeadsNext(cfg: Config, s: State, step: Step, d: Id, named: set<Id>, x: Id)
    requires step.WorkerStep? && Enabled(cfg, s, step) && (Knows(s.workers[step.w], d) ==> Releasing(s.workers[step.w]))
    requires x in named && x in s.db.Members(PendingDepsKey(d)) ==> Heads(s, x, d)
    requires x in named + NamedBy(s, step, d) && x in After(cfg, s, step).db.Members(PendingDepsKey(d))
    requires !(s.workers[step.w].Clearing? && s.workers[step.w].dep == d)
    ensures Heads(After(cfg, s, step), x, d)
  {
    WorkerPending(cfg, s, step, d);
    var s' := After(cfg, s, step);
    var w := s.workers[step.w];
    if w == ReleaseListing(x) && d in s.db.Members(TaskDepsKey(x)) {
      assert Loops(s'.workers[step.w]) && s'.workers[step.w].done == x && d in Todo(s'.workers[step.w]);
    } else {
      var v :| v in s.workers && Loops(s.workers[v]) && s.workers[v].done == x && d in Todo(s.workers[v]);
      assert v in s'.workers && Loops(s'.workers[v]) && s'.workers[v].done == x && d in Todo(s'.workers[v]);
    }
  }

  /** While d was not pushed and nothing is pending for it, some worker still has to push it. */
  lemma StillDecides(cfg: Config, s: State, step: Step, d: Id)
    requires step.WorkerStep? && Enabled(cfg, s, step) && (Knows(s.workers[step.w], d) ==> Releasing(s.workers[step.w]))
    requires d in s.db.tasks && !Occurs(cfg, s, step, Frees(d))
    requires s.db.Members(PendingDepsKey(d)) == {} ==> SomeoneDecides(s, d)
    requires !(s.workers[step.w].Clearing? && s.workers[step.w].dep == d)
    requires After(cfg, s, step).db.Members(PendingDepsKey(d)) == {}
    ensures SomeoneDecides(After(cfg, s, step), d)
  {
    WorkerPending(cfg, s, step, d);
    var s' := After(cfg, s, step);
    var w := s.workers[step.w];
    if s.db.Members(PendingDepsKey(d)) == {} {
      var v :| v in s.workers && Decides(s.workers[v], d);
      assert Decides(s'.workers[v], d);
    } else {
      assert Drops(w, CommandOf(cfg, s, step), d) && s.db.Members(PendingDepsKey(d)) <= {w.done};
      assert Decides(s'.workers[step.w], d);
    }
  }

  /** A worker gets to clear up after a recorded task only by pushing it. */
  lemma ClearsPushed(cfg: Config, db: Db, w: Worker, c: Choice, d: Id)
    requires d in db.tasks && !By(cfg, db, w, c, Frees(d))
    ensures !(WorkerNext(cfg, db, w, c).Clearing? && WorkerNext(cfg, db, w, c).dep == d)
  {
  }

  lemma WorkerComes(cfg: Config, s: State, step: Step, d: Id, named: set<Id>)
    requires Kept(cfg, s) && Waits(cfg, s, d, named, 0) && Comes(s, d, named, 0) && step.WorkerStep? && Enabled(cfg, s, step)
    requires !Occurs(cfg, s, step, Frees(d))
    ensures Comes(After(cfg, s, step), d, named + NamedBy(s, step, d), 0)
  {
    var s', named' := After(cfg, s, step), named + NamedBy(s, step, d);
    assert NamedBy(s, step, d) != {} ==> Links(cfg, s, d, s.workers[step.w].done);
    forall x | x in named' && x in s'.db.Members(PendingDepsKey(d)) ensures Heads(s', x, d) {
      HeadsNext(cfg, s, step, d, named, x);
    }
    if Linking(s'.clients[d]) {
      if s'.db.Members(PendingDepsKey(d)) == {} { StillDecides(cfg, s, step, d); }
      forall w | w in s'.workers ensures !(s'.workers[w].Clearing? && s'.workers[w].dep == d) {
        if w == step.w { ClearsPushed(cfg, s.db, s.workers[w], step.choice, d); }
      }
    } else {
      assert WorkerRight(cfg, s', s'.workers[step.w]) by { StepKeepsWorkers(cfg, s, step); }
      assert !Knows(s'.workers[step.w], d);
    }
  }

  lemma StepKeepsWorkers(cfg: Config, s: State, step: Step)
    requires Kept(cfg, s) && Enabled(cfg, s, step)
    ensures WorkersRight(cfg, After(cfg, s, step))
  {
    WorkersStay(cfg, s, step);
  }

  // ---- other steps ----

  lemma OtherComes(cfg: Config, s: State, step: Step, d: Id, named: set<Id>)
    requires Kept(cfg, s) && Waits(cfg, s, d, named, 0) && Comes(s, d, named, 0) && cfg.Depends(d) != []
    requires !step.WorkerStep? && Enabled(cfg, s, step)
    ensures Comes(After(cfg, s, step), d, named, 0)
  {
    var s' := After(cfg, s, step);
    assert s'.workers == s.workers;
    forall x | Heads(s, x, d) ensures Heads(s', x, d) {
    }
    assert SomeoneDecides(s, d) ==> SomeoneDecides(s', d);
    if step.ClientStep? && step.id == d {
      OwnClientComes(cfg, s, step, d, named);
    } else {
      PendingSame(cfg, s, step, d);
    }
  }

  lemma OwnClientComes(cfg: Config, s: State, step: Step, d: Id, named: set<Id>)
    requires Kept(cfg, s) && Waits(cfg, s, d, named, 0) && Comes(s, d, named, 0) && cfg.Depends(d) != []
    requires step.ClientStep? && step.id == d && Enabled(cfg, s, step)
    ensures Comes(After(cfg, s, step), d, named, 0)
  {
    OwnClientPends(cfg, s, step, d, named);
    SetFrame(s.db, CommandOf(cfg, s, step), PendingDepsKey(d));
    assert cfg.Depends(d)[0] in cfg.Depends(d);
  }

  lemma ComesNext(cfg: Config, s: State, step: Step, s': State, d: Id, named: set<Id>, freed: nat)
    requires Kept(cfg, s) && Waits(cfg, s, d, named, freed) && Comes(s, d, named, freed) && cfg.Depends(d) != []
    requires Next(cfg, s, step, s')
    ensures Comes(s', d, named + NamedBy(s, step, d), freed + if Occurs(cfg, s, step, Frees(d)) then 1 else 0)
  {
    assert NamedBy(s, step, d) != {} ==> Links(cfg, s, d, s.workers[step.w].done);
    if freed == 0 && !Occurs(cfg, s, step, Frees(d)) {
      if step.WorkerStep? {
        WorkerComes(cfg, s, step, d, named);
      } else {
        OtherComes(cfg, s, step, d, named);
      }
    }
  }

  lemma ComesStep(cfg: Config, run: seq<State>, steps: seq<Step>, n: nat, d: Id)
    requires IsRun(cfg, run, steps) && 0 < n <= |steps| && d in cfg.tasks && cfg.Depends(d) != []
    requires Count(cfg, run, steps, n, Dooms(d)) == 0
    requires Comes(run[n - 1], d, Named(run, steps, n - 1, d), Count(cfg, run, steps, n - 1, Frees(d)))
    ensures Comes(run[n], d, Named(run, steps, n, d), Count(cfg, run, steps, n, Frees(d)))
  {
    WaitsThroughout(cfg, run, steps, n - 1, d);
    var s, s' := StatesAt(cfg, run, steps, n);
    ComesNext(cfg, s, steps[n - 1], s', d, Named(run, steps, n - 1, d), Count(cfg, run, steps, n - 1, Frees(d)));
  }

  lemma {:induction false} ComesThroughout(cfg: Config, run: seq<State>, steps: seq<Step>, n: nat, d: Id)
    requires IsRun(cfg, run, steps) && n <= |steps| && d in cfg.tasks && cfg.Depends(d) != []
    requires Count(cfg, run, steps, n, Dooms(d)) == 0
    ensures Comes(run[n], d, Named(run, steps, n, d), Count(cfg, run, steps, n, Frees(d)))
  {
    if n > 0 {
      ComesThroughout(cfg, run, steps, n - 1, d);
      ComesStep(cfg, run, steps, n, d);
    }
  }

  /** No worker is busy releasing d. */
  ghost predicate NobodyBusy(s: State, d: Id) {
    forall w :: w in s.workers && Releasing(s.workers[w]) ==> !Knows(s.workers[w], d)
  }

  lemma AllNamedFrees(cfg: Config, s: State, d: Id, named: set<Id>, freed: nat)
    requires Waits(cfg, s, d, named, freed) && Comes(s, d, named, freed) && cfg.Depends(d) != []
    requires AllIn(cfg.Depends(d), named) && NobodyBusy(s, d)
    ensures freed >= 1
  {
    assert cfg.Depends(d)[0] in named;
    assert forall x :: !Heads(s, x, d);
    assert !SomeoneDecides(s, d);
    assert forall x :: x in s.db.Members(PendingDepsKey(d)) ==> x in cfg.Depends(d);
    assert freed == 0 ==> s.db.Members(PendingDepsKey(d)) == {};
  }

  /**
   * Main result: in every run, if no dead dependency has listed d and no worker is still busy
   * releasing it, then d was put on its queue at least once if and only if each of its
   * dependencies listed it after it was processed - with the script or with interleaved commands,
   * because whoever makes the last removal sees an empty set.
   */
  lemma ReleasedIffAllListIt(cfg: Config, run: seq<State>, steps: seq<Step>, n: nat, d: Id)
    requires IsRun(cfg, run, steps) && n <= |steps| && d in cfg.tasks && cfg.Depends(d) != []
    requires Count(cfg, run, steps, n, Dooms(d)) == 0 && NobodyBusy(run[n], d)
    ensures Count(cfg, run, steps, n, Frees(d)) >= 1 <==>
      forall x :: x in cfg.Depends(d) ==> Count(cfg, run, steps, n, Names(x, d)) >= 1
  {
    WaitsThroughout(cfg, run, steps, n, d);
    ComesThroughout(cfg, run, steps, n, d);
    forall x ensures x in Named(run, steps, n, d) <==> Count(cfg, run, steps, n, Names(x, d)) >= 1 {
      NamedCount(cfg, run, steps, n, x, d);
    }
    if AllIn(cfg.Depends(d), Named(run, steps, n, d)) {
      AllNamedFrees(cfg, run[n], d, Named(run, steps, n, d), Count(cfg, run, steps, n, Frees(d)));
    }
  }

  // ---- when a dependency lists d ----

  /** No dependency of d lists its dependents before the client of d is through. */
  ghost predicate RegisteredFirst(cfg: Config, run: seq<State>, steps: seq<Step>, n: nat, d: Id)
    requires n <= |steps| < |run|
  {
    forall j, x :: 0 <= j < n && x in cfg.Depends(d) && Occurs(cfg, run[j], steps[j], Starts(x)) ==>
      d in run[j].clients && run[j].clients[d].Accepted?
  }

  /** Until x has listed its dependents, all that was linked to it stays linked. */
  ghost predicate Findable(cfg: Config, s: State, d: Id, x: Id, started: nat) {
    && d in s.clients
    && (started == 0 ==>
          && (forall w :: w in s.workers && Tail(s.workers[w]) == Some(x) ==> s.workers[w].ReleaseListing?)
          && (s.clients[d].Accepted? ==> d in s.db.Members(TaskDepsKey(x)))
          && (s.clients[d].AddingDependents? ==>
                forall j :: 0 <= j < s.clients[d].i && j < |cfg.Depends(d)| && cfg.Depends(d)[j] == x ==>
                  d in s.db.Members(TaskDepsKey(x))))
  }

  lemma FindableNext(cfg: Config, s: State, step: Step, s': State, d: Id, x: Id, started: nat)
    requires Kept(cfg, s) && x in cfg.Depends(d) && Findable(cfg, s, d, x, started) && Next(cfg, s, step, s')
    requires !Occurs(cfg, s, step, Saves(x, Dead))
    ensures Findable(cfg, s', d, x, started + if Occurs(cfg, s, step, Starts(x)) then 1 else 0)
  {
    if started == 0 && !Occurs(cfg, s, step, Starts(x)) {
      if step.WorkerStep? {
        assert HoldsRight(cfg, s, s.workers[step.w]) by { assert WorkerRight(cfg, s, s.workers[step.w]); }
        WorkerFindable(cfg, s, step, d, x);
      } else {
        EnabledOrdered(cfg, s, step);
        SetFrame(s.db, CommandOf(cfg, s, step), TaskDepsKey(x));
        if step.ClientStep? && step.id == d { ClientFindable(cfg, s, step, d, x); }
      }
    }
  }

  lemma WorkerFindable(cfg: Config, s: State, step: Step, d: Id, x: Id)
    requires x in cfg.Depends(d) && Findable(cfg, s, d, x, 0) && step.WorkerStep? && Enabled(cfg, s, step)
    requires HoldsRight(cfg, s, s.workers[step.w])
    requires !Occurs(cfg, s, step, Saves(x, Dead)) && !Occurs(cfg, s, step, Starts(x))
    ensures Findable(cfg, After(cfg, s, step), d, x, 0)
  {
    TailBefore(cfg, s, s.workers[step.w], step.choice);
    UnstartedKept(cfg, s, step, x);
    TailBegins(cfg, s, step, x);
  }

  lemma UnstartedKept(cfg: Config, s: State, step: Step, x: Id)
    requires step.WorkerStep? && Enabled(cfg, s, step) && !Occurs(cfg, s, step, Starts(x))
    requires Tail(s.workers[step.w]) == Some(x) ==> s.workers[step.w].ReleaseListing?
    ensures s.db.Members(TaskDepsKey(x)) <= After(cfg, s, step).db.Members(TaskDepsKey(x))
  {
    EnabledOrdered(cfg, s, step);
    SetFrame(s.db, CommandOf(cfg, s, step), TaskDepsKey(x));
  }

  lemma TailBegins(cfg: Config, s: State, step: Step, x: Id)
    requires step.WorkerStep? && Enabled(cfg, s, step) && !Occurs(cfg, s, step, Starts(x))
    requires Tail(s.workers[step.w]) == Some(x) ==> s.workers[step.w].ReleaseListing?
    ensures Tail(After(cfg, s, step).workers[step.w]) == Some(x) ==> s.workers[step.w].Saving?
  {
  }

  lemma ClientFindable(cfg: Config, s: State, step: Step, d: Id, x: Id)
    requires cfg.Valid() && step.ClientStep? && step.id == d && Enabled(cfg, s, step) && x in cfg.Depends(d)
    requires d in s.clients && ClientRight(cfg, d, s.clients[d]) && Findable(cfg, s, d, x, 0)
    requires s.db.Members(TaskDepsKey(x)) <= After(cfg, s, step).db.Members(TaskDepsKey(x))
    ensures Findable(cfg, After(cfg, s, step), d, x, 0)
  {
  }

  lemma {:induction false} FindableThroughout(cfg: Config, run: seq<State>, steps: seq<Step>, n: nat, d: Id, x: Id)
    requires IsRun(cfg, run, steps) && n <= |steps| && d in cfg.tasks && x in cfg.Depends(d)
    requires NoneDies(cfg, run, steps, n, d)
    ensures Findable(cfg, run[n], d, x, Count(cfg, run, steps, n, Starts(x)))
  {
    if n > 0 {
      FindableThroughout(cfg, run, steps, n - 1, d, x);
      var s, s' := StatesAt(cfg, run, steps, n);
      FindableNext(cfg, s, steps[n - 1], s', d, x, Count(cfg, run, steps, n - 1, Starts(x)));
    }
  }

  /** The first time that x lists its dependents, d is registered and so among them. */
  lemma {:induction false} FirstListingNames(cfg: Config, run: seq<State>, steps: seq<Step>, n: nat, d: Id, x: Id)
    requires IsRun(cfg, run, steps) && n <= |steps| && d in cfg.tasks && x in cfg.Depends(d)
    requires NoneDies(cfg, run, steps, n, d) && RegisteredFirst(cfg, run, steps, n, d)
    requires Count(cfg, run, steps, n, Starts(x)) >= 1
    ensures Count(cfg, run, steps, n, Names(x, d)) >= 1
  {
    if Count(cfg, run, steps, n - 1, Starts(x)) >= 1 {
      FirstListingNames(cfg, run, steps, n - 1, d, x);
    } else {
      FindableThroughout(cfg, run, steps, n - 1, d, x);
    }
  }

  /**
   * No release is lost: if d is registered before any of its dependencies starts to release, none
   * of them dies, all of them have started to release and no worker is still busy releasing d,
   * then d was put on its queue at least once, in every run.
   */
  lemma NoReleaseIsLost(cfg: Config, run: seq<State>, steps: seq<Step>, n: nat, d: Id)
    requires IsRun(cfg, run, steps) && n <= |steps| && d in cfg.tasks && cfg.Depends(d) != []
    requires NoneDies(cfg, run, steps, n, d) && RegisteredFirst(cfg, run, steps, n, d)
    requires forall x :: x in cfg.Depends(d) ==> Count(cfg, run, steps, n, Starts(x)) >= 1
    requires NobodyBusy(run[n], d)
    ensures Count(cfg, run, steps, n, Frees(d)) >= 1
  {
    NoneDiesNoneDoomed(cfg, run, steps, n, d);
    forall x | x in cfg.Depends(d) ensures Count(cfg, run, steps, n, Names(x, d)) >= 1 {
      FirstListingNames(cfg, run, steps, n, d, x);
    }
    ReleasedIffAllListIt(cfg, run, steps, n, d);
  }
}
