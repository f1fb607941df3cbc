/** How often a task is released. */
module ReleaseCount {
  import opened Basics
  import opened Keys
  import opened Commands
  import opened Protocol
  import opened Bookkeeping
  import opened Events
  import opened Flows
  import opened DependencySafety
  import opened NoLostRelease

  // ---- exactly how often ----

  /**
   * Exactly how often: in every run, when no worker is about to push it, d was put on its queue
   * as many times as some worker saw that nothing was pending for it (a SCARD that answered zero,
   * or a script that found d waiting for nothing else). So it was released exactly once if and
   * only if that was seen exactly once.
   */
  lemma ReleasedPerSighting(cfg: Config, run: seq<State>, steps: seq<Step>, n: nat, d: Id)
    requires IsRun(cfg, run, steps) && n <= |steps|
    ensures Count(cfg, run, steps, n, Frees(d)) + |Workforce(run[n], ToPush(d))| == Count(cfg, run, steps, n, Sees(d))
    ensures (forall w :: w in run[n].workers ==> !In(run[n].workers[w], ToPush(d))) ==>
      Count(cfg, run, steps, n, Frees(d)) == Count(cfg, run, steps, n, Sees(d))
  {
    FlowsThroughout(cfg, run, steps, n, ToPush(d));
    if forall w :: w in run[n].workers ==> !In(run[n].workers[w], ToPush(d)) {
      assert Workforce(run[n], ToPush(d)) == {};
    }
  }

  // ---- at most once for each dependency ----

  /** Each call by a dependency that has not called before adds one to the dependencies that have. */
  lemma {:induction false} CallsNamed(cfg: Config, run: seq<State>, steps: seq<Step>, n: nat, d: Id)
    requires IsRun(cfg, run, steps) && n <= |steps| && forall x :: Count(cfg, run, steps, n, Names(x, d)) <= 1
    ensures Count(cfg, run, steps, n, Calls(d)) <= |Named(run, steps, n, d)|
  {
    if n > 0 {
      forall x ensures Count(cfg, run, steps, n - 1, Names(x, d)) <= 1 {
        assert Count(cfg, run, steps, n, Names(x, d)) <= 1;
      }
      CallsNamed(cfg, run, steps, n - 1, d);
      CallNamed(cfg, run, steps, n, d);
    }
  }

  lemma CallNamed(cfg: Config, run: seq<State>, steps: seq<Step>, n: nat, d: Id)
    requires 0 < n <= |steps| < |run| && forall x :: Count(cfg, run, steps, n, Names(x, d)) <= 1
    ensures |Named(run, steps, n, d)| == |Named(run, steps, n - 1, d)| + One(Occurs(cfg, run[n - 1], steps[n - 1], Calls(d)))
  {
    var s, step := run[n - 1], steps[n - 1];
    if Occurs(cfg, s, step, Calls(d)) {
      var x := s.workers[step.w].done;
      assert Count(cfg, run, steps, n, Names(x, d)) == Count(cfg, run, steps, n - 1, Names(x, d)) + 1;
      NamedCount(cfg, run, steps, n - 1, x, d);
      assert Named(run, steps, n, d) == Named(run, steps, n - 1, d) + {x};
    } else {
      assert Named(run, steps, n, d) == Named(run, steps, n - 1, d);
    }
  }

  /** No dependency of d lists its dependents twice. */
  ghost predicate OnceEach(cfg: Config, run: seq<State>, steps: seq<Step>, n: nat, d: Id)
    requires n <= |steps| < |run|
  {
    forall x :: x in cfg.Depends(d) ==> Count(cfg, run, steps, n, Starts(x)) <= 1
  }

  /** Only dependencies of d name it, and each no more often than it lists its dependents. */
  lemma NamesBound(cfg: Config, run: seq<State>, steps: seq<Step>, n: nat, x: Id, d: Id)
    requires IsRun(cfg, run, steps) && n <= |steps|
    ensures Count(cfg, run, steps, n, Names(x, d)) <= Count(cfg, run, steps, n, Starts(x))
    ensures x !in cfg.Depends(d) ==> Count(cfg, run, steps, n, Names(x, d)) == 0
  {
    CountLess(cfg, run, steps, n, Names(x, d), Starts(x));
    Happened(cfg, run, steps, n, Names(x, d));
    if j :| 0 <= j < n && Occurs(cfg, run[j], steps[j], Names(x, d)) {
      LinkedAt(cfg, run, steps, j, x, d);
    }
  }

  /**
   * Main result: if each dependency of d lists its dependents at most once, d is put on its queue
   * at most once for each of its different dependencies, whatever becomes of them. More than once
   * does happen (see Counterexamples).
   */
  lemma AtMostOncePerDependency(cfg: Config, run: seq<State>, steps: seq<Step>, n: nat, d: Id)
    requires IsRun(cfg, run, steps) && n <= |steps| && OnceEach(cfg, run, steps, n, d)
    ensures Count(cfg, run, steps, n, Frees(d)) <= |set x | x in cfg.Depends(d)|
  {
    forall x ensures Count(cfg, run, steps, n, Names(x, d)) <= 1 {
      NamesBound(cfg, run, steps, n, x, d);
    }
    CallsNamed(cfg, run, steps, n, d);
    forall x | x in Named(run, steps, n, d) ensures x in cfg.Depends(d) {
      NamedCount(cfg, run, steps, n, x, d);
      NamesBound(cfg, run, steps, n, x, d);
    }
    FlowsThroughout(cfg, run, steps, n, ToRelease(d));
    SubsetSize(Named(run, steps, n, d), set x | x in cfg.Depends(d));
  }

  // ---- exactly once ----

  /**
   * With the script: whoever could list d is still pending for it, and once d was freed nothing
   * is pending and so nobody can list it again.
   */
  ghost predicate Tidy(s: State, d: Id, named: set<Id>, freed: nat) {
    && d in s.clients
    && (named != {} ==> s.clients[d].Accepted?)
    && (forall x :: d in s.db.Members(TaskDepsKey(x)) ==> x in s.db.Members(PendingDepsKey(d)))
    && (freed >= 1 ==> s.db.Members(PendingDepsKey(d)) == {})
    && freed <= 1
  }

  lemma TidyNext(cfg: Config, s: State, step: Step, s': State, d: Id, named: set<Id>, freed: nat)
    requires cfg.atomicRelease && Kept(cfg, s) && Waits(cfg, s, d, named, freed) && Tidy(s, d, named, freed)
    requires Next(cfg, s, step, s') && cfg.Depends(d) != []
    requires forall x :: x in cfg.Depends(d) && Occurs(cfg, s, step, Starts(x)) ==> s.clients[d].Accepted?
    ensures Tidy(s', d, named + NamedBy(s, step, d), freed + One(Occurs(cfg, s, step, Frees(d))))
  {
    if step.WorkerStep? {
      var w := s.workers[step.w];
      assert WorkerRight(cfg, s, w) && WorkerWaits(cfg, w, d, named);
      if w.ReleaseListing? {
        if d in s.db.Members(TaskDepsKey(w.done)) {
          assert Links(cfg, s, d, w.done) && Occurs(cfg, s, step, Starts(w.done));
        }
        ScriptTidies(cfg, s, step, d, named, freed);
      } else {
        WorkerTidies(cfg, s, step, d, named, freed);
      }
    } else {
      OtherTidies(cfg, s, step, d, named, freed);
    }
  }

  lemma ScriptTidies(cfg: Config, s: State, step: Step, d: Id, named: set<Id>, freed: nat)
    requires cfg.atomicRelease && Tidy(s, d, named, freed) && step.WorkerStep? && Enabled(cfg, s, step)
    requires s.workers[step.w].ReleaseListing?
    requires d in s.db.Members(TaskDepsKey(s.workers[step.w].done)) ==> s.clients[d].Accepted?
    ensures Tidy(After(cfg, s, step), d, named + NamedBy(s, step, d), freed + One(Occurs(cfg, s, step, Frees(d))))
  {
    var c := CommandOf(cfg, s, step);
    EnabledOrdered(cfg, s, step);
    SetFrame(s.db, c, PendingDepsKey(d));
    forall x ensures After(cfg, s, step).db.Members(TaskDepsKey(x)) == if x == c.done then {} else s.db.Members(TaskDepsKey(x)) {
      SetFrame(s.db, c, TaskDepsKey(x));
    }
  }

  lemma WorkerTidies(cfg: Config, s: State, step: Step, d: Id, named: set<Id>, freed: nat)
    requires Tidy(s, d, named, freed) && step.WorkerStep? && Enabled(cfg, s, step)
    requires !Releasing(s.workers[step.w]) && !Knows(s.workers[step.w], d)
    ensures Tidy(After(cfg, s, step), d, named + NamedBy(s, step, d), freed + One(Occurs(cfg, s, step, Frees(d))))
  {
    var c := CommandOf(cfg, s, step);
    SetFrame(s.db, c, PendingDepsKey(d));
    forall x ensures After(cfg, s, step).db.Members(TaskDepsKey(x)) <= s.db.Members(TaskDepsKey(x)) {
      SetFrame(s.db, c, TaskDepsKey(x));
    }
  }

  lemma OtherTidies(cfg: Config, s: State, step: Step, d: Id, named: set<Id>, freed: nat)
    requires Kept(cfg, s) && Waits(cfg, s, d, named, freed) && Tidy(s, d, named, freed)
    requires !step.WorkerStep? && Enabled(cfg, s, step) && cfg.Depends(d) != []
    ensures Tidy(After(cfg, s, step), d, named, freed)
  {
    var s' := After(cfg, s, step);
    forall x | d in s'.db.Members(TaskDepsKey(x)) ensures d in s.db.Members(TaskDepsKey(x)) || CommandOf(cfg, s, step) == SAdd(TaskDepsKey(x), d) {
      LinkedBefore(cfg, s, step, d, x);
    }
    if step.ClientStep? && step.id == d {
      assert cfg.Depends(d)[0] in cfg.Depends(d);
      assert ClientRight(cfg, d, s.clients[d]);
      OwnClientTidies(cfg, s, step, d, named, freed);
    } else {
      NotLinkedByOthers(cfg, s, step, d);
      PendingSame(cfg, s, step, d);
    }
  }

  lemma LinkedBefore(cfg: Config, s: State, step: Step, d: Id, x: Id)
    requires !step.WorkerStep? && Enabled(cfg, s, step) && d in After(cfg, s, step).db.Members(TaskDepsKey(x))
    ensures d in s.db.Members(TaskDepsKey(x)) || CommandOf(cfg, s, step) == SAdd(TaskDepsKey(x), d)
  {
    SetFrame(s.db, CommandOf(cfg, s, step), TaskDepsKey(x));
  }

  lemma NotLinkedByOthers(cfg: Config, s: State, step: Step, d: Id)
    requires cfg.Valid() && !step.WorkerStep? && Enabled(cfg, s, step) && !(step.ClientStep? && step.id == d)
    ensures forall x :: CommandOf(cfg, s, step) != SAdd(TaskDepsKey(x), d)
  {
  }

  lemma OwnClientTidies(cfg: Config, s: State, step: Step, d: Id, named: set<Id>, freed: nat)
    requires cfg.Valid() && step.ClientStep? && step.id == d && Enabled(cfg, s, step) && cfg.Depends(d) != []
    requires Tidy(s, d, named, freed) && ClientRight(cfg, d, s.clients[d]) && Pended(cfg, s, d, named)
    requires freed >= 1 ==> named != {}
    requires forall x :: d in After(cfg, s, step).db.Members(TaskDepsKey(x)) ==>
      d in s.db.Members(TaskDepsKey(x)) || CommandOf(cfg, s, step) == SAdd(TaskDepsKey(x), d)
    ensures Tidy(After(cfg, s, step), d, named, freed)
  {
    SetFrame(s.db, CommandOf(cfg, s, step), PendingDepsKey(d));
  }

  lemma {:induction false} TidyThroughout(cfg: Config, run: seq<State>, steps: seq<Step>, n: nat, d: Id)
    requires IsRun(cfg, run, steps) && n <= |steps| && cfg.atomicRelease && d in cfg.tasks && cfg.Depends(d) != []
    requires Count(cfg, run, steps, n, Dooms(d)) == 0 && RegisteredFirst(cfg, run, steps, n, d)
    ensures Tidy(run[n], d, Named(run, steps, n, d), Count(cfg, run, steps, n, Frees(d)))
  {
    if n > 0 {
      TidyThroughout(cfg, run, steps, n - 1, d);
      WaitsThroughout(cfg, run, steps, n - 1, d);
      var s, s' := StatesAt(cfg, run, steps, n);
      TidyNext(cfg, s, steps[n - 1], s', d, Named(run, steps, n - 1, d), Count(cfg, run, steps, n - 1, Frees(d)));
    }
  }

  /** A task that nobody lists to fail it is never buried. */
  lemma NotBuried(cfg: Config, run: seq<State>, steps: seq<Step>, n: nat, d: Id)
    requires IsRun(cfg, run, steps) && n <= |steps|
    ensures Count(cfg, run, steps, n, Buries(d)) <= Count(cfg, run, steps, n, Condemns(d)) <= Count(cfg, run, steps, n, Dooms(d))
  {
    FlowsThroughout(cfg, run, steps, n, ToBury(d));
    FlowsThroughout(cfg, run, steps, n, ToDoom(d));
  }

  lemma SingleSize(deps: seq<Id>)
    requires deps != [] && forall x, y :: x in deps && y in deps ==> x == y
    ensures |set x | x in deps| == 1
  {
    assert deps[0] in deps;
    assert (set x | x in deps) == {deps[0]};
  }

  lemma AtMostOnce(cfg: Config, run: seq<State>, steps: seq<Step>, n: nat, d: Id)
    requires IsRun(cfg, run, steps) && n <= |steps| && d in cfg.tasks && cfg.Depends(d) != []
    requires cfg.atomicRelease || (cfg.Single(d) && OnceEach(cfg, run, steps, n, d))
    requires Count(cfg, run, steps, n, Dooms(d)) == 0 && RegisteredFirst(cfg, run, steps, n, d)
    ensures Count(cfg, run, steps, n, Frees(d)) <= 1
  {
    if cfg.atomicRelease {
      TidyThroughout(cfg, run, steps, n, d);
    } else {
      AtMostOncePerDependency(cfg, run, steps, n, d);
      SingleSize(cfg.Depends(d));
    }
  }

  /**
   * With the script, or when d has a single dependency that lists its dependents once, both
   * bounds meet: under the conditions of NoReleaseIsLost d is put on its queue exactly once and
   * is never buried, whatever happens to other tasks.
   */
  lemma ReleasedExactlyOnce(cfg: Config, run: seq<State>, steps: seq<Step>, n: nat, d: Id)
    requires IsRun(cfg, run, steps) && n <= |steps| && d in cfg.tasks && cfg.Depends(d) != []
    requires cfg.atomicRelease || (cfg.Single(d) && OnceEach(cfg, run, steps, n, d))
    requires NoneDies(cfg, run, steps, n, d) && RegisteredFirst(cfg, run, steps, n, d)
    requires forall x :: x in cfg.Depends(d) ==> Count(cfg, run, steps, n, Starts(x)) >= 1
    requires NobodyBusy(run[n], d)
    ensures Count(cfg, run, steps, n, Frees(d)) == 1 && Count(cfg, run, steps, n, Buries(d)) == 0
  {
    NoReleaseIsLost(cfg, run, steps, n, d);
    NoneDiesNoneDoomed(cfg, run, steps, n, d);
    NotBuried(cfg, run, steps, n, d);
    AtMostOnce(cfg, run, steps, n, d);
  }
}
