/**
 * Which tasks are freed or condemned at most once, from what they depend on: in every run those
 * that have, like all their ancestors, at most one dependency; with the script also those of
 * whose dependencies none dies.
 */
module Lineage {
  import opened Basics
  import opened Tasks
  import opened Protocol
  import opened Bookkeeping
  import opened Events
  import opened Flows
  import opened DependencySafety
  import opened NoLostRelease
  import opened ReleaseCount
  import opened Verdicts
  import opened Ownership
  import opened RetryBound

  ghost predicate Closed(cfg: Config, family: set<Id>, d: Id) {
    forall x :: x in cfg.Depends(d) && x in cfg.tasks ==> x in family
  }

  /** What the tasks of the family depend on is in the family, as far as it is ever submitted. */
  ghost predicate Family(cfg: Config, family: set<Id>) {
    forall d :: d in family ==> Closed(cfg, family, d)
  }

  /** d has at most one dependency, or it is released by the script and none of them dies. */
  ghost predicate Guarded(cfg: Config, run: seq<State>, steps: seq<Step>, n: nat, d: Id)
    requires n <= |steps| < |run|
  {
    cfg.Single(d) || (cfg.atomicRelease && NoneDies(cfg, run, steps, n, d))
  }

  // ---- counting ----

  lemma {:induction false} GrantsSplit(cfg: Config, run: seq<State>, steps: seq<Step>, n: nat, d: Id)
    requires n <= |steps| < |run|
    ensures Count(cfg, run, steps, n, Grants(d)) == Count(cfg, run, steps, n, Frees(d)) + Count(cfg, run, steps, n, Condemns(d))
  {
    if n > 0 {
      GrantsSplit(cfg, run, steps, n - 1, d);
    }
  }

  /** Only the dependency of d lists it, each time that it lists its dependents. */
  lemma {:induction false} OnlyItsDependencyLists(cfg: Config, run: seq<State>, steps: seq<Step>, n: nat, d: Id, x: Id)
    requires IsRun(cfg, run, steps) && n <= |steps| && forall y :: y in cfg.Depends(d) ==> y == x
    ensures Count(cfg, run, steps, n, Calls(d)) + Count(cfg, run, steps, n, Dooms(d)) <= Count(cfg, run, steps, n, Opens(x))
  {
    if n > 0 {
      OnlyItsDependencyLists(cfg, run, steps, n - 1, d, x);
      if Occurs(cfg, run[n - 1], steps[n - 1], Calls(d)) || Occurs(cfg, run[n - 1], steps[n - 1], Dooms(d)) {
        LinkedAt(cfg, run, steps, n - 1, run[n - 1].workers[steps[n - 1].w].done, d);
      }
    }
  }

  lemma GrantsPerFinish(cfg: Config, run: seq<State>, steps: seq<Step>, n: nat, d: Id, x: Id)
    requires IsRun(cfg, run, steps) && n <= |steps| && forall y :: y in cfg.Depends(d) ==> y == x
    ensures Count(cfg, run, steps, n, Grants(d)) <= Count(cfg, run, steps, n, Finishes(x))
  {
    GrantsSplit(cfg, run, steps, n, d);
    FlowsThroughout(cfg, run, steps, n, ToRelease(d));
    FlowsThroughout(cfg, run, steps, n, ToDoom(d));
    OnlyItsDependencyLists(cfg, run, steps, n, d, x);
    FlowsThroughout(cfg, run, steps, n, ToList(x));
  }

  /** Nothing happens to tasks that nobody submits. */
  lemma {:induction false} UnknownNeverFinish(cfg: Config, run: seq<State>, steps: seq<Step>, n: nat, x: Id)
    requires IsRun(cfg, run, steps) && n <= |steps| && x !in cfg.tasks
    ensures Count(cfg, run, steps, n, Finishes(x)) == 0
  {
    if n > 0 {
      UnknownNeverFinish(cfg, run, steps, n - 1, x);
      var s, s' := StatesAt(cfg, run, steps, n);
      if steps[n - 1].WorkerStep? { assert WorkerRight(cfg, s, s.workers[steps[n - 1].w]); }
    }
  }

  /** If x was granted at most once before the last step, and that grants d, x has finished at most once. */
  lemma FinishedOnce(cfg: Config, run: seq<State>, steps: seq<Step>, n: nat, d: Id, x: Id)
    requires IsRun(cfg, run, steps) && 0 < n <= |steps| && Occurs(cfg, run[n - 1], steps[n - 1], Grants(d))
    requires x in cfg.tasks ==> Count(cfg, run, steps, n - 1, Grants(x)) <= 1
    ensures Count(cfg, run, steps, n, Finishes(x)) <= 1
  {
    if x in cfg.tasks {
      SettledIsNowhere(cfg, run, steps, n - 1, x);
    } else {
      UnknownNeverFinish(cfg, run, steps, n - 1, x);
    }
  }

  // ---- the two cases ----

  lemma SingleGrantedOnce(cfg: Config, run: seq<State>, steps: seq<Step>, n: nat, d: Id)
    requires IsRun(cfg, run, steps) && 0 < n <= |steps| && Occurs(cfg, run[n - 1], steps[n - 1], Grants(d)) && cfg.Single(d)
    requires forall x :: x in cfg.Depends(d) && x in cfg.tasks ==> Count(cfg, run, steps, n - 1, Grants(x)) <= 1
    ensures Count(cfg, run, steps, n, Grants(d)) <= 1
  {
    KeptThroughout(cfg, run, steps, n - 1);
    RunStep(cfg, run, steps, n);
    GrantsWaiting(cfg, run[n - 1], steps[n - 1], d);
    var x := cfg.Depends(d)[0];
    FinishedOnce(cfg, run, steps, n, d, x);
    GrantsPerFinish(cfg, run, steps, n, d, x);
  }

  lemma NamesPerFinish(cfg: Config, run: seq<State>, steps: seq<Step>, n: nat, x: Id, d: Id)
    requires IsRun(cfg, run, steps) && n <= |steps|
    ensures Count(cfg, run, steps, n, Names(x, d)) <= Count(cfg, run, steps, n, Finishes(x))
  {
    CountLess(cfg, run, steps, n, Names(x, d), Opens(x));
    FlowsThroughout(cfg, run, steps, n, ToList(x));
  }

  /** The script does not free a task again: all its dependencies have listed it before. */
  lemma ScriptGrantedOnce(cfg: Config, run: seq<State>, steps: seq<Step>, n: nat, d: Id)
    requires IsRun(cfg, run, steps) && 0 < n <= |steps| && Occurs(cfg, run[n - 1], steps[n - 1], Grants(d))
    requires d in cfg.tasks && cfg.atomicRelease && NoneDies(cfg, run, steps, n, d)
    requires forall x :: x in cfg.Depends(d) && x in cfg.tasks ==> Count(cfg, run, steps, n - 1, Grants(x)) <= 1
    requires Count(cfg, run, steps, n - 1, Grants(d)) <= 1
    ensures Count(cfg, run, steps, n, Grants(d)) <= 1
  {
    NoneDiesNoneDoomed(cfg, run, steps, n, d);
    NotBuried(cfg, run, steps, n, d);
    GrantsSplit(cfg, run, steps, n - 1, d);
    GrantsSplit(cfg, run, steps, n, d);
    if Count(cfg, run, steps, n - 1, Frees(d)) >= 1 {
      var y := FreedByScript(cfg, run, steps, n, d);
      WaitsThroughout(cfg, run, steps, n - 1, d);
      NamedCount(cfg, run, steps, n - 1, y, d);
      FinishedOnce(cfg, run, steps, n, d, y);
      NamesPerFinish(cfg, run, steps, n, y, d);
    }
  }

  lemma FreedByScript(cfg: Config, run: seq<State>, steps: seq<Step>, n: nat, d: Id) returns (y: Id)
    requires IsRun(cfg, run, steps) && 0 < n <= |steps| && Occurs(cfg, run[n - 1], steps[n - 1], Frees(d)) && cfg.atomicRelease
    ensures y in cfg.Depends(d) && Occurs(cfg, run[n - 1], steps[n - 1], Names(y, d))
  {
    RunStep(cfg, run, steps, n);
    WorkerAt(cfg, run, steps, n - 1, steps[n - 1].w);
    y := run[n - 1].workers[steps[n - 1].w].done;
    LinkedAt(cfg, run, steps, n - 1, y, d);
  }

  /**
   * Main result: in every run, every task of a family whose members have at most one dependency
   * each (or are released by the script while no dependency of theirs dies) is freed or condemned
   * at most once - whatever happens to tasks outside the family.
   */
  lemma {:induction false} GrantedOnce(cfg: Config, run: seq<State>, steps: seq<Step>, n: nat, family: set<Id>)
    requires IsRun(cfg, run, steps) && n <= |steps| && family <= cfg.tasks.Keys && Family(cfg, family)
    requires forall d :: d in family ==> Guarded(cfg, run, steps, n, d)
    ensures forall d :: d in family ==> Count(cfg, run, steps, n, Grants(d)) <= 1
  {
    if n > 0 {
      GrantedOnce(cfg, run, steps, n - 1, family);
      forall d | d in family ensures Count(cfg, run, steps, n, Grants(d)) <= 1 {
        if Occurs(cfg, run[n - 1], steps[n - 1], Grants(d)) {
          assert Guarded(cfg, run, steps, n, d);
          if cfg.Single(d) {
            SingleGrantedOnce(cfg, run, steps, n, d);
          } else {
            ScriptGrantedOnce(cfg, run, steps, n, d);
          }
        }
      }
    }
  }

  // ---- what follows for each task ----

  ghost predicate AllSingle(cfg: Config, family: set<Id>) {
    forall d :: d in family ==> cfg.Single(d)
  }

  /** x and everything that it depends on, directly or not, has at most one dependency. */
  ghost predicate Straight(cfg: Config, x: Id) {
    exists family: set<Id> :: x in family && family <= cfg.tasks.Keys && Family(cfg, family) && AllSingle(cfg, family)
  }

  lemma StraightGrantedOnce(cfg: Config, run: seq<State>, steps: seq<Step>, n: nat, x: Id)
    requires IsRun(cfg, run, steps) && n <= |steps| && Straight(cfg, x)
    ensures x in cfg.tasks && Count(cfg, run, steps, n, Grants(x)) <= 1
  {
    var family: set<Id> :| x in family && family <= cfg.tasks.Keys && Family(cfg, family) && AllSingle(cfg, family);
    GrantedOnce(cfg, run, steps, n, family);
  }

  /** A task without dependencies in particular. */
  lemma PlainIsStraight(cfg: Config, x: Id)
    requires x in cfg.tasks && cfg.Depends(x) == []
    ensures Straight(cfg, x)
  {
    assert Family(cfg, {x});
  }

  /**
   * A task that was freed or condemned at most once was put on a queue or on a dead list at most
   * once and not on both; it is on a dead list exactly if it was buried, and whoever holds it, it
   * was freed (or has no dependencies).
   */
  lemma OneVerdict(cfg: Config, run: seq<State>, steps: seq<Step>, n: nat, d: Id)
    requires IsRun(cfg, run, steps) && n <= |steps| && d in cfg.tasks && Count(cfg, run, steps, n, Grants(d)) <= 1
    ensures Count(cfg, run, steps, n, Frees(d)) + Count(cfg, run, steps, n, Buries(d)) <= 1
    ensures OnDeadList(run[n], d) <==> Count(cfg, run, steps, n, Buries(d)) == 1
    ensures cfg.Depends(d) != [] && AtLarge(run[n], d) ==> Count(cfg, run, steps, n, Frees(d)) == 1
  {
    GrantsSplit(cfg, run, steps, n, d);
    NotBuried(cfg, run, steps, n, d);
    BuriedForGood(cfg, run, steps, n, d);
    if cfg.Depends(d) != [] && AtLarge(run[n], d) {
      OnlyFreedRuns(cfg, run, steps, n, d);
    }
  }

  /**
   * In every run of the program as it is, with the loop that releases command by command, a task
   * with a straight lineage has one owner: it is in exactly one place all the time, its handler
   * is entered at most max(1, max_retry) times, and it gets one verdict at most - whatever other
   * tasks depend on.
   */
  lemma StraightIsOwned(cfg: Config, run: seq<State>, steps: seq<Step>, n: nat, x: Id)
    requires IsRun(cfg, run, steps) && n <= |steps| && Straight(cfg, x)
    ensures Sole(cfg, run, n, x)
    ensures Count(cfg, run, steps, n, Enters(x)) <= Attempts(cfg.tasks[x])
    ensures Count(cfg, run, steps, n, Frees(x)) + Count(cfg, run, steps, n, Buries(x)) <= 1
  {
    StraightGrantedOnce(cfg, run, steps, n, x);
    GrantedOnceSole(cfg, run, steps, n, x);
    HandlerRunsBounded(cfg, run, steps, n, x);
    OneVerdict(cfg, run, steps, n, x);
  }

  /** Such a task, when its dependency succeeds, is put on its queue exactly once and never buried. */
  lemma StraightReleasedOnce(cfg: Config, run: seq<State>, steps: seq<Step>, n: nat, x: Id)
    requires IsRun(cfg, run, steps) && n <= |steps| && Straight(cfg, x) && cfg.Depends(x) != []
    requires NoneDies(cfg, run, steps, n, x) && RegisteredFirst(cfg, run, steps, n, x)
    requires forall y :: y in cfg.Depends(x) ==> Count(cfg, run, steps, n, Starts(y)) >= 1
    requires NobodyBusy(run[n], x)
    ensures Count(cfg, run, steps, n, Frees(x)) == 1 && Count(cfg, run, steps, n, Buries(x)) == 0
  {
    StraightGrantedOnce(cfg, run, steps, n, x);
    OneVerdict(cfg, run, steps, n, x);
    NoReleaseIsLost(cfg, run, steps, n, x);
  }
}
