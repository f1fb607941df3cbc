/** How often a task's handler runs, counted over whole runs. */
module RetryBound {
  import opened Basics
  import opened Tasks
  import opened Commands
  import opened Protocol
  import opened Bookkeeping
  import opened Events
  import opened Places
  import opened Ownership

  /** The number of failed attempts that the stored record of x shows. */
  function FailuresOf(s: State, x: Id): nat {
    if x in s.db.tasks then s.db.tasks[x].data.retryCnt else 0
  }

  /** A worker that is to store the result of the last of n runs, r of which are on record as failed. */
  predicate Pends(cfg: Config, x: Id, t: Task, status: Status, r: nat, n: nat)
    requires x in cfg.tasks
  {
    && n == r + 1 && r < Attempts(cfg.tasks[x])
    && t.retryCnt == (if status == Processed then r else r + 1)
    && (status == Retry ==> CanRetry(t))
    && (status == Dead ==> !CanRetry(t))
  }

  /** What the number n of handler runs of x is, from where x is and what its record says. */
  predicate Counted(cfg: Config, s: State, x: Id, p: Place, n: nat)
    requires x in cfg.tasks
  {
    var r := FailuresOf(s, x);
    var most := Attempts(cfg.tasks[x]);
    match p
    case ActiveBy(w) =>
      w in s.workers &&
      (match s.workers[w]
       case Running(t) => n == r + 1 && t.retryCnt == r < most
       case Unlisting(t, status) => Pends(cfg, x, t, status, r, n)
       case _ => n == r < most)
    case Hand(w) =>
      w in s.workers &&
      (match s.workers[w]
       case Saving(t, status) => Pends(cfg, x, t, status, r, n)
       case _ => n == r < most)
    case Settled => Done(s, x) && (if s.db.tasks[x].data.status == Processed then n == r + 1 <= most else n == r == most)
    case _ => n == r < most
  }

  /** What the step leaves of the records. */
  ghost predicate RecordsMove(cfg: Config, s: State, step: Step) {
    After(cfg, s, step).db.tasks ==
      if CommandOf(cfg, s, step).HSet? then s.db.tasks[CommandOf(cfg, s, step).id := CommandOf(cfg, s, step).record]
      else s.db.tasks
  }

  /** A worker's own task, step by step through the program. */
  lemma ActiveCounts(cfg: Config, s: State, step: Step, x: Id, p: Place, n: nat)
    requires x in cfg.tasks && x in s.db.tasks && Counted(cfg, s, x, p, n) && step.WorkerStep? && Enabled(cfg, s, step)
    requires HoldsRight(cfg, s, s.workers[step.w]) && Grip(s.workers[step.w]) == Some(x)
    requires OnActive(s.workers[step.w]) && p == ActiveBy(step.w) && RecordsMove(cfg, s, step)
    ensures Counted(cfg, After(cfg, s, step), x, Moved(cfg, s, step, x, p), n + One(Occurs(cfg, s, step, Enters(x))))
  {
  }

  lemma HandCounts(cfg: Config, s: State, step: Step, x: Id, p: Place, n: nat)
    requires x in cfg.tasks && Counted(cfg, s, x, p, n) && step.WorkerStep? && Enabled(cfg, s, step)
    requires HoldsRight(cfg, s, s.workers[step.w]) && Grip(s.workers[step.w]) == Some(x)
    requires !OnActive(s.workers[step.w]) && p == Hand(step.w) && RecordsMove(cfg, s, step)
    ensures Counted(cfg, After(cfg, s, step), x, Moved(cfg, s, step, x, p), n + One(Occurs(cfg, s, step, Enters(x))))
  {
  }

  /** What a worker can do with a task that it does not hold yet. */
  lemma Taken(cfg: Config, s: State, step: Step, x: Id, p: Place)
    requires cfg.Valid() && x in cfg.tasks && Enabled(cfg, s, step) && step.WorkerStep? && Orderly(cfg, s, step, x, p)
    requires Takes(s.db, CommandOf(cfg, s, step), x) || Stores(CommandOf(cfg, s, step), step, x)
    requires Grip(s.workers[step.w]) != Some(x)
    ensures var w' := After(cfg, s, step).workers[step.w]; var p' := Moved(cfg, s, step, x, p);
            || (p.Scored? && p' == ActiveBy(step.w) && w'.Loading?)
            || (p.Listed? && p' == Hand(step.w) && w'.InHand?)
            || (p == Awaiting && p'.Listed? && p'.k.QueueKey?)
            || (p == Awaiting && p' == Hand(step.w) && w'.FailPushing?)
  {
  }

  lemma FailuresStay(cfg: Config, s: State, step: Step, x: Id, p: Place)
    requires cfg.Valid() && RecordsKept(cfg, s) && SubmitterRight(cfg, s, step) && RecordsMove(cfg, s, step)
    requires x in cfg.tasks && Enabled(cfg, s, step) && Orderly(cfg, s, step, x, p)
    requires step.WorkerStep? ==> Grip(s.workers[step.w]) != Some(x)
    requires p == Awaiting && x in s.db.tasks ==> s.db.tasks[x].data == cfg.tasks[x]
    ensures FailuresOf(After(cfg, s, step), x) == FailuresOf(s, x)
    ensures p == Settled && x in s.db.tasks ==>
      x in After(cfg, s, step).db.tasks && After(cfg, s, step).db.tasks[x] == s.db.tasks[x]
  {
    if step.ClientStep? && CommandOf(cfg, s, step).HSet? && CommandOf(cfg, s, step).id == x {
      FirstRecord(cfg, s, step, x);
    }
  }

  /** Steps that are not taken by the worker that has x in its grip. */
  lemma OthersCount(cfg: Config, s: State, step: Step, x: Id, p: Place, n: nat)
    requires cfg.Valid() && x in cfg.tasks && Counted(cfg, s, x, p, n) && Enabled(cfg, s, step)
    requires Orderly(cfg, s, step, x, p)
    requires step.WorkerStep? ==> Grip(s.workers[step.w]) != Some(x)
    requires FailuresOf(After(cfg, s, step), x) == FailuresOf(s, x)
    requires p == Settled ==> x in After(cfg, s, step).db.tasks && After(cfg, s, step).db.tasks[x] == s.db.tasks[x]
    ensures Counted(cfg, After(cfg, s, step), x, Moved(cfg, s, step, x, p), n)
    ensures !Occurs(cfg, s, step, Enters(x))
  {
    if step.WorkerStep? && (Takes(s.db, CommandOf(cfg, s, step), x) || Stores(CommandOf(cfg, s, step), step, x)) {
      TakerCounts(cfg, s, step, x, p, n);
    }
  }

  lemma TakerCounts(cfg: Config, s: State, step: Step, x: Id, p: Place, n: nat)
    requires cfg.Valid() && x in cfg.tasks && Counted(cfg, s, x, p, n) && Enabled(cfg, s, step) && step.WorkerStep?
    requires Orderly(cfg, s, step, x, p) && Grip(s.workers[step.w]) != Some(x)
    requires Takes(s.db, CommandOf(cfg, s, step), x) || Stores(CommandOf(cfg, s, step), step, x)
    requires FailuresOf(After(cfg, s, step), x) == FailuresOf(s, x)
    ensures Counted(cfg, After(cfg, s, step), x, Moved(cfg, s, step, x, p), n)
  {
    Taken(cfg, s, step, x, p);
    assert step.w in After(cfg, s, step).workers;
  }

  lemma StepCounts(cfg: Config, s: State, step: Step, x: Id, p: Place, granted: nat, finished: nat, n: nat)
    requires Kept(cfg, s) && Owned(cfg, s, x, p, granted, finished) && Enabled(cfg, s, step)
    requires Orderly(cfg, s, step, x, p) && Counted(cfg, s, x, p, n)
    ensures Counted(cfg, After(cfg, s, step), x, Moved(cfg, s, step, x, p), n + One(Occurs(cfg, s, step, Enters(x))))
  {
    EnabledOrdered(cfg, s, step);
    TaskFrame(s.db, CommandOf(cfg, s, step));
    ActorsRight(cfg, s, step);
    if step.WorkerStep? && Grip(s.workers[step.w]) == Some(x) {
      GripperCounts(cfg, s, step, x, p, n);
    } else {
      FailuresStay(cfg, s, step, x, p);
      OthersCount(cfg, s, step, x, p, n);
    }
  }

  lemma GripperCounts(cfg: Config, s: State, step: Step, x: Id, p: Place, n: nat)
    requires x in cfg.tasks && Counted(cfg, s, x, p, n) && step.WorkerStep? && Enabled(cfg, s, step)
    requires WorkerRight(cfg, s, s.workers[step.w]) && Grip(s.workers[step.w]) == Some(x)
    requires GripFits(step.w, s.workers[step.w], x, p) && RecordsMove(cfg, s, step)
    ensures Counted(cfg, After(cfg, s, step), x, Moved(cfg, s, step, x, p), n + One(Occurs(cfg, s, step, Enters(x))))
  {
    if OnActive(s.workers[step.w]) {
      ActiveCounts(cfg, s, step, x, p, n);
    } else {
      HandCounts(cfg, s, step, x, p, n);
    }
  }

  lemma StartCounted(cfg: Config, s: State, x: Id)
    requires Init(cfg, s) && x in cfg.tasks
    ensures Counted(cfg, s, x, Start(cfg, x), 0)
  {
  }

  lemma {:induction false} RunsCounted(cfg: Config, run: seq<State>, steps: seq<Step>, n: nat, x: Id) returns (p: Place)
    requires IsRun(cfg, run, steps) && n <= |steps| && x in cfg.tasks && Count(cfg, run, steps, n, Grants(x)) <= 1
    ensures Owned(cfg, run[n], x, p, Count(cfg, run, steps, n, Grants(x)), Count(cfg, run, steps, n, Finishes(x)))
    ensures Counted(cfg, run[n], x, p, Count(cfg, run, steps, n, Enters(x)))
  {
    if n == 0 {
      StartOwned(cfg, run[0], x);
      StartCounted(cfg, run[0], x);
      p := Start(cfg, x);
    } else {
      var before := RunsCounted(cfg, run, steps, n - 1, x);
      p := CountsNext(cfg, run, steps, n, x, before);
    }
  }

  lemma CountsNext(cfg: Config, run: seq<State>, steps: seq<Step>, n: nat, x: Id, p: Place) returns (p': Place)
    requires IsRun(cfg, run, steps) && 0 < n <= |steps| && x in cfg.tasks && Count(cfg, run, steps, n, Grants(x)) <= 1
    requires Owned(cfg, run[n - 1], x, p, Count(cfg, run, steps, n - 1, Grants(x)), Count(cfg, run, steps, n - 1, Finishes(x)))
    requires Counted(cfg, run[n - 1], x, p, Count(cfg, run, steps, n - 1, Enters(x)))
    ensures Owned(cfg, run[n], x, p', Count(cfg, run, steps, n, Grants(x)), Count(cfg, run, steps, n, Finishes(x)))
    ensures Counted(cfg, run[n], x, p', Count(cfg, run, steps, n, Enters(x)))
  {
    var s, s' := StatesAt(cfg, run, steps, n);
    p' := OwnsNext(cfg, s, steps[n - 1], s', x, p, Count(cfg, run, steps, n - 1, Grants(x)), Count(cfg, run, steps, n - 1, Finishes(x)));
    StepCounts(cfg, s, steps[n - 1], x, p, Count(cfg, run, steps, n - 1, Grants(x)), Count(cfg, run, steps, n - 1, Finishes(x)),
               Count(cfg, run, steps, n - 1, Enters(x)));
  }

  /**
   * Main result: in every run in which x was freed or condemned at most once, whatever the
   * handlers return and whichever workers pick it up, its handler is entered at most
   * max(1, max_retry) times; if it is dead by its own failures it was tried exactly that often;
   * and the stored retry count never leaves u32.
   */
  lemma HandlerRunsBounded(cfg: Config, run: seq<State>, steps: seq<Step>, n: nat, x: Id)
    requires IsRun(cfg, run, steps) && n <= |steps| && x in cfg.tasks && Count(cfg, run, steps, n, Grants(x)) <= 1
    ensures Count(cfg, run, steps, n, Enters(x)) <= Attempts(cfg.tasks[x])
    ensures Done(run[n], x) && run[n].db.tasks[x].data.status == Dead ==>
      Count(cfg, run, steps, n, Enters(x)) == Attempts(cfg.tasks[x])
    ensures FailuresOf(run[n], x) <= Count(cfg, run, steps, n, Enters(x)) < U32_LIMIT
  {
    var p := RunsCounted(cfg, run, steps, n, x);
  }
}
