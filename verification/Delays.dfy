/**
 * Times in the delayed and retry sets: where they come from, and that nobody is taken before its
 * time, whatever interleaves.
 */
module Delays {
  import opened Basics
  import opened Keys
  import opened SortedSets
  import opened Tasks
  import opened Store
  import opened Commands
  import opened Protocol
  import opened Bookkeeping
  import opened Leaving

  // ---- where the times come from ----

  /** An entry appears in a sorted set only by the ZADD that names it. */
  lemma EntryFrame(db: Db, c: Command, k: Key, e: Entry)
    requires WellOrdered(c) && RanksValid(db) && e in Do(db, c).Ranks(k)
    ensures e in db.Ranks(k) || c == ZAdd(k, e.id, e.score)
  {
    var z := db.Ranks(k);
    if c.ZAdd? && c.k == k {
      ZAddSpec(z, c.id, c.score);
    } else if c.PDequeue? && k == PriorityKey(c.queue) {
      if z != [] { ZRemEntries(z, z[0].id); }
    } else if !(c.MoveDue? && c.k == k) {
      RanksSame(db, c, k);
    }
  }

  /** Step j is the one with which the client of x puts it into the delayed set of q, for time t. */
  ghost predicate Delayed(cfg: Config, run: seq<State>, steps: seq<Step>, j: nat, x: Id, q: string, t: int)
    requires j < |steps| < |run|
  {
    && steps[j] == ClientStep(x, t) && x in run[j].clients && run[j].clients[x].Delaying?
    && x in cfg.tasks && cfg.tasks[x].queue == q
  }

  /** Step j is the one with which a worker schedules the next attempt at x, for time t: its clock, and the delay after that many failures. */
  ghost predicate Rescheduled(run: seq<State>, steps: seq<Step>, j: nat, x: Id, q: string, t: int)
    requires j < |steps| < |run|
  {
    && steps[j].WorkerStep? && steps[j].choice.Clock? && steps[j].w in run[j].workers && run[j].workers[steps[j].w].Rescheduling?
    && var task := run[j].workers[steps[j].w].task;
       task.id == x && task.queue == q && CanRetry(task) && t == steps[j].choice.now + RetryDelay(task).value
  }

  lemma ScheduledBy(cfg: Config, s: State, step: Step, k: Key, e: Entry)
    requires cfg.Valid() && Enabled(cfg, s, step) && CommandOf(cfg, s, step) == ZAdd(k, e.id, e.score)
    ensures k.DelayedKey? ==> step == ClientStep(e.id, e.score) && s.clients[e.id].Delaying? && cfg.tasks[e.id].queue == k.name
    ensures k.RetryKey? ==>
      && step.WorkerStep? && step.choice.Clock? && s.workers[step.w].Rescheduling?
      && var task := s.workers[step.w].task;
         task.id == e.id && task.queue == k.name && CanRetry(task) && e.score == step.choice.now + RetryDelay(task).value
  {
  }

  /** In every run an entry of a delayed set carries the time that its client gave it. */
  lemma {:induction false} DelayedTimes(cfg: Config, run: seq<State>, steps: seq<Step>, n: nat, q: string, e: Entry) returns (j: nat)
    requires IsRun(cfg, run, steps) && n <= |steps| && e in run[n].db.Ranks(DelayedKey(q))
    ensures j < n && Delayed(cfg, run, steps, j, e.id, q, e.score)
  {
    var s, s' := EntryBefore(cfg, run, steps, n, DelayedKey(q), e);
    if e in s.db.Ranks(DelayedKey(q)) {
      j := DelayedTimes(cfg, run, steps, n - 1, q, e);
    } else {
      ScheduledBy(cfg, s, steps[n - 1], DelayedKey(q), e);
      j := n - 1;
    }
  }

  /** In every run an entry of a retry set carries the time of the worker that scheduled it plus its delay. */
  lemma {:induction false} RetryTimes(cfg: Config, run: seq<State>, steps: seq<Step>, n: nat, q: string, e: Entry) returns (j: nat)
    requires IsRun(cfg, run, steps) && n <= |steps| && e in run[n].db.Ranks(RetryKey(q))
    ensures j < n && Rescheduled(run, steps, j, e.id, q, e.score)
  {
    var s, s' := EntryBefore(cfg, run, steps, n, RetryKey(q), e);
    if e in s.db.Ranks(RetryKey(q)) {
      j := RetryTimes(cfg, run, steps, n - 1, q, e);
    } else {
      ScheduledBy(cfg, s, steps[n - 1], RetryKey(q), e);
      j := n - 1;
    }
  }

  lemma EntryBefore(cfg: Config, run: seq<State>, steps: seq<Step>, n: nat, k: Key, e: Entry) returns (s: State, s': State)
    requires IsRun(cfg, run, steps) && n <= |steps| && e in run[n].db.Ranks(k)
    ensures n > 0 && s == run[n - 1] && s' == run[n] && cfg.Valid() && Next(cfg, s, steps[n - 1], s')
    ensures e in s.db.Ranks(k) || CommandOf(cfg, s, steps[n - 1]) == ZAdd(k, e.id, e.score)
  {
    assert n > 0;
    s, s' := StatesAt(cfg, run, steps, n);
    EnabledOrdered(cfg, s, steps[n - 1]);
    EntryFrame(s.db, CommandOf(cfg, s, steps[n - 1]), k, e);
  }

  // ---- nobody is taken before its time ----

  /** A tick takes an entry out of a delayed set only if its clock has reached the time that the client gave. */
  lemma DelayedTickInTime(cfg: Config, run: seq<State>, steps: seq<Step>, n: nat, q: string, e: Entry) returns (j: nat)
    requires IsRun(cfg, run, steps) && n < |steps| && e in TakenBy(cfg, run[n], steps[n], DelayedKey(q))
    ensures j < n && Delayed(cfg, run, steps, j, e.id, q, e.score)
    ensures steps[n].DelayedTick? && steps[n].queue == q && e.score <= steps[n].now
  {
    j := DelayedTimes(cfg, run, steps, n, q, e);
    RunStep(cfg, run, steps, n + 1);
    TakingKeys(cfg, run[n], steps[n]);
    TakesTheFirst(cfg, run, steps, n, DelayedKey(q), e);
  }

  /** The same for a retry set: the clock has reached the worker's clock plus the delay. */
  lemma RetryTickInTime(cfg: Config, run: seq<State>, steps: seq<Step>, n: nat, q: string, e: Entry) returns (j: nat)
    requires IsRun(cfg, run, steps) && n < |steps| && e in TakenBy(cfg, run[n], steps[n], RetryKey(q))
    ensures j < n && Rescheduled(run, steps, j, e.id, q, e.score)
    ensures steps[n].RetryTick? && steps[n].queue == q && e.score <= steps[n].now
  {
    j := RetryTimes(cfg, run, steps, n, q, e);
    RunStep(cfg, run, steps, n + 1);
    TakingKeys(cfg, run[n], steps[n]);
    TakesTheFirst(cfg, run, steps, n, RetryKey(q), e);
  }

  // ---- a delayed task is nowhere else before ----

  /** x is on a list, in a sorted set that is not a delayed set, or with a worker. */
  ghost predicate Out(s: State, x: Id) {
    || (exists k: Key :: x in s.db.List(k))
    || (exists k: Key :: !k.DelayedKey? && Has(s.db.Ranks(k), x))
    || (exists w :: w in s.workers && Holds(s.workers[w]) == Some(x))
  }

  /** The step moves x out of a delayed set. */
  ghost predicate LetsOut(cfg: Config, s: State, step: Step, x: Id) {
    step.DelayedTick? && exists e: Entry :: e.id == x && e in TakenBy(cfg, s, step, DelayedKey(step.queue))
  }

  lemma MovedBefore(cfg: Config, s: State, step: Step, k: Key, x: Id)
    requires Enabled(cfg, s, step) && CommandOf(cfg, s, step).MoveDue? && Commands.Lists(s.db, CommandOf(cfg, s, step), k, x)
    ensures Out(s, x) || LetsOut(cfg, s, step, x)
  {
    var c := CommandOf(cfg, s, step);
    TakingKeys(cfg, s, step);
    var z, n := s.db.Ranks(c.k), BatchCount(s.db.Ranks(c.k), c.now, BATCH_SIZE);
    var i :| 0 <= i < n && Ids(z[..n])[i] == x;
    assert z[..n][i] == z[i] && z[i] in z[..n];
    if step.DelayedTick? {
      assert z[i] in TakenBy(cfg, s, step, DelayedKey(step.queue));
    } else {
      assert Has(z, x);
    }
  }

  lemma ListedBefore(cfg: Config, s: State, step: Step, k: Key, x: Id)
    requires Kept(cfg, s) && x in cfg.delayed && Enabled(cfg, s, step) && Commands.Lists(s.db, CommandOf(cfg, s, step), k, x)
    ensures Out(s, x) || LetsOut(cfg, s, step, x)
  {
    var c := CommandOf(cfg, s, step);
    if c.MoveDue? {
      MovedBefore(cfg, s, step, k, x);
    } else if c.PDequeue? {
      assert Has(s.db.Ranks(PriorityKey(c.queue)), x);
    } else if c.LPush? && c.k.ActiveKey? {
      assert Holds(s.workers[step.w]) == Some(x);
    } else {
      NotReleased(cfg, s, step, k, x);
    }
  }

  /** Nobody waits under a delayed id, so nobody releases or buries it; and its client does not route it. */
  lemma NotReleased(cfg: Config, s: State, step: Step, k: Key, x: Id)
    requires Kept(cfg, s) && x in cfg.delayed && Enabled(cfg, s, step)
    ensures var c := CommandOf(cfg, s, step);
            Commands.Lists(s.db, c, k, x) ==> c.MoveDue? || c.PDequeue? || (c.LPush? && c.k.ActiveKey?)
  {
    assert forall y :: !Links(cfg, s, x, y);
    if step.WorkerStep? {
      WorkerNotReleasing(cfg, s, s.workers[step.w], step.choice, k, x);
    } else {
      ActorsRight(cfg, s, step);
    }
  }

  lemma WorkerNotReleasing(cfg: Config, s: State, w: Worker, choice: Choice, k: Key, x: Id)
    requires TailRight(cfg, s, w) && SetsKept(cfg, s) && Fits(s.db, w, choice) && forall y :: !Links(cfg, s, x, y)
    ensures var c := WorkerCommand(cfg, w, choice);
            Commands.Lists(s.db, c, k, x) ==> c.PDequeue? || (c.LPush? && c.k.ActiveKey?)
  {
    if w.ReleaseListing? {
      assert x !in s.db.Members(TaskDepsKey(w.done));
    } else if w.Pushing? || w.FailPushing? {
      assert !Knows(w, x);
    }
  }

  lemma RankedBefore(cfg: Config, s: State, step: Step, k: Key, x: Id)
    requires Kept(cfg, s) && x in cfg.delayed && Enabled(cfg, s, step) && !k.DelayedKey?
    requires CommandOf(cfg, s, step).ZAdd? && CommandOf(cfg, s, step).k == k && CommandOf(cfg, s, step).id == x
    ensures Out(s, x)
  {
    ActorsRight(cfg, s, step);
    assert step.WorkerStep? && Holds(s.workers[step.w]) == Some(x);
  }

  lemma HeldBefore(cfg: Config, s: State, w: Worker, c: Choice, x: Id)
    requires cfg.Valid() && (forall y :: y in s.db.tasks ==> RecordKept(cfg, y, s.db.tasks[y]))
    requires Holds(WorkerNext(cfg, s.db, w, c)) == Some(x)
    ensures Out(s, x) || Holds(w) == Some(x)
  {
    if w.Idle? && c.Poll? && s.db.PDequeue(c.queue).1.Got? {
      assert s.db.Ranks(PriorityKey(c.queue))[0].id == x;
      assert Has(s.db.Ranks(PriorityKey(c.queue)), x);
    } else if w.Popping? && s.db.List(QueueKey(w.queue)) != [] {
      assert x in s.db.List(QueueKey(w.queue));
    } else if w.Loading? && w.id in s.db.tasks {
      assert RecordKept(cfg, w.id, s.db.tasks[w.id]);
    }
  }

  lemma OutBefore(cfg: Config, s: State, step: Step, x: Id)
    requires Kept(cfg, s) && x in cfg.delayed && Enabled(cfg, s, step) && Out(After(cfg, s, step), x)
    ensures Out(s, x) || LetsOut(cfg, s, step, x)
  {
    var s', c := After(cfg, s, step), CommandOf(cfg, s, step);
    EnabledOrdered(cfg, s, step);
    if k: Key :| x in s'.db.List(k) {
      ListFrame(s.db, c, k, x);
      if x !in s.db.List(k) { ListedBefore(cfg, s, step, k, x); }
    } else if k: Key :| !k.DelayedKey? && Has(s'.db.Ranks(k), x) {
      RanksFrame(s.db, c, k, x);
      if !Has(s.db.Ranks(k), x) { RankedBefore(cfg, s, step, k, x); }
    } else {
      var w :| w in s'.workers && Holds(s'.workers[w]) == Some(x);
      if step.WorkerStep? && w == step.w {
        HeldBefore(cfg, s, s.workers[w], step.choice, x);
        assert Holds(s.workers[w]) == Some(x) ==> Out(s, x);
      }
    }
  }

  lemma NotOutAtFirst(cfg: Config, s: State, x: Id)
    requires Init(cfg, s)
    ensures !Out(s, x)
  {
    EmptyStore(s.db);
  }

  /**
   * Main result: in every run a delayed task is on no list, in no other sorted set and with no
   * worker before a tick of the scheduler whose clock has reached the time that its client gave.
   */
  lemma {:induction false} NeverEarly(cfg: Config, run: seq<State>, steps: seq<Step>, n: nat, x: Id) returns (i: nat, j: nat, t: int)
    requires IsRun(cfg, run, steps) && n <= |steps| && x in cfg.delayed && Out(run[n], x)
    ensures i < j < n && steps[j].DelayedTick? && Delayed(cfg, run, steps, i, x, steps[j].queue, t) && t <= steps[j].now
  {
    OutNow(cfg, run, steps, n, x);
    if Out(run[n - 1], x) {
      i, j, t := NeverEarly(cfg, run, steps, n - 1, x);
    } else {
      j := n - 1;
      i, t := LetOutInTime(cfg, run, steps, j, x);
    }
  }

  lemma OutNow(cfg: Config, run: seq<State>, steps: seq<Step>, n: nat, x: Id)
    requires IsRun(cfg, run, steps) && n <= |steps| && x in cfg.delayed && Out(run[n], x)
    ensures n > 0 && (Out(run[n - 1], x) || LetsOut(cfg, run[n - 1], steps[n - 1], x))
  {
    NotOutAtFirst(cfg, run[0], x);
    var s, s' := StatesAt(cfg, run, steps, n);
    OutBefore(cfg, s, steps[n - 1], x);
  }

  lemma LetOutInTime(cfg: Config, run: seq<State>, steps: seq<Step>, j: nat, x: Id) returns (i: nat, t: int)
    requires IsRun(cfg, run, steps) && j < |steps| && LetsOut(cfg, run[j], steps[j], x)
    ensures i < j && Delayed(cfg, run, steps, i, x, steps[j].queue, t) && t <= steps[j].now
  {
    var e: Entry :| e.id == x && e in TakenBy(cfg, run[j], steps[j], DelayedKey(steps[j].queue));
    i := DelayedTickInTime(cfg, run, steps, j, steps[j].queue, e);
    t := e.score;
  }
}
