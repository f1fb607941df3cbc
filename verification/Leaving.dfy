/**
 * How tasks leave the containers that they wait in: in which order they leave the sorted sets,
 * when a worker turns to the plain list, and what still leaves a queue that is paused.
 */
module Leaving {
  import opened Basics
  import opened Order
  import opened Keys
  import opened SortedSets
  import opened Store
  import opened Commands
  import opened Protocol
  import Bookkeeping

  /** How many entries a command takes from the front of sorted set k. */
  function TakenByCommand(db: Db, c: Command, k: Key): (n: nat)
    ensures n <= |db.Ranks(k)|
  {
    if c.PDequeue? && k == PriorityKey(c.queue) && db.PDequeue(c.queue).1.Got? then 1
    else if c.MoveDue? && c.k == k then BatchCount(db.Ranks(k), c.now, BATCH_SIZE)
    else 0
  }

  /** Where the scripts put what they take. */
  function Destination(c: Command): Key {
    if c.MoveDue? then c.dest else if c.PDequeue? then ActiveKey(c.queue) else MetaQueuesKey
  }

  ghost function TakeCount(cfg: Config, s: State, step: Step, k: Key): (n: nat)
    ensures n <= |s.db.Ranks(k)|
  {
    TakenByCommand(s.db, CommandOf(cfg, s, step), k)
  }

  /** The entries that a step takes from k. */
  ghost function TakenBy(cfg: Config, s: State, step: Step, k: Key): seq<Entry> {
    s.db.Ranks(k)[..TakeCount(cfg, s, step, k)]
  }

  /** The entries taken from k in steps i to n, in the order in which they were taken. */
  ghost function TakenIn(cfg: Config, run: seq<State>, steps: seq<Step>, i: nat, n: nat, k: Key): seq<Entry>
    requires i <= n <= |steps| < |run|
  {
    if n == i then [] else TakenIn(cfg, run, steps, i, n - 1, k) + TakenBy(cfg, run[n - 1], steps[n - 1], k)
  }

  /** The step adds a task to k. */
  ghost predicate Arrives(cfg: Config, s: State, step: Step, k: Key) {
    CommandOf(cfg, s, step).ZAdd? && CommandOf(cfg, s, step).k == k
  }

  lemma RanksAfter(cfg: Config, s: State, step: Step, k: Key)
    requires Enabled(cfg, s, step) && RanksValid(s.db) && !Arrives(cfg, s, step, k)
    ensures After(cfg, s, step).db.Ranks(k) == s.db.Ranks(k)[TakeCount(cfg, s, step, k)..]
  {
    var c := CommandOf(cfg, s, step);
    EnabledOrdered(cfg, s, step);
    if c.PDequeue? && k == PriorityKey(c.queue) {
      DequeueShrinks(s.db, c.queue);
    } else if !(c.MoveDue? && c.k == k) {
      RanksSame(s.db, c, k);
    }
  }

  lemma DequeueShrinks(db: Db, q: string)
    requires RanksValid(db)
    ensures var z := db.Ranks(PriorityKey(q));
            db.PDequeue(q).0.Ranks(PriorityKey(q)) == if db.PDequeue(q).1.Got? then z[1..] else z
  {
    var z := db.Ranks(PriorityKey(q));
    if z != [] {
      ZRemHead(z);
    }
  }

  lemma MoveArrives(db: Db, source: Key, dest: Key, now: int, i: nat)
    requires i < BatchCount(db.Ranks(source), now, BATCH_SIZE)
    ensures db.Ranks(source)[i].id in db.MoveDue(source, dest, now, BATCH_SIZE).List(dest)
    ensures db.Ranks(source)[i].score <= now
  {
    var z := db.Ranks(source);
    assert Ids(z[..BatchCount(z, now, BATCH_SIZE)])[i] == z[i].id;
  }

  lemma RestAfter(z: ZSet, n: nat, i: nat)
    requires Valid(z) && i < n <= |z|
    ensures forall f :: f in z[n..] ==> Before(z[i], f)
  {
    forall f | f in z[n..] ensures Before(z[i], f) {
      var j :| 0 <= j < |z[n..]| && z[n..][j] == f;
      assert Before(z[i], z[n + j]);
    }
  }

  lemma TakenFirst(db: Db, c: Command, k: Key, i: nat)
    requires RanksValid(db) && i < TakenByCommand(db, c, k)
    ensures var e := db.Ranks(k)[i];
            && (forall f :: f in db.Ranks(k)[TakenByCommand(db, c, k)..] ==> Before(e, f))
            && e.id in Do(db, c).List(Destination(c))
            && (c.MoveDue? ==> e.score <= c.now)
  {
    RestAfter(db.Ranks(k), TakenByCommand(db, c, k), i);
    if c.MoveDue? {
      MoveArrives(db, k, c.dest, c.now, i);
    } else {
      DequeueLists(db, c.queue, db.Ranks(k)[0].id);
    }
  }

  /**
   * Main result, with arrivals: whatever else is added or taken in between, every task that is
   * taken from a sorted set ranks before all that stay in it at that moment, and goes where it
   * should: from a priority queue to the active list, from the retry or delayed set to the
   * queue, and in the latter case only if it is due.
   */
  lemma TakesTheFirst(cfg: Config, run: seq<State>, steps: seq<Step>, j: nat, k: Key, e: Entry)
    requires IsRun(cfg, run, steps) && j < |steps| && e in TakenBy(cfg, run[j], steps[j], k)
    ensures e in run[j].db.Ranks(k) && e !in run[j + 1].db.Ranks(k)
    ensures forall f :: f in run[j + 1].db.Ranks(k) ==> Before(e, f)
    ensures e.id in run[j + 1].db.List(Destination(CommandOf(cfg, run[j], steps[j])))
    ensures CommandOf(cfg, run[j], steps[j]).MoveDue? ==> e.score <= CommandOf(cfg, run[j], steps[j]).now
  {
    RanksValidThroughout(cfg, run, steps, j);
    RunStep(cfg, run, steps, j + 1);
    StepTakes(cfg, run[j], run[j + 1], steps[j], k, e);
  }

  lemma StepTakes(cfg: Config, s: State, s': State, step: Step, k: Key, e: Entry)
    requires Next(cfg, s, step, s') && RanksValid(s.db) && e in TakenBy(cfg, s, step, k)
    ensures e in s.db.Ranks(k) && e !in s'.db.Ranks(k)
    ensures forall f :: f in s'.db.Ranks(k) ==> Before(e, f)
    ensures e.id in s'.db.List(Destination(CommandOf(cfg, s, step)))
    ensures CommandOf(cfg, s, step).MoveDue? ==> e.score <= CommandOf(cfg, s, step).now
  {
    var i :| 0 <= i < TakeCount(cfg, s, step, k) && s.db.Ranks(k)[i] == e;
    TakenFirst(s.db, CommandOf(cfg, s, step), k, i);
    NoArrival(cfg, s, step, k);
    RanksAfter(cfg, s, step, k);
    LexIrreflexive(e.id);
  }

  /** Of two tasks with the same score the one with the smaller id leaves first: smaller at the first difference. */
  lemma SmallerIdFirst(cfg: Config, run: seq<State>, steps: seq<Step>, j: nat, k: Key, e: Entry, f: Entry)
    requires IsRun(cfg, run, steps) && j < |steps| && e in TakenBy(cfg, run[j], steps[j], k)
    requires f in run[j + 1].db.Ranks(k) && f.score <= e.score
    ensures f.score == e.score && exists i: nat :: DiffersAt(e.id, f.id, i)
  {
    TakesTheFirst(cfg, run, steps, j, k, e);
    assert Before(e, f);
    LexLessIff(e.id, f.id);
  }

  lemma NoArrival(cfg: Config, s: State, step: Step, k: Key)
    requires TakeCount(cfg, s, step, k) > 0
    ensures !Arrives(cfg, s, step, k)
  {
  }

  lemma Reassociate(a: ZSet, b: ZSet, c: ZSet)
    ensures (a + b) + c == a + (b + c)
  {
  }

  lemma PrefixRanked(a: ZSet, b: ZSet, z: ZSet)
    requires a + b == z && Valid(z)
    ensures Ranked(a) && Distinct(a) && multiset(a) + multiset(b) == multiset(z)
  {
    assert a == z[..|a|];
    TailValid(z, |a|);
  }

  lemma StepSplits(cfg: Config, s: State, s': State, step: Step, k: Key)
    requires Next(cfg, s, step, s') && RanksValid(s.db) && !Arrives(cfg, s, step, k)
    ensures TakenBy(cfg, s, step, k) + s'.db.Ranks(k) == s.db.Ranks(k)
  {
    RanksAfter(cfg, s, step, k);
  }

  lemma TakenNext(cfg: Config, run: seq<State>, steps: seq<Step>, i: nat, n: nat, k: Key)
    requires i < n <= |steps| < |run| && !Arrives(cfg, run[n - 1], steps[n - 1], k)
    requires Next(cfg, run[n - 1], steps[n - 1], run[n]) && RanksValid(run[n - 1].db)
    requires TakenIn(cfg, run, steps, i, n - 1, k) + run[n - 1].db.Ranks(k) == run[i].db.Ranks(k)
    ensures TakenIn(cfg, run, steps, i, n, k) + run[n].db.Ranks(k) == run[i].db.Ranks(k)
  {
    StepSplits(cfg, run[n - 1], run[n], steps[n - 1], k);
    Reassociate(TakenIn(cfg, run, steps, i, n - 1, k), TakenBy(cfg, run[n - 1], steps[n - 1], k), run[n].db.Ranks(k));
  }

  lemma {:induction false} TakenPrefix(cfg: Config, run: seq<State>, steps: seq<Step>, i: nat, n: nat, k: Key)
    requires IsRun(cfg, run, steps) && i <= n <= |steps|
    requires forall j :: i <= j < n ==> !Arrives(cfg, run[j], steps[j], k)
    ensures TakenIn(cfg, run, steps, i, n, k) + run[n].db.Ranks(k) == run[i].db.Ranks(k)
  {
    if i < n {
      TakenPrefix(cfg, run, steps, i, n - 1, k);
      RanksValidThroughout(cfg, run, steps, n - 1);
      RunStep(cfg, run, steps, n);
      TakenNext(cfg, run, steps, i, n, k);
    }
  }

  /**
   * Main result, without arrivals: what any number of workers and ticks take from a sorted set,
   * in the order in which they take it, is a prefix of its ranks at the start, and the rest is
   * what is left. So nothing is lost or taken twice, tasks leave in the order of (score, id),
   * and an emptied set was handed out completely.
   */
  lemma TakenInOrder(cfg: Config, run: seq<State>, steps: seq<Step>, i: nat, n: nat, k: Key)
    requires IsRun(cfg, run, steps) && i <= n <= |steps|
    requires forall j :: i <= j < n ==> !Arrives(cfg, run[j], steps[j], k)
    ensures TakenIn(cfg, run, steps, i, n, k) + run[n].db.Ranks(k) == run[i].db.Ranks(k)
    ensures Ranked(TakenIn(cfg, run, steps, i, n, k)) && Distinct(TakenIn(cfg, run, steps, i, n, k))
    ensures multiset(TakenIn(cfg, run, steps, i, n, k)) + multiset(run[n].db.Ranks(k)) == multiset(run[i].db.Ranks(k))
  {
    RanksValidThroughout(cfg, run, steps, i);
    TakenPrefix(cfg, run, steps, i, n, k);
    PrefixRanked(TakenIn(cfg, run, steps, i, n, k), run[n].db.Ranks(k), run[i].db.Ranks(k));
  }

  // ---- the plain list comes after the priority queue ----

  /** Step i is worker w's poll of q's priority queue, and its script handed out no task. */
  ghost predicate PollsInVain(run: seq<State>, steps: seq<Step>, i: nat, w: WorkerId, q: string)
    requires i < |steps| < |run|
  {
    && steps[i].WorkerStep? && steps[i].w == w && steps[i].choice.Poll? && steps[i].choice.queue == q
    && w in run[i].workers && run[i].workers[w].Idle?
    && (run[i].db.Paused(q) || run[i].db.Ranks(PriorityKey(q)) == [])
  }

  /** Worker w takes no step from i to n. */
  ghost predicate Rests(steps: seq<Step>, w: WorkerId, i: nat, n: nat)
    requires n <= |steps|
  {
    forall j :: i <= j < n ==> !(steps[j].WorkerStep? && steps[j].w == w)
  }

  lemma {:induction false} CheckerPolled(cfg: Config, run: seq<State>, steps: seq<Step>, n: nat, w: WorkerId, q: string) returns (i: nat)
    requires IsRun(cfg, run, steps) && n <= |steps|
    requires w in run[n].workers && run[n].workers[w] == CheckingPause(q)
    ensures i < n && PollsInVain(run, steps, i, w, q) && Rests(steps, w, i + 1, n)
  {
    assert n > 0;
    RunStep(cfg, run, steps, n);
    if steps[n - 1].WorkerStep? && steps[n - 1].w == w {
      Bookkeeping.WorkerAt(cfg, run, steps, n - 1, w);
      i := n - 1;
    } else {
      i := CheckerPolled(cfg, run, steps, n - 1, w, q);
    }
  }

  /**
   * Main result: a worker about to pop the plain list of q has in the same round asked q's
   * priority queue in vain, and then seen q not paused. If q was not paused at the first of
   * these two moments, its priority queue was empty. (The third way to the plain list, a task
   * from the priority queue that has no record, does not occur in a run: records outlive it.)
   */
  lemma {:induction false} PlainListComesSecond(cfg: Config, run: seq<State>, steps: seq<Step>, n: nat, w: WorkerId, q: string)
    requires IsRun(cfg, run, steps) && n <= |steps|
    requires w in run[n].workers && run[n].workers[w] == Popping(q)
    ensures exists i, k :: 0 <= i < k < n && PollsInVain(run, steps, i, w, q) && Rests(steps, w, i + 1, k) &&
                           Rests(steps, w, k + 1, n) && !run[k].db.Paused(q)
  {
    assert n > 0;
    RunStep(cfg, run, steps, n);
    if steps[n - 1].WorkerStep? && steps[n - 1].w == w {
      assert run[n - 1].workers[w] == CheckingPause(q);
      var i := CheckerPolled(cfg, run, steps, n - 1, w, q);
    } else {
      PlainListComesSecond(cfg, run, steps, n - 1, w, q);
    }
  }

  // ---- what still leaves a paused queue ----

  /** From step i to step n the queue stays paused: step i - 1 paused it, and nobody resumes it. */
  ghost predicate StaysPaused(run: seq<State>, steps: seq<Step>, i: nat, n: nat, q: string)
    requires n <= |steps| < |run|
  {
    0 < i <= n && steps[i - 1] == PauseQueue(q) && forall j :: i <= j < n ==> steps[j] != ResumeQueue(q)
  }

  /** Workers between their pause check and their BLPOP. */
  function Poppers(s: State, q: string): set<WorkerId> {
    set w | w in s.workers && s.workers[w] == Popping(q)
  }

  /** The step takes a task from the plain list of q. */
  ghost predicate Pops(s: State, step: Step, q: string) {
    step.WorkerStep? && step.w in s.workers && s.workers[step.w] == Popping(q) && s.db.List(QueueKey(q)) != []
  }

  ghost function PopCount(run: seq<State>, steps: seq<Step>, i: nat, n: nat, q: string): nat
    requires i <= n <= |steps| < |run|
  {
    if n == i then 0 else PopCount(run, steps, i, n - 1, q) + if Pops(run[n - 1], steps[n - 1], q) then 1 else 0
  }

  lemma FlagFrame(cfg: Config, s: State, step: Step, q: string)
    requires Enabled(cfg, s, step) && step != ResumeQueue(q) && s.db.Paused(q)
    ensures After(cfg, s, step).db.Paused(q)
  {
    EnabledOrdered(cfg, s, step);
    TakingKeys(cfg, s, step);
    FlagsFrame(s.db, CommandOf(cfg, s, step));
  }

  /** The pause script check keeps the priority queue as it is, but for arrivals. */
  lemma PriorityKept(cfg: Config, s: State, step: Step, q: string, x: Id)
    requires Enabled(cfg, s, step) && RanksValid(s.db) && s.db.Paused(q)
    requires Has(s.db.Ranks(PriorityKey(q)), x)
    ensures Has(After(cfg, s, step).db.Ranks(PriorityKey(q)), x)
  {
    EnabledOrdered(cfg, s, step);
    RanksExact(s.db, CommandOf(cfg, s, step), PriorityKey(q), x);
  }

  lemma PoppersShrink(cfg: Config, s: State, step: Step, q: string)
    requires Enabled(cfg, s, step) && s.db.Paused(q)
    ensures |Poppers(After(cfg, s, step), q)| + (if Pops(s, step, q) then 1 else 0) <= |Poppers(s, q)|
  {
    var before, after := Poppers(s, q), Poppers(After(cfg, s, step), q);
    if step.WorkerStep? {
      if s.workers[step.w] == Popping(q) {
        SubsetSize(after, before - {step.w});
      } else {
        SubsetSize(after, before);
      }
    } else {
      assert after == before;
    }
  }

  /** The only tasks that leave the plain list of q are popped. */
  lemma PlainShortened(cfg: Config, s: State, step: Step, q: string)
    requires Enabled(cfg, s, step)
    ensures |s.db.List(QueueKey(q))| <= |After(cfg, s, step).db.List(QueueKey(q))| + if Pops(s, step, q) then 1 else 0
  {
    var c := CommandOf(cfg, s, step);
    EnabledOrdered(cfg, s, step);
    TakingKeys(cfg, s, step);
    if !(c.LPop? && c.k == QueueKey(q)) {
      ListGrows(s.db, c, QueueKey(q));
    }
  }

  /** What holds in s when q was paused in s0 and pops tasks were popped since. */
  ghost predicate Held(s0: State, s: State, q: string, pops: nat) {
    && s.db.Paused(q)
    && (forall x :: Has(s0.db.Ranks(PriorityKey(q)), x) ==> Has(s.db.Ranks(PriorityKey(q)), x))
    && pops + |Poppers(s, q)| <= |Poppers(s0, q)|
    && |s0.db.List(QueueKey(q))| <= |s.db.List(QueueKey(q))| + pops
  }

  lemma HeldNext(cfg: Config, run: seq<State>, steps: seq<Step>, i: nat, n: nat, q: string)
    requires 0 < i < n <= |steps| < |run| && StaysPaused(run, steps, i, n, q)
    requires Next(cfg, run[n - 1], steps[n - 1], run[n]) && RanksValid(run[n - 1].db)
    requires Held(run[i], run[n - 1], q, PopCount(run, steps, i, n - 1, q))
    ensures Held(run[i], run[n], q, PopCount(run, steps, i, n, q))
  {
    var s, step := run[n - 1], steps[n - 1];
    FlagFrame(cfg, s, step, q);
    PoppersShrink(cfg, s, step, q);
    PlainShortened(cfg, s, step, q);
    forall x | Has(run[i].db.Ranks(PriorityKey(q)), x) ensures Has(run[n].db.Ranks(PriorityKey(q)), x) {
      PriorityKept(cfg, s, step, q, x);
    }
  }

  lemma PausedAtFirst(cfg: Config, run: seq<State>, steps: seq<Step>, i: nat, q: string)
    requires IsRun(cfg, run, steps) && 0 < i <= |steps| && steps[i - 1] == PauseQueue(q)
    ensures Held(run[i], run[i], q, 0)
  {
    RunStep(cfg, run, steps, i);
  }

  lemma HeldStep(cfg: Config, run: seq<State>, steps: seq<Step>, i: nat, n: nat, q: string)
    requires IsRun(cfg, run, steps) && n <= |steps| && StaysPaused(run, steps, i, n, q) && i < n
    requires Held(run[i], run[n - 1], q, PopCount(run, steps, i, n - 1, q))
    ensures Held(run[i], run[n], q, PopCount(run, steps, i, n, q))
  {
    RanksValidThroughout(cfg, run, steps, n - 1);
    RunStep(cfg, run, steps, n);
    HeldNext(cfg, run, steps, i, n, q);
  }

  lemma {:induction false} HeldThroughout(cfg: Config, run: seq<State>, steps: seq<Step>, i: nat, n: nat, q: string)
    requires IsRun(cfg, run, steps) && n <= |steps| && StaysPaused(run, steps, i, n, q)
    ensures Held(run[i], run[n], q, PopCount(run, steps, i, n, q))
  {
    if i == n {
      PausedAtFirst(cfg, run, steps, i, q);
    } else {
      HeldThroughout(cfg, run, steps, i, n - 1, q);
      HeldStep(cfg, run, steps, i, n, q);
    }
  }

  lemma PriorityStep(cfg: Config, run: seq<State>, steps: seq<Step>, n: nat, q: string, x: Id)
    requires IsRun(cfg, run, steps) && 0 < n <= |steps| && run[n - 1].db.Paused(q)
    requires Has(run[n - 1].db.Ranks(PriorityKey(q)), x)
    ensures Has(run[n].db.Ranks(PriorityKey(q)), x)
  {
    RanksValidThroughout(cfg, run, steps, n - 1);
    RunStep(cfg, run, steps, n);
    PriorityKept(cfg, run[n - 1], steps[n - 1], q, x);
  }

  /** A task that is in the priority queue, or comes into it, while the queue is paused stays there. */
  lemma {:induction false} PriorityStays(cfg: Config, run: seq<State>, steps: seq<Step>, i: nat, j: nat, n: nat, q: string, x: Id)
    requires IsRun(cfg, run, steps) && i <= j <= n <= |steps| && StaysPaused(run, steps, i, n, q)
    requires Has(run[j].db.Ranks(PriorityKey(q)), x)
    ensures Has(run[n].db.Ranks(PriorityKey(q)), x)
  {
    if j < n {
      PriorityStays(cfg, run, steps, i, j, n - 1, q, x);
      HeldThroughout(cfg, run, steps, i, n - 1, q);
      PriorityStep(cfg, run, steps, n, q, x);
    }
  }

  /**
   * Main result: from the moment a queue is paused until it is resumed, no task leaves its
   * priority queue, and at most as many tasks are popped from its plain list as there were
   * workers between their pause check and their BLPOP when it was paused. Tasks can still
   * arrive - and then stay, too -, but nothing but these pops shortens the plain list.
   */
  lemma PauseHolds(cfg: Config, run: seq<State>, steps: seq<Step>, i: nat, n: nat, q: string)
    requires IsRun(cfg, run, steps) && n <= |steps| && StaysPaused(run, steps, i, n, q)
    ensures run[n].db.Paused(q)
    ensures forall j, x :: i <= j <= n && Has(run[j].db.Ranks(PriorityKey(q)), x) ==> Has(run[n].db.Ranks(PriorityKey(q)), x)
    ensures PopCount(run, steps, i, n, q) <= |Poppers(run[i], q)|
    ensures |run[i].db.List(QueueKey(q))| <= |run[n].db.List(QueueKey(q))| + PopCount(run, steps, i, n, q)
  {
    HeldThroughout(cfg, run, steps, i, n, q);
    forall j, x | i <= j <= n && Has(run[j].db.Ranks(PriorityKey(q)), x) ensures Has(run[n].db.Ranks(PriorityKey(q)), x) {
      PriorityStays(cfg, run, steps, i, j, n, q, x);
    }
  }
}
