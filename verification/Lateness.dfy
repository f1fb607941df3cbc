/** How late the scheduler can be: bounds on the ticks until a due task is moved. */
module Lateness {
  import opened Basics
  import opened Keys
  import opened SortedSets
  import opened Store
  import opened Commands
  import opened Protocol
  import opened Leaving

  /** Entry e is in z with at most r entries ahead of it. */
  ghost predicate Within(z: ZSet, e: Entry, r: int) {
    exists i :: 0 <= i <= r && i < |z| && z[i] == e
  }

  // ---- one step ----

  /** Removing another entry brings e no further back. */
  lemma {:induction false} WithinZRem(z: ZSet, e: Entry, r: int, id: Id)
    requires Within(z, e, r) && id != e.id
    ensures Within(ZRem(z, id), e, r)
    decreases |z|
  {
    var i :| 0 <= i <= r && i < |z| && z[i] == e;
    if i == 0 {
      assert ZRem(z, id)[0] == e;
    } else {
      assert z[1..][i - 1] == e;
      WithinZRem(z[1..], e, r - 1, id);
      var y := ZRem(z[1..], id);
      var j :| 0 <= j <= r - 1 && j < |y| && y[j] == e;
      assert z[0].id == id ==> ZRem(z, id)[j] == e;
      assert z[0].id != id ==> ZRem(z, id)[j + 1] == e;
    }
  }

  /** An entry that sorts after e is inserted behind it. */
  lemma {:induction false} WithinInsert(z: ZSet, e: Entry, r: int, f: Entry)
    requires Within(z, e, r) && Before(e, f) && Ranked(z)
    ensures Within(Insert(z, f), e, r)
    decreases |z|
  {
    var i :| 0 <= i <= r && i < |z| && z[i] == e;
    if Before(f, z[0]) {
      if i > 0 { BeforeTransitive(e, f, z[0]); BeforeAsymmetric(z[0], e); } else { BeforeAsymmetric(e, f); }
      assert false;
    } else if i == 0 {
      assert Insert(z, f)[0] == e;
    } else {
      assert z[1..][i - 1] == e;
      WithinInsert(z[1..], e, r - 1, f);
      var y := Insert(z[1..], f);
      var j :| 0 <= j <= r - 1 && j < |y| && y[j] == e;
      assert Insert(z, f)[j + 1] == e;
    }
  }

  lemma WithinZAdd(z: ZSet, e: Entry, r: int, id: Id, score: int)
    requires Within(z, e, r) && Valid(z) && id != e.id && Before(e, Entry(score, id))
    ensures Within(SortedSets.ZAdd(z, id, score), e, r)
  {
    WithinZRem(z, e, r, id);
    ZRemValid(z, id);
    WithinInsert(ZRem(z, id), e, r, Entry(score, id));
  }

  /** A tick at which e is due takes e or a full batch of the entries ahead of it. */
  lemma WithinTick(z: ZSet, e: Entry, r: int, now: int)
    requires Within(z, e, r) && Valid(z) && e.score <= now
    ensures var rest := z[BatchCount(z, now, BATCH_SIZE)..]; e !in rest || Within(rest, e, r - BATCH_SIZE)
  {
    var n := BatchCount(z, now, BATCH_SIZE);
    var i :| 0 <= i <= r && i < |z| && z[i] == e;
    DueExactly(z, now, i);
    if e in z[n..] {
      var j :| 0 <= j < |z[n..]| && z[n..][j] == e;
      assert z[n + j] == e;
      assert n + j == i;
      assert n == BATCH_SIZE;
    }
  }

  ghost predicate IsTick(step: Step, k: Key) {
    || (step.RetryTick? && k == RetryKey(step.queue))
    || (step.DelayedTick? && k == DelayedKey(step.queue))
  }

  /** Whatever the step adds to k is another task and sorts after e. */
  ghost predicate Behind(cfg: Config, s: State, step: Step, k: Key, e: Entry) {
    var c := CommandOf(cfg, s, step);
    c.ZAdd? && c.k == k ==> c.id != e.id && Before(e, Entry(c.score, c.id))
  }

  /** e waits in k with at most r entries ahead, or has left k. */
  ghost predicate Served(z: ZSet, e: Entry, r: int) {
    e !in z || Within(z, e, r)
  }

  lemma StepServes(cfg: Config, s: State, s': State, step: Step, k: Key, e: Entry, r: int)
    requires Next(cfg, s, step, s') && RanksValid(s.db) && (k.RetryKey? || k.DelayedKey?)
    requires Behind(cfg, s, step, k, e) && (IsTick(step, k) ==> e.score <= step.now)
    requires Served(s.db.Ranks(k), e, r)
    ensures Served(s'.db.Ranks(k), e, if IsTick(step, k) then r - BATCH_SIZE else r)
  {
    var c, z := CommandOf(cfg, s, step), s.db.Ranks(k);
    TakingKeys(cfg, s, step);
    if Arrives(cfg, s, step, k) {
      ZAddSpec(z, c.id, c.score);
      if e in z { WithinZAdd(z, e, r, c.id, c.score); }
    } else {
      RanksAfter(cfg, s, step, k);
      TickTakes(cfg, s, step, k);
      if e in z && IsTick(step, k) { WithinTick(z, e, r, step.now); }
      TakenStaysOut(z, TakeCount(cfg, s, step, k), e);
    }
  }

  lemma TickTakes(cfg: Config, s: State, step: Step, k: Key)
    requires Enabled(cfg, s, step) && (k.RetryKey? || k.DelayedKey?)
    ensures TakeCount(cfg, s, step, k) == if IsTick(step, k) then BatchCount(s.db.Ranks(k), step.now, BATCH_SIZE) else 0
  {
    TakingKeys(cfg, s, step);
  }

  lemma TakenStaysOut(z: ZSet, n: nat, e: Entry)
    requires n <= |z|
    ensures e in z[n..] ==> e in z
    ensures n == 0 ==> z[n..] == z
  {
  }

  // ---- whole runs ----

  /** How many ticks look at k in steps i to n. */
  ghost function Ticks(steps: seq<Step>, i: nat, n: nat, k: Key): nat
    requires i <= n <= |steps|
  {
    if i == n then 0 else Ticks(steps, i, n - 1, k) + if IsTick(steps[n - 1], k) then 1 else 0
  }

  /** In steps i to n, e is due at every tick, and everything that arrives in k sorts after it. */
  ghost predicate DueThroughout(cfg: Config, run: seq<State>, steps: seq<Step>, i: nat, n: nat, k: Key, e: Entry)
    requires i <= n <= |steps| < |run|
  {
    forall j :: i <= j < n ==> Behind(cfg, run[j], steps[j], k, e) && (IsTick(steps[j], k) ==> e.score <= steps[j].now)
  }

  lemma {:induction false} ServedThroughout(cfg: Config, run: seq<State>, steps: seq<Step>, i: nat, n: nat, k: Key, e: Entry, r: nat)
    requires IsRun(cfg, run, steps) && i <= n <= |steps| && (k.RetryKey? || k.DelayedKey?)
    requires DueThroughout(cfg, run, steps, i, n, k, e) && Within(run[i].db.Ranks(k), e, r)
    ensures Served(run[n].db.Ranks(k), e, r - BATCH_SIZE * Ticks(steps, i, n, k))
  {
    if i < n {
      ServedThroughout(cfg, run, steps, i, n - 1, k, e, r);
      RanksValidThroughout(cfg, run, steps, n - 1);
      RunStep(cfg, run, steps, n);
      assert Behind(cfg, run[n - 1], steps[n - 1], k, e);
      ServedNext(cfg, run, steps, i, n, k, e, r);
    }
  }

  lemma ServedNext(cfg: Config, run: seq<State>, steps: seq<Step>, i: nat, n: nat, k: Key, e: Entry, r: nat)
    requires i < n <= |steps| < |run| && (k.RetryKey? || k.DelayedKey?)
    requires Next(cfg, run[n - 1], steps[n - 1], run[n]) && RanksValid(run[n - 1].db)
    requires Behind(cfg, run[n - 1], steps[n - 1], k, e) && (IsTick(steps[n - 1], k) ==> e.score <= steps[n - 1].now)
    requires Served(run[n - 1].db.Ranks(k), e, r - BATCH_SIZE * Ticks(steps, i, n - 1, k))
    ensures Served(run[n].db.Ranks(k), e, r - BATCH_SIZE * Ticks(steps, i, n, k))
  {
    StepServes(cfg, run[n - 1], run[n], steps[n - 1], k, e, r - BATCH_SIZE * Ticks(steps, i, n - 1, k));
  }

  /** The task was moved to its queue by one of the steps i to n. */
  ghost predicate MovedIn(cfg: Config, run: seq<State>, steps: seq<Step>, i: nat, n: nat, k: Key, e: Entry)
    requires i <= n <= |steps| < |run|
  {
    exists j :: i <= j < n && IsTick(steps[j], k) && e in TakenBy(cfg, run[j], steps[j], k) &&
                e.id in run[j + 1].db.List(QueueKey(steps[j].queue))
  }

  /** An entry leaves the set only by a tick that moves it. */
  lemma {:induction false} LeavesByTick(cfg: Config, run: seq<State>, steps: seq<Step>, i: nat, n: nat, k: Key, e: Entry)
    requires IsRun(cfg, run, steps) && i <= n <= |steps| && (k.RetryKey? || k.DelayedKey?)
    requires DueThroughout(cfg, run, steps, i, n, k, e) && e in run[i].db.Ranks(k)
    ensures e in run[n].db.Ranks(k) || MovedIn(cfg, run, steps, i, n, k, e)
  {
    if i < n {
      LeavesByTick(cfg, run, steps, i, n - 1, k, e);
      if e in run[n - 1].db.Ranks(k) && e !in run[n].db.Ranks(k) {
        assert Behind(cfg, run[n - 1], steps[n - 1], k, e);
        LeavesNow(cfg, run, steps, n, k, e);
      }
    }
  }

  lemma LeavesNow(cfg: Config, run: seq<State>, steps: seq<Step>, n: nat, k: Key, e: Entry)
    requires IsRun(cfg, run, steps) && 0 < n <= |steps| && (k.RetryKey? || k.DelayedKey?)
    requires Behind(cfg, run[n - 1], steps[n - 1], k, e)
    requires e in run[n - 1].db.Ranks(k) && e !in run[n].db.Ranks(k)
    ensures IsTick(steps[n - 1], k) && e in TakenBy(cfg, run[n - 1], steps[n - 1], k)
    ensures e.id in run[n].db.List(QueueKey(steps[n - 1].queue))
  {
    var s, step := run[n - 1], steps[n - 1];
    RanksValidThroughout(cfg, run, steps, n - 1);
    RunStep(cfg, run, steps, n);
    var z, c := s.db.Ranks(k), CommandOf(cfg, s, step);
    if Arrives(cfg, s, step, k) {
      ZAddSpec(z, c.id, c.score);
    } else {
      RanksAfter(cfg, s, step, k);
      TickTakes(cfg, s, step, k);
      var m := TakeCount(cfg, s, step, k);
      forall i | m <= i < |z| ensures z[i] in z[m..] { assert z[m..][i - m] == z[i]; }
      var i :| 0 <= i < |z| && z[i] == e;
      TakenFirst(s.db, c, k, i);
    }
  }

  /**
   * If e has at most r entries ahead, stays due, and is not overtaken, then r / 100 + 1 ticks
   * move it to its queue.
   */
  lemma EnoughTicks(cfg: Config, run: seq<State>, steps: seq<Step>, i: nat, n: nat, k: Key, e: Entry, r: nat)
    requires IsRun(cfg, run, steps) && i <= n <= |steps| && (k.RetryKey? || k.DelayedKey?)
    requires DueThroughout(cfg, run, steps, i, n, k, e) && Within(run[i].db.Ranks(k), e, r)
    requires Ticks(steps, i, n, k) > r / 100
    ensures MovedIn(cfg, run, steps, i, n, k, e)
    ensures e !in run[n].db.Ranks(k)
  {
    ServedThroughout(cfg, run, steps, i, n, k, e, r);
    LeavesByTick(cfg, run, steps, i, n, k, e);
  }

  // ---- the scheduler's schedule ----

  /** Retry sets are looked at in every tick of the scheduler, delayed sets in every fifth. */
  predicate Looks(tick: nat, k: Key) {
    k.RetryKey? || (k.DelayedKey? && tick % 5 == 0)
  }

  /**
   * starts[j] is the step with which the scheduler's tick number first + j begins; within each
   * tick it looks at the set k if the tick number says so.
   */
  ghost predicate Scheduled(steps: seq<Step>, starts: seq<nat>, first: nat, k: Key) {
    && |starts| > 0 && (forall j :: 0 <= j < |starts| ==> starts[j] <= |steps|)
    && (forall j :: 0 <= j < |starts| - 1 ==> starts[j] <= starts[j + 1])
    && (forall j :: 0 <= j < |starts| - 1 && Looks(first + j, k) ==> TicksWithin(steps, starts[j], starts[j + 1], k))
  }

  ghost predicate TicksWithin(steps: seq<Step>, i: nat, n: nat, k: Key) {
    exists j :: i <= j < n && j < |steps| && IsTick(steps[j], k)
  }

  lemma {:induction false} TicksAdd(steps: seq<Step>, i: nat, m: nat, n: nat, k: Key)
    requires i <= m <= n <= |steps|
    ensures Ticks(steps, i, n, k) == Ticks(steps, i, m, k) + Ticks(steps, m, n, k)
    decreases n
  {
    if m < n {
      TicksAdd(steps, i, m, n - 1, k);
    }
  }

  lemma {:induction false} OneTick(steps: seq<Step>, i: nat, n: nat, k: Key)
    requires i <= n <= |steps| && TicksWithin(steps, i, n, k)
    ensures Ticks(steps, i, n, k) >= 1
    decreases n
  {
    var j :| i <= j < n && IsTick(steps[j], k);
    if j < n - 1 {
      OneTick(steps, i, n - 1, k);
    }
  }

  /** How many of the ticks first, .., first + m - 1 look at k. */
  function LookCount(first: nat, m: nat, k: Key): nat {
    if m == 0 then 0 else LookCount(first, m - 1, k) + if Looks(first + m - 1, k) then 1 else 0
  }

  lemma {:induction false} ScheduleTicks(steps: seq<Step>, starts: seq<nat>, first: nat, k: Key, m: nat)
    requires Scheduled(steps, starts, first, k) && m < |starts|
    ensures starts[0] <= starts[m] && Ticks(steps, starts[0], starts[m], k) >= LookCount(first, m, k)
  {
    if m > 0 {
      ScheduleTicks(steps, starts, first, k, m - 1);
      assert starts[m - 1] <= starts[m - 1 + 1];
      TicksAdd(steps, starts[0], starts[m - 1], starts[m], k);
      if Looks(first + m - 1, k) {
        assert TicksWithin(steps, starts[m - 1], starts[m - 1 + 1], k);
        OneTick(steps, starts[m - 1], starts[m], k);
      }
    }
  }

  lemma {:induction false} EveryTickLooks(first: nat, m: nat, k: Key)
    requires k.RetryKey?
    ensures LookCount(first, m, k) == m
  {
    if m > 0 { EveryTickLooks(first, m - 1, k); }
  }

  /** Any five ticks in a row hold one that looks at the delayed sets. */
  lemma {:induction false} EveryFifthLooks(first: nat, f: nat, k: Key)
    requires k.DelayedKey?
    ensures LookCount(first, 5 * f, k) == f
  {
    if f > 0 {
      EveryFifthLooks(first, f - 1, k);
      FiveTicks(first, 5 * (f - 1), k);
    }
  }

  lemma FiveTicks(first: nat, m: nat, k: Key)
    requires k.DelayedKey?
    ensures LookCount(first, m + 5, k) == LookCount(first, m, k) + 1
  {
    var t := first + m;
    assert LookCount(first, m + 5, k) == LookCount(first, m + 4, k) + if Looks(t + 4, k) then 1 else 0;
    assert LookCount(first, m + 4, k) == LookCount(first, m + 3, k) + if Looks(t + 3, k) then 1 else 0;
    assert LookCount(first, m + 3, k) == LookCount(first, m + 2, k) + if Looks(t + 2, k) then 1 else 0;
    assert LookCount(first, m + 2, k) == LookCount(first, m + 1, k) + if Looks(t + 1, k) then 1 else 0;
    assert LookCount(first, m + 1, k) == LookCount(first, m, k) + if Looks(t, k) then 1 else 0;
  }

  /**
   * Main result: a retry task that is due when tick number `first` begins and has r tasks ahead
   * is moved to its queue by the end of tick first + r / 100, if later arrivals sort after it.
   */
  lemma RetryLateness(cfg: Config, run: seq<State>, steps: seq<Step>, starts: seq<nat>, first: nat, q: string, e: Entry, r: nat)
    requires IsRun(cfg, run, steps) && Scheduled(steps, starts, first, RetryKey(q)) && |starts| == r / 100 + 2
    requires Within(run[starts[0]].db.Ranks(RetryKey(q)), e, r) && starts[0] <= starts[|starts| - 1]
    requires DueThroughout(cfg, run, steps, starts[0], starts[|starts| - 1], RetryKey(q), e)
    ensures MovedIn(cfg, run, steps, starts[0], starts[|starts| - 1], RetryKey(q), e)
  {
    var m := r / BATCH_SIZE + 1;
    ScheduleTicks(steps, starts, first, RetryKey(q), m);
    EveryTickLooks(first, m, RetryKey(q));
    EnoughTicks(cfg, run, steps, starts[0], starts[m], RetryKey(q), e, r);
  }

  /** The same for a delayed task, by the end of tick first + 4 + 5 * (r / 100). */
  lemma DelayedLateness(cfg: Config, run: seq<State>, steps: seq<Step>, starts: seq<nat>, first: nat, q: string, e: Entry, r: nat)
    requires IsRun(cfg, run, steps) && Scheduled(steps, starts, first, DelayedKey(q)) && |starts| == 4 + 5 * (r / 100) + 2
    requires Within(run[starts[0]].db.Ranks(DelayedKey(q)), e, r) && starts[0] <= starts[|starts| - 1]
    requires DueThroughout(cfg, run, steps, starts[0], starts[|starts| - 1], DelayedKey(q), e)
    ensures MovedIn(cfg, run, steps, starts[0], starts[|starts| - 1], DelayedKey(q), e)
  {
    var m := 5 * (r / BATCH_SIZE + 1);
    ScheduleTicks(steps, starts, first, DelayedKey(q), m);
    EveryFifthLooks(first, r / BATCH_SIZE + 1, DelayedKey(q));
    EnoughTicks(cfg, run, steps, starts[0], starts[m], DelayedKey(q), e, r);
  }
}
