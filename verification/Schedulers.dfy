/** The scheduler's program: in every tick the retry sets, in every fifth tick the delayed sets. */
module Schedulers {
  import opened Basics
  import opened Keys
  import opened Store
  import opened Commands
  import opened Protocol
  import opened Redis
  import opened SortedSets
  import opened Batching
  import opened Lateness

  function RetryCommands(queues: seq<string>, now: int): (r: seq<Command>)
    ensures |r| == |queues| && forall i :: 0 <= i < |queues| ==> r[i] == MoveDue(RetryKey(queues[i]), QueueKey(queues[i]), now)
  {
    seq(|queues|, i requires 0 <= i < |queues| => MoveDue(RetryKey(queues[i]), QueueKey(queues[i]), now))
  }

  function DelayedCommands(queues: seq<string>, now: int): (r: seq<Command>)
    ensures |r| == |queues| && forall i :: 0 <= i < |queues| ==> r[i] == MoveDue(DelayedKey(queues[i]), QueueKey(queues[i]), now)
  {
    seq(|queues|, i requires 0 <= i < |queues| => MoveDue(DelayedKey(queues[i]), QueueKey(queues[i]), now))
  }

  /** What tick number n issues; the two checks read the clock separately. */
  function TickCommands(queues: seq<string>, n: nat, retryNow: int, delayedNow: int): seq<Command> {
    RetryCommands(queues, retryNow) + if n % 5 == 0 then DelayedCommands(queues, delayedNow) else []
  }

  /** The times that a tick reads from the clock. */
  datatype Clocks = Clocks(retry: int, delayed: int)

  /** The time at which a tick looks at the set. */
  function ClockFor(clocks: Clocks, k: Key): int {
    if k.RetryKey? then clocks.retry else clocks.delayed
  }

  /** What the scheduler issues from tick number first on, as long as the clock readings last. */
  function RunCommands(queues: seq<string>, first: nat, clocks: seq<Clocks>): seq<Command>
    decreases |clocks|
  {
    if clocks == [] then []
    else TickCommands(queues, first, clocks[0].retry, clocks[0].delayed) + RunCommands(queues, first + 1, clocks[1..])
  }

  // ---- what a tick moves ----

  /** All commands are batched moves from a retry or delayed set to the queue of the same name; those from k at time t. */
  predicate Moves(commands: seq<Command>, k: Key, t: int) {
    forall i :: 0 <= i < |commands| ==>
      var c := commands[i];
      c.MoveDue? && (c.k.RetryKey? || c.k.DelayedKey?) && c.dest == QueueKey(c.k.name) && (c.k == k ==> c.now == t)
  }

  predicate MovesFrom(c: Command, k: Key) {
    c.MoveDue? && c.k == k
  }

  /** The first m entries of k, all due at t, left it for the end of the queue. */
  ghost predicate Moved(before: Db, after: Db, k: Key, m: nat, t: int)
    requires k.RetryKey? || k.DelayedKey?
  {
    var z := before.Ranks(k);
    && m <= |z| && after.Ranks(k) == z[m..] && before.List(QueueKey(k.name)) <= after.List(QueueKey(k.name))
    && Arrived(z, m, t, after.List(QueueKey(k.name)))
  }

  lemma OneMove(db: Db, c: Command, k: Key, t: int) returns (m: nat)
    requires (k.RetryKey? || k.DelayedKey?) && Moves([c], k, t)
    ensures Moved(db, Do(db, c), k, m, t)
    ensures m == if MovesFrom(c, k) then BatchCount(db.Ranks(k), t, 100) else 0
  {
    assert [c][0] == c;
    if c.k == k {
      m := BatchCount(db.Ranks(k), t, 100);
      OwnMove(db, k, t);
    } else {
      m := 0;
      OtherMove(db, c, k, t);
    }
  }

  lemma OwnMove(db: Db, k: Key, t: int)
    requires k.RetryKey? || k.DelayedKey?
    ensures Moved(db, Do(db, MoveDue(k, QueueKey(k.name), t)), k, BatchCount(db.Ranks(k), t, 100), t)
  {
    var z, m, dest := db.Ranks(k), BatchCount(db.Ranks(k), t, 100), QueueKey(k.name);
    var after := db.MoveDue(k, dest, t, 100);
    assert Do(db, MoveDue(k, dest, t)) == after;
    MoveEffect(db, k, dest, t, 100);
    FirstDue(z, m, t, db.List(dest));
    assert after.List(dest) == db.List(dest) + Ids(z[..m]);
  }

  lemma FirstDue(z: ZSet, m: nat, t: int, l: seq<Id>)
    requires m <= DueCount(z, t)
    ensures Arrived(z, m, t, l + Ids(z[..m]))
  {
    forall i | 0 <= i < m ensures z[i].score <= t && z[i].id in l + Ids(z[..m]) {
      assert (l + Ids(z[..m]))[|l| + i] == z[i].id;
    }
  }

  lemma OtherMove(db: Db, c: Command, k: Key, t: int)
    requires (k.RetryKey? || k.DelayedKey?) && c.MoveDue? && c.k != k
    ensures Moved(db, Do(db, c), k, 0, t)
  {
    MoveEffect(db, c.k, c.dest, c.now, 100);
    assert db.Ranks(k)[0..] == db.Ranks(k);
  }

  lemma MovedTwice(before: Db, mid: Db, after: Db, k: Key, m: nat, n: nat, t: int)
    requires (k.RetryKey? || k.DelayedKey?) && Moved(before, mid, k, m, t) && Moved(mid, after, k, n, t)
    ensures Moved(before, after, k, m + n, t)
  {
    var dest := QueueKey(k.name);
    ArrivedTwice(before.Ranks(k), mid.Ranks(k), m, n, t, mid.List(dest), after.List(dest));
  }

  /** The first m of z are due and on the list. */
  ghost predicate Arrived(z: ZSet, m: nat, t: int, l: seq<Id>)
    requires m <= |z|
  {
    forall i :: 0 <= i < m ==> z[i].score <= t && z[i].id in l
  }

  lemma ArrivedTwice(z: ZSet, y: ZSet, m: nat, n: nat, t: int, a: seq<Id>, b: seq<Id>)
    requires m + n <= |z| && y == z[m..] && a <= b && Arrived(z, m, t, a) && Arrived(y, n, t, b)
    ensures Arrived(z, m + n, t, b) && y[n..] == z[m + n..]
  {
    forall i | 0 <= i < m + n ensures z[i].score <= t && z[i].id in b {
      if i >= m { assert y[i - m] == z[i]; }
    }
  }

  /** Moved, and if some command moves from k, then at least as many as one batch takes. */
  ghost predicate Took(before: Db, after: Db, commands: seq<Command>, k: Key, m: nat, t: int)
    requires k.RetryKey? || k.DelayedKey?
  {
    && Moved(before, after, k, m, t)
    && if exists c :: c in commands && MovesFrom(c, k) then m >= BatchCount(before.Ranks(k), t, 100) else m == 0
  }

  lemma TookFirst(before: Db, mid: Db, after: Db, c: Command, rest: seq<Command>, k: Key, n: nat, later: nat, t: int)
    requires (k.RetryKey? || k.DelayedKey?) && Moved(before, mid, k, n, t) && Took(mid, after, rest, k, later, t)
    requires n == if MovesFrom(c, k) then BatchCount(before.Ranks(k), t, 100) else 0
    ensures Took(before, after, [c] + rest, k, n + later, t)
  {
    MovedTwice(before, mid, after, k, n, later, t);
    var all := [c] + rest;
    assert forall d :: d in all <==> d == c || d in rest;
    assert n == 0 ==> mid.Ranks(k) == before.Ranks(k);
  }

  lemma MovesSplit(c: Command, rest: seq<Command>, k: Key, t: int)
    requires Moves([c] + rest, k, t)
    ensures Moves([c], k, t) && Moves(rest, k, t)
  {
    var all := [c] + rest;
    assert all[0] == c;
    forall i | 0 <= i < |rest| ensures rest[i] == all[i + 1] {
    }
  }

  /** A tick's commands move a prefix of each set, of at least 100 if so many are due. */
  lemma {:induction false} MovesTake(db: Db, commands: seq<Command>, k: Key, t: int) returns (m: nat)
    requires (k.RetryKey? || k.DelayedKey?) && Moves(commands, k, t)
    ensures Took(db, Apply(db, commands), commands, k, m, t)
    decreases |commands|
  {
    if commands == [] {
      m := 0;
      assert db.Ranks(k)[0..] == db.Ranks(k);
    } else {
      var c, rest := commands[0], commands[1..];
      assert commands == [c] + rest;
      MovesSplit(c, rest, k, t);
      var n := OneMove(db, c, k, t);
      var later := MovesTake(Do(db, c), rest, k, t);
      TookFirst(db, Do(db, c), Apply(db, commands), c, rest, k, n, later, t);
      m := n + later;
    }
  }

  /**
   * Of the entries of k those that are due at t, as far as they are among the first 100, go to the
   * queue, and those that are not due stay.
   */
  ghost predicate Promotes(before: Db, after: Db, k: Key, t: int)
    requires k.RetryKey? || k.DelayedKey?
  {
    var z := before.Ranks(k);
    && (forall i :: 0 <= i < |z| && z[i].score > t ==> z[i] in after.Ranks(k))
    && (forall i :: 0 <= i < |z| && i < 100 && z[i].score <= t ==> z[i] !in after.Ranks(k) && z[i].id in after.List(QueueKey(k.name)))
  }

  lemma MovedPromotes(before: Db, after: Db, k: Key, m: nat, t: int)
    requires (k.RetryKey? || k.DelayedKey?) && Valid(before.Ranks(k)) && Moved(before, after, k, m, t)
    requires m >= BatchCount(before.Ranks(k), t, 100)
    ensures Promotes(before, after, k, t)
  {
    var z := before.Ranks(k);
    forall i | 0 <= i < |z| && z[i].score > t ensures z[i] in after.Ranks(k) {
      assert z[m..][i - m] == z[i];
    }
    forall i | 0 <= i < |z| && i < 100 && z[i].score <= t ensures z[i] !in after.Ranks(k) && z[i].id in after.List(QueueKey(k.name)) {
      DueExactly(z, t, i);
      forall f | f in z[m..] ensures f != z[i] {
        var j :| 0 <= j < |z[m..]| && z[m..][j] == f;
        assert z[m + j].id != z[i].id;
      }
    }
  }

  /** What tick number n does to the retry and delayed sets of the queues. */
  ghost predicate TickPromotes(before: Db, after: Db, queues: seq<string>, n: nat, clocks: Clocks) {
    forall q :: q in queues ==>
      && Promotes(before, after, RetryKey(q), clocks.retry)
      && if n % 5 == 0 then Promotes(before, after, DelayedKey(q), clocks.delayed)
         else after.Ranks(DelayedKey(q)) == before.Ranks(DelayedKey(q))
  }

  lemma TickMoves(queues: seq<string>, n: nat, clocks: Clocks, k: Key)
    requires k.RetryKey? || k.DelayedKey?
    ensures Moves(TickCommands(queues, n, clocks.retry, clocks.delayed), k, ClockFor(clocks, k))
  {
  }

  lemma TickMovesFrom(queues: seq<string>, n: nat, clocks: Clocks, k: Key)
    requires k.RetryKey? || k.DelayedKey?
    ensures (exists c :: c in TickCommands(queues, n, clocks.retry, clocks.delayed) && MovesFrom(c, k)) <==> k.name in queues && Looks(n, k)
  {
    var all := TickCommands(queues, n, clocks.retry, clocks.delayed);
    if k.name in queues && Looks(n, k) {
      var i :| 0 <= i < |queues| && queues[i] == k.name;
      assert MovesFrom(all[if k.RetryKey? then i else |queues| + i], k);
    }
    if c :| c in all && MovesFrom(c, k) {
      var i :| 0 <= i < |all| && all[i] == c;
      assert k.name == queues[if i < |queues| then i else i - |queues|];
    }
  }

  lemma TickDoes(before: Db, queues: seq<string>, n: nat, clocks: Clocks)
    requires RanksValid(before)
    ensures TickPromotes(before, Apply(before, TickCommands(queues, n, clocks.retry, clocks.delayed)), queues, n, clocks)
  {
    var all := TickCommands(queues, n, clocks.retry, clocks.delayed);
    forall q | q in queues
      ensures Promotes(before, Apply(before, all), RetryKey(q), clocks.retry)
      ensures if n % 5 == 0 then Promotes(before, Apply(before, all), DelayedKey(q), clocks.delayed)
              else Apply(before, all).Ranks(DelayedKey(q)) == before.Ranks(DelayedKey(q))
    {
      TickMoves(queues, n, clocks, RetryKey(q));
      TickMovesFrom(queues, n, clocks, RetryKey(q));
      var m := MovesTake(before, all, RetryKey(q), clocks.retry);
      MovedPromotes(before, Apply(before, all), RetryKey(q), m, clocks.retry);
      TickMoves(queues, n, clocks, DelayedKey(q));
      TickMovesFrom(queues, n, clocks, DelayedKey(q));
      var d := MovesTake(before, all, DelayedKey(q), clocks.delayed);
      if n % 5 == 0 { MovedPromotes(before, Apply(before, all), DelayedKey(q), d, clocks.delayed); }
    }
  }

  /** One more command. */
  lemma ApplyNext(db: Db, commands: seq<Command>, i: nat)
    requires i < |commands|
    ensures Apply(db, commands[..i + 1]) == Do(Apply(db, commands[..i]), commands[i])
  {
    assert commands[..i + 1] == commands[..i] + [commands[i]];
    ApplyMore(db, commands[..i], [commands[i]]);
    var mid := Apply(db, commands[..i]);
    assert [commands[i]][1..] == [];
    assert Apply(Do(mid, commands[i]), []) == Do(mid, commands[i]);
  }

  class Scheduler {
    const redis: Server
    const queues: seq<string>
    var tickCount: nat

    constructor (redis: Server, queues: seq<string>)
      ensures this.redis == redis && this.queues == queues && tickCount == 0
    {
      this.redis, this.queues, tickCount := redis, queues, 0;
    }

    method CheckRetryTasks(now: int)
      requires RanksValid(redis.Snapshot())
      modifies redis
      ensures redis.Snapshot() == Apply(old(redis.Snapshot()), RetryCommands(queues, now)) && RanksValid(redis.Snapshot())
    {
      ghost var all := RetryCommands(queues, now);
      ghost var before := redis.Snapshot();
      for i := 0 to |queues|
        invariant redis.Snapshot() == Apply(before, all[..i]) && RanksValid(redis.Snapshot())
      {
        ApplyNext(before, all, i);
        RanksStayValid(redis.Snapshot(), all[i]);
        var count := redis.MoveExpired(RetryKey(queues[i]), QueueKey(queues[i]), now, BATCH_SIZE);
      }
      assert all[..|queues|] == all;
    }

    method CheckDelayedTasks(now: int)
      requires RanksValid(redis.Snapshot())
      modifies redis
      ensures redis.Snapshot() == Apply(old(redis.Snapshot()), DelayedCommands(queues, now)) && RanksValid(redis.Snapshot())
    {
      ghost var all := DelayedCommands(queues, now);
      ghost var before := redis.Snapshot();
      for i := 0 to |queues|
        invariant redis.Snapshot() == Apply(before, all[..i]) && RanksValid(redis.Snapshot())
      {
        ApplyNext(before, all, i);
        RanksStayValid(redis.Snapshot(), all[i]);
        var count := redis.MoveExpired(DelayedKey(queues[i]), QueueKey(queues[i]), now, BATCH_SIZE);
      }
      assert all[..|queues|] == all;
    }

    /** One round of the scheduler's loop. */
    method Tick(clocks: Clocks)
      requires RanksValid(redis.Snapshot())
      modifies redis, this`tickCount
      ensures tickCount == old(tickCount) + 1 && RanksValid(redis.Snapshot())
      ensures redis.Snapshot() == Apply(old(redis.Snapshot()), TickCommands(queues, tickCount, clocks.retry, clocks.delayed))
      ensures TickPromotes(old(redis.Snapshot()), redis.Snapshot(), queues, tickCount, clocks)
    {
      ghost var before := redis.Snapshot();
      TickDoes(before, queues, tickCount + 1, clocks);
      tickCount := tickCount + 1;
      CheckRetryTasks(clocks.retry);
      if tickCount % 5 == 0 {
        CheckDelayedTasks(clocks.delayed);
        ApplyMore(before, RetryCommands(queues, clocks.retry), DelayedCommands(queues, clocks.delayed));
      } else {
        assert TickCommands(queues, tickCount, clocks.retry, clocks.delayed) == RetryCommands(queues, clocks.retry);
      }
    }

    /** The scheduler's loop until it is shut down, after as many ticks as there are clock readings. */
    method Run(clocks: seq<Clocks>)
      requires RanksValid(redis.Snapshot())
      modifies redis, this`tickCount
      ensures tickCount == old(tickCount) + |clocks| && RanksValid(redis.Snapshot())
      ensures redis.Snapshot() == Apply(old(redis.Snapshot()), RunCommands(queues, old(tickCount) + 1, clocks))
    {
      ghost var before := redis.Snapshot();
      ghost var all := RunCommands(queues, tickCount + 1, clocks);
      var i := 0;
      assert clocks[0..] == clocks;
      while i < |clocks|
        invariant i <= |clocks| && tickCount == old(tickCount) + i && RanksValid(redis.Snapshot())
        invariant Apply(redis.Snapshot(), RunCommands(queues, tickCount + 1, clocks[i..])) == Apply(before, all)
      {
        ghost var now := TickCommands(queues, tickCount + 1, clocks[i].retry, clocks[i].delayed);
        ghost var later := RunCommands(queues, tickCount + 2, clocks[i + 1..]);
        assert clocks[i..][1..] == clocks[i + 1..];
        ApplyMore(redis.Snapshot(), now, later);
        Tick(clocks[i]);
        i := i + 1;
      }
      assert clocks[i..] == [];
    }
  }

  // ---- the program keeps the schedule ----

  /**
   * The commands of a tick are exactly the moves, at the time that the tick read, from the sets
   * that the schedule looks at.
   */
  lemma TickLooks(queues: seq<string>, n: nat, clocks: Clocks, q: string, k: Key, t: int)
    requires k == RetryKey(q) || k == DelayedKey(q)
    ensures MoveDue(k, QueueKey(q), t) in TickCommands(queues, n, clocks.retry, clocks.delayed) <==>
            q in queues && Looks(n, k) && t == ClockFor(clocks, k)
  {
    var all := TickCommands(queues, n, clocks.retry, clocks.delayed);
    TickMoves(queues, n, clocks, k);
    TickMovesFrom(queues, n, clocks, k);
    if q in queues && Looks(n, k) {
      var c :| c in all && MovesFrom(c, k);
      var i :| 0 <= i < |all| && all[i] == c;
      assert c == MoveDue(k, QueueKey(q), ClockFor(clocks, k));
    }
  }

  /** The command of a step of the scheduler. */
  function TickCommand(step: Step): seq<Command> {
    match step
    case RetryTick(q, now) => [MoveDue(RetryKey(q), QueueKey(q), now)]
    case DelayedTick(q, now) => [MoveDue(DelayedKey(q), QueueKey(q), now)]
    case _ => []
  }

  /** What the scheduler issues in steps i to n, whatever others do in between. */
  function Issued(steps: seq<Step>, i: nat, n: nat): seq<Command>
    requires i <= n <= |steps|
    decreases n - i
  {
    if i == n then [] else TickCommand(steps[i]) + Issued(steps, i + 1, n)
  }

  /** The moment at which it has issued a. */
  lemma {:induction false} IssuedUpTo(steps: seq<Step>, i: nat, n: nat, a: seq<Command>) returns (m: nat)
    requires i <= n <= |steps| && a <= Issued(steps, i, n)
    ensures i <= m <= n && Issued(steps, i, m) == a && Issued(steps, i, n) == a + Issued(steps, m, n)
    decreases n - i
  {
    if a == [] {
      m := i;
    } else {
      var now := TickCommand(steps[i]);
      var a' := a[|now|..];
      assert a' <= Issued(steps, i + 1, n);
      m := IssuedUpTo(steps, i + 1, n, a');
      assert a == now + a';
    }
  }

  /** In steps i to n, k is looked at, and always at time t. */
  ghost predicate TicksAt(steps: seq<Step>, i: nat, n: nat, k: Key, t: int) {
    && TicksWithin(steps, i, n, k)
    && TimesAre(steps, i, n, k, t)
  }

  ghost predicate TimesAre(steps: seq<Step>, i: nat, n: nat, k: Key, t: int) {
    forall j :: i <= j < n && j < |steps| && IsTick(steps[j], k) ==> steps[j].now == t
  }

  /** The commands move from k at time t alone. */
  ghost predicate OnlyAt(commands: seq<Command>, q: string, k: Key, t: int) {
    forall now :: MoveDue(k, QueueKey(q), now) in commands ==> now == t
  }

  lemma OnlyAtBoth(a: seq<Command>, b: seq<Command>, q: string, k: Key, t: int)
    requires OnlyAt(a + b, q, k, t)
    ensures OnlyAt(a, q, k, t) && OnlyAt(b, q, k, t)
    ensures forall c :: c in a + b <==> c in a || c in b
  {
    assert forall c :: c in a || c in b ==> c in a + b;
  }

  lemma FirstIssued(step: Step, q: string, k: Key, t: int)
    requires k == RetryKey(q) || k == DelayedKey(q)
    ensures IsTick(step, k) ==> MoveDue(k, QueueKey(q), step.now) in TickCommand(step)
    ensures MoveDue(k, QueueKey(q), t) in TickCommand(step) ==> IsTick(step, k)
  {
  }

  lemma {:induction false} IssuedTimes(steps: seq<Step>, i: nat, n: nat, q: string, k: Key, t: int)
    requires (k == RetryKey(q) || k == DelayedKey(q)) && i <= n <= |steps|
    requires OnlyAt(Issued(steps, i, n), q, k, t)
    ensures TimesAre(steps, i, n, k, t)
    ensures MoveDue(k, QueueKey(q), t) in Issued(steps, i, n) ==> TicksWithin(steps, i, n, k)
    decreases n - i
  {
    if i < n {
      OnlyAtBoth(TickCommand(steps[i]), Issued(steps, i + 1, n), q, k, t);
      IssuedTimes(steps, i + 1, n, q, k, t);
      FirstIssued(steps[i], q, k, t);
    }
  }

  /** Every served set is looked at as scheduled, and at the times that the ticks read. */
  ghost predicate KeepsSchedule(queues: seq<string>, steps: seq<Step>, starts: seq<nat>, first: nat, clocks: seq<Clocks>) {
    && |starts| == |clocks| + 1
    && forall q :: q in queues ==>
         && KeepsTimes(steps, starts, first, clocks, RetryKey(q)) && Scheduled(steps, starts, first, RetryKey(q))
         && KeepsTimes(steps, starts, first, clocks, DelayedKey(q)) && Scheduled(steps, starts, first, DelayedKey(q))
  }

  ghost predicate KeepsTimes(steps: seq<Step>, starts: seq<nat>, first: nat, clocks: seq<Clocks>, k: Key)
    requires |starts| == |clocks| + 1
  {
    forall j :: 0 <= j < |clocks| ==>
      && TimesAre(steps, starts[j], starts[j + 1], k, ClockFor(clocks[j], k))
      && (Looks(first + j, k) ==> TicksAt(steps, starts[j], starts[j + 1], k, ClockFor(clocks[j], k)))
  }

  /** One tick before the others. */
  lemma OneTickFirst(queues: seq<string>, steps: seq<Step>, i: nat, starts: seq<nat>, first: nat, now: Clocks, clocks: seq<Clocks>)
    requires KeepsSchedule(queues, steps, starts, first + 1, clocks) && i <= starts[0] <= |steps|
    requires Issued(steps, i, starts[0]) == TickCommands(queues, first, now.retry, now.delayed)
    ensures KeepsSchedule(queues, steps, [i] + starts, first, [now] + clocks)
  {
    forall q | q in queues
      ensures KeepsTimes(steps, [i] + starts, first, [now] + clocks, RetryKey(q)) && Scheduled(steps, [i] + starts, first, RetryKey(q))
    {
      OneSetFirst(queues, steps, i, starts, first, now, clocks, q, RetryKey(q));
    }
    forall q | q in queues
      ensures KeepsTimes(steps, [i] + starts, first, [now] + clocks, DelayedKey(q)) && Scheduled(steps, [i] + starts, first, DelayedKey(q))
    {
      OneSetFirst(queues, steps, i, starts, first, now, clocks, q, DelayedKey(q));
    }
  }

  lemma OneSetFirst(queues: seq<string>, steps: seq<Step>, i: nat, starts: seq<nat>, first: nat, now: Clocks, clocks: seq<Clocks>, q: string, k: Key)
    requires q in queues && (k == RetryKey(q) || k == DelayedKey(q)) && |starts| == |clocks| + 1
    requires KeepsTimes(steps, starts, first + 1, clocks, k) && Scheduled(steps, starts, first + 1, k) && i <= starts[0] <= |steps|
    requires Issued(steps, i, starts[0]) == TickCommands(queues, first, now.retry, now.delayed)
    ensures KeepsTimes(steps, [i] + starts, first, [now] + clocks, k) && Scheduled(steps, [i] + starts, first, k)
  {
    forall t ensures MoveDue(k, QueueKey(q), t) in Issued(steps, i, starts[0]) <==> Looks(first, k) && t == ClockFor(now, k) {
      TickLooks(queues, first, now, q, k, t);
    }
    IssuedTimes(steps, i, starts[0], q, k, ClockFor(now, k));
    ScheduledEarlier(steps, i, starts, first, k);
    TimesEarlier(steps, i, starts, first, now, clocks, k);
  }

  lemma TimesEarlier(steps: seq<Step>, i: nat, starts: seq<nat>, first: nat, now: Clocks, clocks: seq<Clocks>, k: Key)
    requires |starts| == |clocks| + 1 && KeepsTimes(steps, starts, first + 1, clocks, k)
    requires TimesAre(steps, i, starts[0], k, ClockFor(now, k)) && (Looks(first, k) ==> TicksWithin(steps, i, starts[0], k))
    ensures KeepsTimes(steps, [i] + starts, first, [now] + clocks, k)
  {
    var all, times := [i] + starts, [now] + clocks;
    forall j | 0 <= j < |times|
      ensures TimesAre(steps, all[j], all[j + 1], k, ClockFor(times[j], k))
      ensures Looks(first + j, k) ==> TicksAt(steps, all[j], all[j + 1], k, ClockFor(times[j], k))
    {
      if j > 0 {
        assert times[j] == clocks[j - 1] && all[j] == starts[j - 1] && all[j + 1] == starts[j - 1 + 1];
        assert first + j == first + 1 + (j - 1);
      }
    }
  }

  lemma ScheduledEarlier(steps: seq<Step>, i: nat, starts: seq<nat>, first: nat, k: Key)
    requires Scheduled(steps, starts, first + 1, k) && i <= starts[0]
    requires Looks(first, k) ==> TicksWithin(steps, i, starts[0], k)
    ensures Scheduled(steps, [i] + starts, first, k)
  {
    var all := [i] + starts;
    forall j | 0 <= j < |all| - 1
      ensures all[j] <= all[j + 1] && (Looks(first + j, k) ==> TicksWithin(steps, all[j], all[j + 1], k))
    {
      if j > 0 {
        assert all[j] == starts[j - 1] && all[j + 1] == starts[j - 1 + 1] && first + j == first + 1 + (j - 1);
      }
    }
  }

  lemma SameStart(a: seq<Command>, x: seq<Command>, y: seq<Command>)
    requires a + x <= a + y
    ensures x <= y
  {
    assert x == (a + x)[|a|..] && y == (a + y)[|a|..];
  }

  lemma {:induction false} IssuedJoin(steps: seq<Step>, i: nat, m: nat, n: nat)
    requires i <= m <= n <= |steps|
    ensures Issued(steps, i, n) == Issued(steps, i, m) + Issued(steps, m, n)
    decreases m - i
  {
    if i < m { IssuedJoin(steps, i + 1, m, n); }
  }

  lemma {:induction false} ScheduleFrom(queues: seq<string>, steps: seq<Step>, i: nat, first: nat, clocks: seq<Clocks>) returns (starts: seq<nat>)
    requires i <= |steps| && RunCommands(queues, first, clocks) <= Issued(steps, i, |steps|)
    ensures KeepsSchedule(queues, steps, starts, first, clocks) && starts[0] == i <= starts[|clocks|] <= |steps|
    ensures Issued(steps, i, starts[|clocks|]) == RunCommands(queues, first, clocks)
    decreases |clocks|
  {
    if clocks == [] {
      starts := [i];
    } else {
      var now := TickCommands(queues, first, clocks[0].retry, clocks[0].delayed);
      var rest := RunCommands(queues, first + 1, clocks[1..]);
      assert RunCommands(queues, first, clocks) == now + rest;
      assert now <= Issued(steps, i, |steps|);
      var m := IssuedUpTo(steps, i, |steps|, now);
      SameStart(now, rest, Issued(steps, m, |steps|));
      var later := ScheduleFrom(queues, steps, m, first + 1, clocks[1..]);
      starts := [i] + later;
      assert clocks == [clocks[0]] + clocks[1..];
      OneTickFirst(queues, steps, i, later, first, clocks[0], clocks[1..]);
      IssuedJoin(steps, i, m, later[|later| - 1]);
    }
  }

  /**
   * Main result: the scheduler's program keeps the schedule that the lateness results are about.
   * Whenever the scheduler's steps of a run begin with what Run issues - whatever clients, workers
   * and other parts of the system do in between - the ticks begin at steps between which every
   * served set is looked at as scheduled, at the times that these ticks read from the clock.
   */
  lemma LoopKeepsSchedule(queues: seq<string>, steps: seq<Step>, first: nat, clocks: seq<Clocks>)
    requires RunCommands(queues, first, clocks) <= Issued(steps, 0, |steps|)
    ensures exists starts: seq<nat> :: KeepsSchedule(queues, steps, starts, first, clocks) && starts[0] == 0
  {
    var starts := ScheduleFrom(queues, steps, 0, first, clocks);
  }

  // ---- lateness in terms of the program ----

  /** All ticks of k between the first and the last start read a time of at least t. */
  lemma {:induction false} TimesReached(steps: seq<Step>, starts: seq<nat>, first: nat, clocks: seq<Clocks>, k: Key, t: int, m: nat, j: nat)
    requires |starts| == |clocks| + 1 && KeepsTimes(steps, starts, first, clocks, k) && m <= |clocks|
    requires forall i :: 0 <= i < |clocks| ==> t <= ClockFor(clocks[i], k)
    requires starts[0] <= j < starts[m] && j < |steps| && IsTick(steps[j], k)
    ensures t <= steps[j].now
  {
    if j >= starts[m - 1] {
      assert TimesAre(steps, starts[m - 1], starts[m - 1 + 1], k, ClockFor(clocks[m - 1], k));
    } else {
      TimesReached(steps, starts, first, clocks, k, t, m - 1, j);
    }
  }

  /** From step i on nobody overtakes e in k. */
  ghost predicate NobodyOvertakes(cfg: Config, run: seq<State>, steps: seq<Step>, i: nat, k: Key, e: Entry)
    requires |steps| < |run|
  {
    forall j :: i <= j < |steps| ==> Behind(cfg, run[j], steps[j], k, e)
  }

  /**
   * Main result: let tick number `first` of the scheduler's program begin at step i, when e has r
   * entries ahead in a retry set that the scheduler serves, and let it be due by all clock readings
   * of that tick and the r / 100 after it. If nobody overtakes it, it is on its queue when the
   * program has issued these ticks, whatever others do in between.
   */
  lemma RetriedInTime(cfg: Config, run: seq<State>, steps: seq<Step>, i: nat, queues: seq<string>, first: nat, clocks: seq<Clocks>,
                      q: string, e: Entry, r: nat) returns (n: nat)
    requires IsRun(cfg, run, steps) && i <= |steps| && q in queues && |clocks| == r / 100 + 1
    requires RunCommands(queues, first, clocks) <= Issued(steps, i, |steps|)
    requires Within(run[i].db.Ranks(RetryKey(q)), e, r) && NobodyOvertakes(cfg, run, steps, i, RetryKey(q), e)
    requires forall j :: 0 <= j < |clocks| ==> e.score <= clocks[j].retry
    ensures i <= n <= |steps| && Issued(steps, i, n) == RunCommands(queues, first, clocks)
    ensures MovedIn(cfg, run, steps, i, n, RetryKey(q), e)
  {
    var starts := ScheduleFrom(queues, steps, i, first, clocks);
    n := starts[|clocks|];
    DueInTime(cfg, run, steps, starts, first, clocks, RetryKey(q), e);
    RetryLateness(cfg, run, steps, starts, first, q, e, r);
  }

  /** The same for a delayed set, with 5 * (r / 100) + 5 ticks. */
  lemma ReleasedInTime(cfg: Config, run: seq<State>, steps: seq<Step>, i: nat, queues: seq<string>, first: nat, clocks: seq<Clocks>,
                       q: string, e: Entry, r: nat) returns (n: nat)
    requires IsRun(cfg, run, steps) && i <= |steps| && q in queues && |clocks| == 5 * (r / 100) + 5
    requires RunCommands(queues, first, clocks) <= Issued(steps, i, |steps|)
    requires Within(run[i].db.Ranks(DelayedKey(q)), e, r) && NobodyOvertakes(cfg, run, steps, i, DelayedKey(q), e)
    requires forall j :: 0 <= j < |clocks| ==> e.score <= clocks[j].delayed
    ensures i <= n <= |steps| && Issued(steps, i, n) == RunCommands(queues, first, clocks)
    ensures MovedIn(cfg, run, steps, i, n, DelayedKey(q), e)
  {
    var starts := ScheduleFrom(queues, steps, i, first, clocks);
    n := starts[|clocks|];
    DueInTime(cfg, run, steps, starts, first, clocks, DelayedKey(q), e);
    DelayedLateness(cfg, run, steps, starts, first, q, e, r);
  }

  lemma DueInTime(cfg: Config, run: seq<State>, steps: seq<Step>, starts: seq<nat>, first: nat, clocks: seq<Clocks>, k: Key, e: Entry)
    requires |steps| < |run| && |starts| == |clocks| + 1 && starts[0] <= starts[|clocks|] <= |steps|
    requires KeepsTimes(steps, starts, first, clocks, k) && NobodyOvertakes(cfg, run, steps, starts[0], k, e)
    requires forall j :: 0 <= j < |clocks| ==> e.score <= ClockFor(clocks[j], k)
    ensures DueThroughout(cfg, run, steps, starts[0], starts[|clocks|], k, e)
  {
    forall j | starts[0] <= j < starts[|clocks|] ensures Behind(cfg, run[j], steps[j], k, e) && (IsTick(steps[j], k) ==> e.score <= steps[j].now) {
      if IsTick(steps[j], k) { TimesReached(steps, starts, first, clocks, k, e.score, |clocks|, j); }
    }
  }
}
