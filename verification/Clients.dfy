/** The client's program: submitting tasks, pausing and resuming queues. */
module Clients {
  import opened Basics
  import opened Keys
  import opened SortedSets
  import opened Tasks
  import opened Store
  import opened Commands
  import opened Protocol
  import opened Redis
  import opened Uninterrupted

  /** The ranges of Rust's u64 and i64. */
  const U64_LIMIT := 0x1_0000_0000_0000_0000
  const I64_MAX := 0x7FFF_FFFF_FFFF_FFFF

  /** A configuration in which t is submitted with enqueue, or with enqueue_delayed. */
  function Submitting(t: Task, delayed: bool): Config {
    Config(map[t.id := t], {t.queue}, if delayed then {t.id} else {}, {}, false)
  }

  /** How far a client is from the end of its call. */
  function ToDo(t: Task, c: Client): nat {
    var n := |t.dependsOn|;
    match c
    case Fresh => 2 * n + 4
    case AddingPending(i) => if i <= n then 2 * n - i + 2 else n + 2
    case AddingDependents(i) => if i <= n then n - i + 1 else 1
    case CheckingKey => 2
    case Routing => 1
    case Delaying => 1
    case Accepted => 0
    case Rejected => 0
  }

  /** What the protocol does when the client takes all its steps in a row. */
  function AloneClient(cfg: Config, db: Db, t: Task, c: Client, now: int): (Db, Client)
    decreases ToDo(t, c)
  {
    if c.Accepted? || c.Rejected? then (db, c)
    else AloneClient(cfg, Do(db, ClientCommand(t, c, now)), t, ClientNext(cfg, db, t, c), now)
  }

  lemma ClientAloneStep(cfg: Config, db: Db, t: Task, c: Client, now: int)
    requires !c.Accepted? && !c.Rejected?
    ensures AloneClient(cfg, db, t, c, now) == AloneClient(cfg, Do(db, ClientCommand(t, c, now)), t, ClientNext(cfg, db, t, c), now)
  {
  }

  /** The steps of client id alone, up to the end of its call. */
  function ClientPath(cfg: Config, db: Db, t: Task, c: Client, now: int): seq<Step>
    decreases ToDo(t, c)
  {
    if c.Accepted? || c.Rejected? then []
    else [ClientStep(t.id, now)] + ClientPath(cfg, Do(db, ClientCommand(t, c, now)), t, ClientNext(cfg, db, t, c), now)
  }

  /** Taken in a row, the steps of one client of the protocol lead to AloneClient. */
  lemma {:induction false} AloneClientIsRun(cfg: Config, s: State, t: Task, now: int)
    requires t.id in s.clients && t.id in cfg.tasks && cfg.tasks[t.id] == t
    ensures var path := ClientPath(cfg, s.db, t, s.clients[t.id], now);
            var (db, c) := AloneClient(cfg, s.db, t, s.clients[t.id], now);
            Playable(cfg, s, path) && Play(cfg, s, path) == State(db, s.clients[t.id := c], s.workers)
    decreases ToDo(t, s.clients[t.id])
  {
    var c := s.clients[t.id];
    if c.Accepted? || c.Rejected? {
      assert s.clients[t.id := c] == s.clients;
    } else {
      var s' := After(cfg, s, ClientStep(t.id, now));
      AloneClientIsRun(cfg, s', t, now);
      var path := ClientPath(cfg, s.db, t, c, now);
      assert path[1..] == ClientPath(cfg, s'.db, t, s'.clients[t.id], now);
      var (db, end) := AloneClient(cfg, s.db, t, c, now);
      assert s'.clients[t.id := end] == s.clients[t.id := end];
    }
  }

  // ---- what a submission does to the store ----

  /** All dependencies of the task are pending for it, and each of them lists it; the other sets, and all else, are as they were. */
  ghost predicate Linked(before: Db, after: Db, id: Id, deps: seq<Id>) {
    && after.lists == before.lists && after.zsets == before.zsets && after.tasks == before.tasks && after.flags == before.flags
    && forall k :: after.Members(k) ==
         if k == PendingDepsKey(id) then before.Members(k) + (set x | x in deps)
         else if k.TaskDepsKey? && k.name in deps then before.Members(k) + {id}
         else before.Members(k)
  }

  predicate Taken(db: Db, t: Task) {
    t.uniqueKey.Some? && t.uniqueKey.value in db.Members(DedupKey(t.queue))
  }

  /** The unique key is added to those of the queue; the other sets are as they were. */
  ghost predicate Keyed(before: Db, after: Db, t: Task) {
    forall k :: after.Members(k) ==
      if t.uniqueKey.Some? && k == DedupKey(t.queue) then before.Members(k) + {t.uniqueKey.value} else before.Members(k)
  }

  /**
   * t is in its group's set with the time, else in the priority queue with its priority, else -
   * at priority 50 - last on its queue; nothing else is anywhere else.
   */
  ghost predicate Placed(before: Db, after: Db, t: Task, now: int) {
    if t.group.Some? || t.priority != 50 then
      var (k, score) := if t.group.Some? then (GroupKey(t.group.value), now) else (PriorityKey(t.queue), t.priority);
      after.lists == before.lists && after.zsets == before.zsets[k := SortedSets.ZAdd(before.Ranks(k), t.id, score)]
    else
      after.zsets == before.zsets && after.lists == before.lists[QueueKey(t.queue) := before.List(QueueKey(t.queue)) + [t.id]]
  }

  /**
   * The effect of enqueue: the record is stored in any case. With dependencies the task is linked
   * and put nowhere. Without, it is refused exactly if its unique key is taken, and otherwise
   * placed.
   */
  ghost predicate Enqueues(before: Db, t: Task, now: int, accepted: bool, after: Db) {
    && after.tasks == before.tasks[t.id := Record(t, t.queue)] && after.flags == before.flags
    && (accepted <==> t.dependsOn != [] || !Taken(before, t))
    && if t.dependsOn != [] then Linked(before.HSet(t.id, Record(t, t.queue)), after, t.id, t.dependsOn)
       else if accepted then Keyed(before, after, t) && Placed(before, after, t, now)
       else after.lists == before.lists && after.zsets == before.zsets && after.sets == before.sets
  }

  /** The effect of enqueue_delayed: the record and an entry in the queue's delayed set, for the time. */
  ghost predicate Delays(before: Db, t: Task, executeAt: int, after: Db) {
    var k := DelayedKey(t.queue);
    && after.tasks == before.tasks[t.id := Record(t, t.queue)]
    && after.zsets == before.zsets[k := SortedSets.ZAdd(before.Ranks(k), t.id, executeAt)]
    && after.lists == before.lists && after.sets == before.sets && after.flags == before.flags
  }

  /** One step of the second loop. */
  lemma LinkStep(cfg: Config, db: Db, t: Task, i: nat, now: int)
    requires i <= |t.dependsOn|
    ensures AloneClient(cfg, db, t, AddingDependents(i), now) ==
      if i < |t.dependsOn| then AloneClient(cfg, db.SAdd(TaskDepsKey(t.dependsOn[i]), t.id), t, AddingDependents(i + 1), now)
      else (db, Accepted)
  {
    ClientAloneStep(cfg, db, t, AddingDependents(i), now);
  }

  lemma {:induction false} DependentsLinked(cfg: Config, db: Db, t: Task, i: nat, now: int)
    requires i <= |t.dependsOn|
    ensures var (after, c) := AloneClient(cfg, db, t, AddingDependents(i), now);
            && c == Accepted && after.lists == db.lists && after.zsets == db.zsets && after.flags == db.flags && after.tasks == db.tasks
            && Listing(db, after, t.id, t.dependsOn[i..])
    decreases |t.dependsOn| - i
  {
    LinkStep(cfg, db, t, i, now);
    if i < |t.dependsOn| {
      var more := db.SAdd(TaskDepsKey(t.dependsOn[i]), t.id);
      DependentsLinked(cfg, more, t, i + 1, now);
      var after := AloneClient(cfg, more, t, AddingDependents(i + 1), now).0;
      ListingOneMore(db, more, after, t.id, t.dependsOn[i], t.dependsOn[i + 1..]);
      assert t.dependsOn[i..] == [t.dependsOn[i]] + t.dependsOn[i + 1..];
    }
  }

  /** The dependencies list the task; the other sets are as they were. */
  ghost predicate Listing(before: Db, after: Db, id: Id, deps: seq<Id>) {
    forall k :: after.Members(k) == if k.TaskDepsKey? && k.name in deps then before.Members(k) + {id} else before.Members(k)
  }

  lemma ListingOneMore(db: Db, more: Db, after: Db, id: Id, x: Id, rest: seq<Id>)
    requires more == db.SAdd(TaskDepsKey(x), id) && Listing(more, after, id, rest)
    ensures Listing(db, after, id, [x] + rest)
  {
    forall k ensures after.Members(k) == if k.TaskDepsKey? && k.name in [x] + rest then db.Members(k) + {id} else db.Members(k) {
      assert k.TaskDepsKey? ==> (k.name in [x] + rest <==> k.name == x || k.name in rest);
    }
  }

  lemma {:induction false} PendingLinked(cfg: Config, db: Db, t: Task, i: nat, now: int)
    requires i <= |t.dependsOn|
    ensures var (after, c) := AloneClient(cfg, db, t, AddingPending(i), now);
            && c == Accepted && after.lists == db.lists && after.zsets == db.zsets && after.flags == db.flags && after.tasks == db.tasks
            && (forall k :: after.Members(k) ==
                  if k == PendingDepsKey(t.id) then db.Members(k) + (set x | x in t.dependsOn[i..])
                  else if k.TaskDepsKey? && k.name in t.dependsOn then db.Members(k) + {t.id} else db.Members(k))
            && (i == 0 ==> Linked(db, after, t.id, t.dependsOn))
    decreases |t.dependsOn| - i
  {
    ClientAloneStep(cfg, db, t, AddingPending(i), now);
    if i < |t.dependsOn| {
      assert t.dependsOn[i..] == [t.dependsOn[i]] + t.dependsOn[i + 1..];
      PendingLinked(cfg, db.SAdd(PendingDepsKey(t.id), t.dependsOn[i]), t, i + 1, now);
    } else {
      DependentsLinked(cfg, db, t, 0, now);
      assert t.dependsOn[0..] == t.dependsOn;
    }
  }

  /** Main result: what the client of enqueue does when nobody gets in between. */
  lemma SubmissionEnqueues(db: Db, t: Task, now: int)
    ensures var (after, c) := AloneClient(Submitting(t, false), db, t, Fresh, now);
            (c == Accepted || c == Rejected) && Enqueues(db, t, now, c == Accepted, after)
  {
    var cfg, stored := Submitting(t, false), db.HSet(t.id, Record(t, t.queue));
    ClientAloneStep(cfg, db, t, Fresh, now);
    if t.dependsOn != [] {
      PendingLinked(cfg, stored, t, 0, now);
    } else {
      PlainEnqueues(cfg, db, t, now);
    }
  }

  lemma PlainEnqueues(cfg: Config, db: Db, t: Task, now: int)
    requires t.dependsOn == []
    ensures var (after, c) := AloneClient(cfg, db.HSet(t.id, Record(t, t.queue)), t, if t.uniqueKey.Some? then CheckingKey else Routing, now);
            (c == Accepted || c == Rejected) && Enqueues(db, t, now, c == Accepted, after)
  {
    var stored := db.HSet(t.id, Record(t, t.queue));
    if t.uniqueKey.Some? {
      CheckingEnds(cfg, stored, t, now);
      if !Taken(db, t) { KeyedRoute(cfg, db, stored.SAdd(DedupKey(t.queue), t.uniqueKey.value), t, now); }
    } else {
      KeyedRoute(cfg, db, stored, t, now);
    }
  }

  /** From the deduplication on. */
  lemma KeyedRoute(cfg: Config, db: Db, keyed: Db, t: Task, now: int)
    requires t.dependsOn == [] && !Taken(db, t) && Keyed(db, keyed, t)
    requires keyed.tasks == db.tasks[t.id := Record(t, t.queue)] && keyed.lists == db.lists && keyed.zsets == db.zsets && keyed.flags == db.flags
    ensures AloneClient(cfg, keyed, t, Routing, now).1 == Accepted && Enqueues(db, t, now, true, AloneClient(cfg, keyed, t, Routing, now).0)
  {
    RoutingEnds(cfg, keyed, t, now);
    RoutePlaces(keyed, t, now);
    var after := Do(keyed, RouteCommand(t, now));
    assert forall k :: keyed.List(k) == db.List(k) && keyed.Ranks(k) == db.Ranks(k);
    forall k ensures after.Members(k) == keyed.Members(k) {
    }
  }

  /** Routing changes one list or one sorted set. */
  lemma RoutePlaces(db: Db, t: Task, now: int)
    ensures var after := Do(db, RouteCommand(t, now));
            after.tasks == db.tasks && after.sets == db.sets && after.flags == db.flags && Placed(db, after, t, now)
  {
  }

  /** The same, for the end of the call. */
  lemma Enqueued(db: Db, t: Task, now: int, accepted: bool, after: Db)
    requires (after, if accepted then Accepted else Rejected) == AloneClient(Submitting(t, false), db, t, Fresh, now)
    ensures Enqueues(db, t, now, accepted, after)
  {
    SubmissionEnqueues(db, t, now);
  }

  lemma SubmissionDelays(db: Db, t: Task, executeAt: int)
    ensures var (after, c) := AloneClient(Submitting(t, true), db, t, Fresh, executeAt); c == Accepted && Delays(db, t, executeAt, after)
  {
    var cfg, stored := Submitting(t, true), db.HSet(t.id, Record(t, t.queue));
    ClientAloneStep(cfg, db, t, Fresh, executeAt);
    ClientAloneStep(cfg, stored, t, Delaying, executeAt);
  }

  // ---- the client's program ----

  /** enqueue; false is the error for a duplicate unique key. */
  method Enqueue(redis: Server, t: Task, now: int) returns (accepted: bool)
    modifies redis
    ensures (redis.Snapshot(), if accepted then Accepted else Rejected)
         == AloneClient(Submitting(t, false), old(redis.Snapshot()), t, Fresh, now)
    ensures Enqueues(old(redis.Snapshot()), t, now, accepted, redis.Snapshot())
  {
    ghost var cfg := Submitting(t, false);
    ghost var before := redis.Snapshot();
    ClientAloneStep(cfg, before, t, Fresh, now);
    redis.HSet(t.id, Record(t, t.queue));
    if t.dependsOn != [] {
      Register(redis, t, now);
      Enqueued(before, t, now, true, redis.Snapshot());
      return true;
    }
    if t.uniqueKey.Some? {
      ClientAloneStep(cfg, redis.Snapshot(), t, CheckingKey, now);
      var added := redis.DedupAdd(DedupKey(t.queue), t.uniqueKey.value);
      if !added {
        Enqueued(before, t, now, false, redis.Snapshot());
        return false;
      }
    }
    ClientAloneStep(cfg, redis.Snapshot(), t, Routing, now);
    if t.group.Some? {
      redis.ZAdd(GroupKey(t.group.value), t.id, now);
    } else if t.priority != DEFAULT_PRIORITY {
      redis.ZAdd(PriorityKey(t.queue), t.id, t.priority);
    } else {
      redis.RPush(QueueKey(t.queue), t.id);
    }
    Enqueued(before, t, now, true, redis.Snapshot());
    return true;
  }

  /** First all of pending_deps, then the task_deps set of each dependency. */
  method Register(redis: Server, t: Task, now: int)
    modifies redis
    ensures (redis.Snapshot(), Accepted) == AloneClient(Submitting(t, false), old(redis.Snapshot()), t, AddingPending(0), now)
    ensures Linked(old(redis.Snapshot()), redis.Snapshot(), t.id, t.dependsOn)
  {
    ghost var cfg := Submitting(t, false);
    ghost var before := redis.Snapshot();
    for i := 0 to |t.dependsOn|
      invariant AloneClient(cfg, redis.Snapshot(), t, AddingPending(i), now) == AloneClient(cfg, before, t, AddingPending(0), now)
    {
      ClientAloneStep(cfg, redis.Snapshot(), t, AddingPending(i), now);
      redis.SAdd(PendingDepsKey(t.id), t.dependsOn[i]);
    }
    ClientAloneStep(cfg, redis.Snapshot(), t, AddingPending(|t.dependsOn|), now);
    for i := 0 to |t.dependsOn|
      invariant AloneClient(cfg, redis.Snapshot(), t, AddingDependents(i), now) == AloneClient(cfg, before, t, AddingPending(0), now)
    {
      ClientAloneStep(cfg, redis.Snapshot(), t, AddingDependents(i), now);
      redis.SAdd(TaskDepsKey(t.dependsOn[i]), t.id);
    }
    ClientAloneStep(cfg, redis.Snapshot(), t, AddingDependents(|t.dependsOn|), now);
    assert Linked(before, redis.Snapshot(), t.id, t.dependsOn) by { PendingLinked(cfg, before, t, 0, now); }
  }

  /** The seconds of a delay as an i64: the cast wraps around. */
  function AsI64(seconds: nat): int {
    if seconds % U64_LIMIT <= I64_MAX then seconds % U64_LIMIT else seconds % U64_LIMIT - U64_LIMIT
  }

  /** When a task with this delay is due; the sum saturates. */
  function ExecuteAt(now: int, seconds: nat): int {
    var due := now + AsI64(seconds);
    if due > I64_MAX then I64_MAX else if due < -I64_MAX - 1 then -I64_MAX - 1 else due
  }

  /** A task is due when its delay is over, or at the end of time, exactly if the delay fits an i64. */
  lemma DueAfterDelay(now: int, seconds: nat)
    requires -I64_MAX - 1 <= now <= I64_MAX && seconds < U64_LIMIT
    ensures ExecuteAt(now, seconds) == (if now + seconds <= I64_MAX then now + seconds else I64_MAX) <==> seconds <= I64_MAX
  {
  }

  /**
   * enqueue_delayed: dependencies, unique key, group and priority play no part; false is the
   * error for a task without a delay, and then nothing is stored.
   */
  method EnqueueDelayed(redis: Server, t: Task, delay: Option<nat>, now: int) returns (accepted: bool)
    modifies redis
    ensures accepted <==> delay.Some?
    ensures accepted ==>
      (redis.Snapshot(), Accepted) == AloneClient(Submitting(t, true), old(redis.Snapshot()), t, Fresh, ExecuteAt(now, delay.value))
    ensures accepted ==> Delays(old(redis.Snapshot()), t, ExecuteAt(now, delay.value), redis.Snapshot())
    ensures !accepted ==> redis.Snapshot() == old(redis.Snapshot())
  {
    if delay.None? {
      return false;
    }
    var executeAt := ExecuteAt(now, delay.value);
    SubmissionDelays(redis.Snapshot(), t, executeAt);
    ghost var cfg := Submitting(t, true);
    ClientAloneStep(cfg, redis.Snapshot(), t, Fresh, executeAt);
    redis.HSet(t.id, Record(t, t.queue));
    ClientAloneStep(cfg, redis.Snapshot(), t, Delaying, executeAt);
    redis.ZAdd(DelayedKey(t.queue), t.id, executeAt);
    return true;
  }

  method PauseQueue(redis: Server, queue: string)
    modifies redis
    ensures redis.Snapshot() == Do(old(redis.Snapshot()), SetPause(queue)) && redis.Snapshot().Paused(queue)
  {
    redis.SetFlag(queue);
  }

  method ResumeQueue(redis: Server, queue: string)
    modifies redis
    ensures redis.Snapshot() == Do(old(redis.Snapshot()), DelPause(queue)) && !redis.Snapshot().Paused(queue)
  {
    redis.DelFlag(queue);
  }

  // ---- what a call achieves ----

  /** A task with dependencies is registered with exactly these and put on no queue. */
  lemma RegistersOnly(db: Db, t: Task, now: int)
    requires t.dependsOn != []
    ensures var (after, c) := AloneClient(Submitting(t, false), db, t, Fresh, now);
            c == Accepted && Linked(db.HSet(t.id, Record(t, t.queue)), after, t.id, t.dependsOn)
  {
    SubmissionEnqueues(db, t, now);
  }

  /** Where an accepted task without dependencies belongs. */
  function Home(t: Task): Key {
    match t.group
    case Some(group) => GroupKey(group)
    case None => if t.priority == DEFAULT_PRIORITY then QueueKey(t.queue) else PriorityKey(t.queue)
  }

  /** t, which was nowhere in before, is nowhere but at its home in after. */
  ghost predicate Homed(before: Db, after: Db, t: Task) {
    var home := Home(t);
    && (forall k :: t.id in after.List(k) <==> k == home && k.QueueKey?)
    && (forall k :: Has(after.Ranks(k), t.id) <==> k == home && !k.QueueKey?)
    && (home.QueueKey? ==> after.List(home) == before.List(home) + [t.id])
    && (home.PriorityKey? ==> Entry(t.priority, t.id) in after.Ranks(home))
  }

  ghost predicate Nowhere(db: Db, id: Id) {
    forall k :: id !in db.List(k) && !Has(db.Ranks(k), id)
  }

  lemma RoutesHome(db: Db, t: Task, now: int)
    requires RanksValid(db) && Nowhere(db, t.id)
    ensures Homed(db, Do(db, RouteCommand(t, now)), t)
  {
    var home, c := Home(t), RouteCommand(t, now);
    assert c == if home.QueueKey? then RPush(home, t.id) else ZAdd(home, t.id, if home.GroupKey? then now else t.priority);
    forall k ensures t.id in Do(db, c).List(k) <==> k == home && k.QueueKey? {
      ListedHome(db, c, t.id, k);
    }
    forall k ensures Has(Do(db, c).Ranks(k), t.id) <==> k == home && !k.QueueKey? {
      RankedHome(db, c, t.id, k);
    }
    if c.ZAdd? {
      ZAddSpec(db.Ranks(home), t.id, c.score);
    }
  }

  lemma ListedHome(db: Db, c: Command, id: Id, k: Key)
    requires id !in db.List(k) && (c.RPush? || c.ZAdd?) && c.id == id
    ensures id in Do(db, c).List(k) <==> c.RPush? && c.k == k
  {
  }

  lemma RankedHome(db: Db, c: Command, id: Id, k: Key)
    requires RanksValid(db) && !Has(db.Ranks(k), id) && (c.RPush? || c.ZAdd?) && c.id == id
    ensures Has(Do(db, c).Ranks(k), id) <==> c.ZAdd? && c.k == k
  {
    RanksExact(db, c, k, id);
  }

  lemma RoutingEnds(cfg: Config, db: Db, t: Task, now: int)
    ensures AloneClient(cfg, db, t, Routing, now) == (Do(db, RouteCommand(t, now)), Accepted)
  {
    ClientAloneStep(cfg, db, t, Routing, now);
    assert AloneClient(cfg, Do(db, RouteCommand(t, now)), t, Accepted, now) == (Do(db, RouteCommand(t, now)), Accepted);
  }

  lemma CheckingEnds(cfg: Config, db: Db, t: Task, now: int)
    requires t.uniqueKey.Some?
    ensures var k := DedupKey(t.queue);
            AloneClient(cfg, db, t, CheckingKey, now) ==
              if t.uniqueKey.value in db.Members(k) then (db, Rejected)
              else AloneClient(cfg, db.SAdd(k, t.uniqueKey.value), t, Routing, now)
  {
    ClientAloneStep(cfg, db, t, CheckingKey, now);
  }

  /**
   * A task without dependencies is refused exactly if its unique key is taken, and then it is on
   * no list and in no sorted set. Otherwise it is in exactly one of them: in its group's set, else
   * in the priority queue with its priority, else - at the default priority - last on its queue.
   */
  lemma PlainSubmission(db: Db, t: Task, now: int)
    requires t.dependsOn == [] && RanksValid(db) && Nowhere(db, t.id)
    ensures var (after, c) := AloneClient(Submitting(t, false), db, t, Fresh, now);
            && (c == Rejected <==> t.uniqueKey.Some? && t.uniqueKey.value in db.Members(DedupKey(t.queue)))
            && (if c == Rejected then Nowhere(after, t.id) else c == Accepted && Homed(db, after, t))
  {
    var cfg := Submitting(t, false);
    var stored := db.HSet(t.id, Record(t, t.queue));
    ClientAloneStep(cfg, db, t, Fresh, now);
    if t.uniqueKey.Some? {
      StillNowhere(db, stored, t.id);
      CheckingEnds(cfg, stored, t, now);
      Routed(cfg, db, stored.SAdd(DedupKey(t.queue), t.uniqueKey.value), t, now);
    } else {
      Routed(cfg, db, stored, t, now);
    }
  }

  lemma StillNowhere(db: Db, other: Db, id: Id)
    requires other.lists == db.lists && other.zsets == db.zsets && Nowhere(db, id)
    ensures Nowhere(other, id)
  {
    assert forall k :: other.List(k) == db.List(k) && other.Ranks(k) == db.Ranks(k);
  }

  lemma Routed(cfg: Config, db: Db, other: Db, t: Task, now: int)
    requires other.lists == db.lists && other.zsets == db.zsets && RanksValid(db) && Nowhere(db, t.id)
    ensures AloneClient(cfg, other, t, Routing, now).1 == Accepted && Homed(db, AloneClient(cfg, other, t, Routing, now).0, t)
  {
    SameHome(db, other, t, now);
    RoutingEnds(cfg, other, t, now);
  }

  /**
   * A delayed task that was nowhere before is in the delayed set of its queue with its time, and
   * nowhere else; no other entry there is touched, and nothing is registered to wait for.
   */
  lemma DelayedSubmission(db: Db, t: Task, executeAt: int)
    requires RanksValid(db) && Nowhere(db, t.id)
    ensures var (after, c) := AloneClient(Submitting(t, true), db, t, Fresh, executeAt);
            && c == Accepted && (forall k :: t.id !in after.List(k)) && (forall k :: after.Members(k) == db.Members(k))
            && (forall k: Key :: Has(after.Ranks(k), t.id) <==> k == DelayedKey(t.queue))
            && (forall e :: e in after.Ranks(DelayedKey(t.queue)) <==> e == Entry(executeAt, t.id) || e in db.Ranks(DelayedKey(t.queue)))
  {
    SubmissionDelays(db, t, executeAt);
    var (after, c) := AloneClient(Submitting(t, true), db, t, Fresh, executeAt);
    var k := DelayedKey(t.queue);
    assert after.lists == db.lists && after.Ranks(k) == SortedSets.ZAdd(db.Ranks(k), t.id, executeAt);
    ZAddSpec(db.Ranks(k), t.id, executeAt);
    HasZAdd(db.Ranks(k), t.id, executeAt, t.id);
    forall e | e in db.Ranks(k) ensures e.id != t.id {
      assert !Has(db.Ranks(k), t.id);
    }
    forall l ensures after.List(l) == db.List(l) && after.Members(l) == db.Members(l) {
    }
    forall l ensures Has(after.Ranks(l), t.id) <==> l == k {
      assert l != k ==> after.Ranks(l) == db.Ranks(l);
    }
  }

  /** Records and sets do not matter for where the task goes. */
  lemma SameHome(db: Db, other: Db, t: Task, now: int)
    requires other.lists == db.lists && other.zsets == db.zsets && RanksValid(db) && Nowhere(db, t.id)
    ensures Nowhere(other, t.id) && Homed(db, Do(other, RouteCommand(t, now)), t)
  {
    assert forall k :: other.List(k) == db.List(k) && other.Ranks(k) == db.Ranks(k);
    RoutesHome(other, t, now);
  }
}
