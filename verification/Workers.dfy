/** The worker's program: polling, processing, acknowledging, and the loops over dependents. */
module Workers {
  import opened Basics
  import opened Keys
  import opened Tasks
  import opened Store
  import opened Release
  import opened Commands
  import opened Protocol
  import opened Uninterrupted
  import opened Outcomes
  import opened Redis
  import opened Arithmetic

  /** The range of a 64-bit usize. */
  const USIZE_LIMIT := 0x1_0000_0000_0000_0000

  /** The program releases dependents command by command. */
  const PROGRAM := Config(map[], {}, {}, {}, false)

  // ---- dependents ----

  /** check_dependents; order is how SMEMBERS listed the dependents. */
  method CheckDependents(redis: Server, done: Id, ghost o: Oracle) returns (enqueued: nat, ghost order: seq<Id>)
    modifies redis
    ensures Enumerates(order, old(redis.Snapshot()).Members(TaskDepsKey(done)))
    ensures redis.Snapshot() == Alone(PROGRAM, old(redis.Snapshot()), ReleaseListing(done), o.(order := order))
    ensures enqueued == |FreedBy(old(redis.Snapshot()), done)|
  {
    ghost var before := redis.Snapshot();
    var dependents := redis.SMembers(TaskDepsKey(done));
    order := dependents;
    AloneStep(PROGRAM, before, ReleaseListing(done), o.(order := order));
    assert |AllFreed(before, done, dependents)| == |FreedBy(before, done)| by { AllFreedSize(before, done, dependents); }
    if dependents == [] {
      return 0, order;
    }
    enqueued := 0;
    assert dependents[0..] == dependents;
    for i := 0 to |dependents|
      invariant Alone(PROGRAM, redis.Snapshot(), Dropping(done, dependents[i..]), o.(order := order)) ==
                Alone(PROGRAM, before, ReleaseListing(done), o.(order := order))
      invariant enqueued + |AllFreed(redis.Snapshot(), done, dependents[i..])| == |AllFreed(before, done, dependents)|
    {
      var dependent := dependents[i];
      ghost var db := redis.Snapshot();
      FreedLater(db, done, dependents, i);
      OneRound(PROGRAM, db, done, dependent, dependents[i + 1..], o.(order := order));
      assert dependents[i..] == [dependent] + dependents[i + 1..];
      var freed := ReleaseDependent(redis, done, dependent);
      if freed {
        enqueued := enqueued + 1;
      }
    }
    assert dependents[|dependents|..] == [];
    AloneStep(PROGRAM, redis.Snapshot(), Dropping(done, []), o.(order := order));
    redis.Del(TaskDepsKey(done));
  }

  /** The body of the loop of check_dependents. */
  method ReleaseDependent(redis: Server, done: Id, dependent: Id) returns (freed: bool)
    modifies redis
    ensures redis.Snapshot() == ReleaseOne(old(redis.Snapshot()), done, dependent)
    ensures freed == LastFor(old(redis.Snapshot()), done, dependent)
  {
    var pending := PendingDepsKey(dependent);
    ghost var before := redis.Snapshot();
    freed := false;
    redis.SRem(pending, done);
    var remaining := redis.SCard(pending);
    if remaining == 0 {
      EmptyIsGone(before, pending, done);
      if dependent in redis.tasks {
        redis.RPush(QueueKey(redis.tasks[dependent].queue), dependent);
        redis.Del(pending);
        freed := true;
      } else {
        redis.Del(pending);
      }
    }
  }

  function Recorded(db: Db, ids: set<Id>): set<Id> {
    set d | d in ids && d in db.tasks
  }

  lemma BuriedSize(db: Db, order: seq<Id>, ids: set<Id>)
    requires NoDup(order) && forall d :: d in order <==> d in ids
    ensures |Buried(db, order)| == |Recorded(db, ids)|
  {
    BuriedMembers(db, order);
    DistinctSize(Buried(db, order), Recorded(db, ids));
  }

  /** fail_dependents; order is how SMEMBERS listed the dependents. */
  method FailDependents(redis: Server, failed: Id, queue: string, ghost o: Oracle) returns (count: nat, ghost order: seq<Id>)
    modifies redis
    ensures Enumerates(order, old(redis.Snapshot()).Members(TaskDepsKey(failed)))
    ensures redis.Snapshot() == Alone(PROGRAM, old(redis.Snapshot()), FailListing(failed, queue), o.(order := order))
    ensures count == |Recorded(old(redis.Snapshot()), old(redis.Snapshot()).Members(TaskDepsKey(failed)))|
  {
    ghost var before := redis.Snapshot();
    var dependents := redis.SMembers(TaskDepsKey(failed));
    order := dependents;
    AloneStep(PROGRAM, before, FailListing(failed, queue), o.(order := order));
    if dependents == [] {
      BuriedSize(before, dependents, before.Members(TaskDepsKey(failed)));
      return 0, order;
    }
    count := 0;
    assert dependents[0..] == dependents;
    for i := 0 to |dependents|
      invariant Alone(PROGRAM, redis.Snapshot(), FailFetching(failed, queue, dependents[i..]), o.(order := order)) ==
                Alone(PROGRAM, before, FailListing(failed, queue), o.(order := order))
      invariant redis.Snapshot().tasks.Keys == before.tasks.Keys
      invariant count + |Buried(before, dependents[i..])| == |Buried(before, dependents)|
    {
      var dependent := dependents[i];
      OneFailure(PROGRAM, redis.Snapshot(), failed, queue, dependent, dependents[i + 1..], o.(order := order));
      assert dependents[i..] == [dependent] + dependents[i + 1..];
      assert dependents[i..][1..] == dependents[i + 1..];
      if dependent in redis.tasks {
        redis.HSet(dependent, Record(redis.tasks[dependent].data.(status := Dead), queue));
        redis.LPush(DeadKey(queue), dependent);
        count := count + 1;
      }
      redis.Del(PendingDepsKey(dependent));
    }
    assert dependents[|dependents|..] == [];
    AloneStep(PROGRAM, redis.Snapshot(), FailFetching(failed, queue, []), o.(order := order));
    redis.Del(TaskDepsKey(failed));
    BuriedSize(before, dependents, before.Members(TaskDepsKey(failed)));
  }

  // ---- the worker ----

  /** What a dequeue method comes back with. */
  datatype Fetched = Paused | Nothing | Missing(id: Id) | Found(task: Task)

  /** Where the protocol has the worker then. */
  function Holder(r: Fetched): Worker {
    if r.Found? then Running(r.task) else Idle
  }

  function Loaded(db: Db, id: Id): Fetched {
    if id in db.tasks then Found(db.tasks[id].data.(status := Active)) else Missing(id)
  }

  /** From the pause check to the pop, and from the pop to the handler. */
  lemma PopSteps(db: Db, queue: string)
    ensures Fetch(PROGRAM, db, CheckingPause(queue)) == if db.Paused(queue) then (db, Idle) else Fetch(PROGRAM, db, Popping(queue))
    ensures Fetch(PROGRAM, db, Popping(queue)) ==
      var l := db.List(QueueKey(queue));
      if l == [] then (db, Idle) else Fetch(PROGRAM, db.LPop(QueueKey(queue)).LPush(ActiveKey(queue), l[0]), Loading(l[0], None))
  {
    var l := db.List(QueueKey(queue));
    if l != [] {
      assert Fetch(PROGRAM, db, Popping(queue)) == Fetch(PROGRAM, db.LPop(QueueKey(queue)), InHand(queue, l[0]));
    }
  }

  /** From the handler's result to the stored record. */
  lemma AckSteps(db: Db, task: Task, status: Status, o: Oracle)
    ensures var stored := db.LRem(ActiveKey(task.queue), task.id).HSet(task.id, Record(task.(status := status), task.queue));
            && Alone(PROGRAM, db, Unlisting(task, status), o) == Alone(PROGRAM, stored, AfterSave(task, status), o)
            && (Truthful(PROGRAM, stored, AfterSave(task, status), o) ==> Truthful(PROGRAM, db, Unlisting(task, status), o))
  {
    var unlisted := db.LRem(ActiveKey(task.queue), task.id);
    AloneStep(PROGRAM, db, Unlisting(task, status), o);
    AloneStep(PROGRAM, unlisted, Saving(task, status), o);
    assert Truthful(PROGRAM, unlisted, Saving(task, status), o) ==> Truthful(PROGRAM, db, Unlisting(task, status), o);
  }

  /** Listing the dependents truthfully is all it takes; the loops leave nothing open. */
  lemma ListingTruthful(db: Db, w: Worker, o: Oracle)
    requires w.ReleaseListing? || w.FailListing?
    requires Enumerates(o.order, db.Members(TaskDepsKey(w.done)))
    ensures Truthful(PROGRAM, db, w, o)
  {
    var c := Pick(w, o);
    LoopTruthful(Do(db, WorkerCommand(PROGRAM, w, c)), WorkerNext(PROGRAM, db, w, c), o);
  }

  lemma {:induction false} LoopTruthful(db: Db, w: Worker, o: Oracle)
    requires Phase(w) <= 1
    ensures Truthful(PROGRAM, db, w, o)
    decreases Phase(w), Left(w)
  {
    if !w.Idle? {
      StepsDown(PROGRAM, db, w, o);
      LoopTruthful(Do(db, WorkerCommand(PROGRAM, w, Go)), WorkerNext(PROGRAM, db, w, Go), o);
    }
  }

  lemma ResultStep(db: Db, task: Task, o: Oracle)
    ensures Alone(PROGRAM, db, Running(task), o) == Alone(PROGRAM, db, Handled(task, o.ok), o)
    ensures Truthful(PROGRAM, db, Handled(task, o.ok), o) ==> Truthful(PROGRAM, db, Running(task), o)
  {
    AloneStep(PROGRAM, db, Running(task), o);
  }

  /** From the handler's result to what comes after the stored record. */
  lemma Processing(db: Db, task: Task, result: Task, status: Status, o: Oracle)
    requires Handled(task, o.ok) == Unlisting(result, status)
    requires status == Processed || status == Retry || status == Dead
    requires var stored := db.LRem(ActiveKey(result.queue), result.id).HSet(result.id, Record(result.(status := status), result.queue));
             status != Retry ==> Enumerates(o.order, stored.Members(TaskDepsKey(result.id)))
    ensures var stored := db.LRem(ActiveKey(result.queue), result.id).HSet(result.id, Record(result.(status := status), result.queue));
            Alone(PROGRAM, db, Running(task), o) == Alone(PROGRAM, stored, AfterSave(result, status), o)
    ensures Truthful(PROGRAM, db, Running(task), o)
  {
    var stored := db.LRem(ActiveKey(result.queue), result.id).HSet(result.id, Record(result.(status := status), result.queue));
    ResultStep(db, task, o);
    AckSteps(db, result, status, o);
    if status != Retry {
      ListingTruthful(stored, AfterSave(result, status), o);
    } else {
      var w := Rescheduling(result);
      assert WorkerNext(PROGRAM, stored, w, Pick(w, o)) == Idle;
      assert Truthful(PROGRAM, Do(stored, WorkerCommand(PROGRAM, w, Pick(w, o))), Idle, o);
      assert Truthful(PROGRAM, stored, w, o);
    }
  }

  /** What chance decides in a round before it is known how SMEMBERS lists the dependents. */
  datatype Input = Input(fallThrough: bool, ok: bool, now: int)

  datatype Polled = Polled(queue: string, fallThrough: bool, oracle: Oracle)

  /** One round of the protocol's worker, from poll to poll. */
  function OneRoundOf(db: Db, p: Polled): Db {
    Alone(PROGRAM, db.PDequeue(p.queue).0, WorkerNext(PROGRAM, db, Idle, Poll(p.queue, p.fallThrough)), p.oracle)
  }

  /** The oracle of the round names the members of each set that the round lists. */
  ghost predicate RoundTruthful(db: Db, p: Polled) {
    Truthful(PROGRAM, db.PDequeue(p.queue).0, WorkerNext(PROGRAM, db, Idle, Poll(p.queue, p.fallThrough)), p.oracle)
  }

  /** What a round of a worker whose handler returns ok at time now does to the store. */
  ghost predicate RoundConcludes(before: Db, queue: string, fallThrough: bool, ok: bool, now: int, after: Db) {
    var (taken, w) := Polling(PROGRAM, before, queue, fallThrough);
    && Hands(before, queue, taken, w)
    && if w.Running? then Concludes(taken, w.task, ok, now, after) else after == taken
  }

  function Rounds(db: Db, log: seq<Polled>): Db {
    if log == [] then db else OneRoundOf(Rounds(db, log[..|log| - 1]), log[|log| - 1])
  }

  /**
   * Round i of the log polls this queue, with the input's handler result and clock and a truthful
   * oracle, and takes and concludes what it should on the store that the rounds before it left.
   */
  ghost predicate RoundLogged(db: Db, log: seq<Polled>, i: nat, input: Input, queue: string)
    requires i < |log|
  {
    && log[i].queue == queue && log[i].fallThrough == input.fallThrough
    && log[i].oracle.ok == input.ok && log[i].oracle.now == input.now
    && RoundTruthful(Rounds(db, log[..i]), log[i])
    && RoundConcludes(Rounds(db, log[..i]), queue, input.fallThrough, input.ok, input.now, Rounds(db, log[..i + 1]))
  }

  /** The queues that n polls in a row take in turn. */
  function Turns(queues: seq<string>, start: nat, n: nat): (turns: seq<string>)
    requires queues != []
    ensures |turns| == n && forall i :: 0 <= i < n ==> turns[i] == queues[(start + i) % USIZE_LIMIT % |queues|]
  {
    seq(n, i requires 0 <= i < n => queues[(start + i) % USIZE_LIMIT % |queues|])
  }

  /** The log is that of a worker's loop that polls these queues in turn with these inputs. */
  ghost predicate Logged(db: Db, log: seq<Polled>, inputs: seq<Input>, turns: seq<string>) {
    && |log| <= |inputs| == |turns|
    && forall i :: 0 <= i < |log| ==> RoundLogged(db, log, i, inputs[i], turns[i])
  }

  lemma LoggedNext(db: Db, log: seq<Polled>, p: Polled, inputs: seq<Input>, turns: seq<string>)
    requires Logged(db, log, inputs, turns) && |log| < |inputs|
    requires RoundLogged(db, log + [p], |log|, inputs[|log|], turns[|log|])
    ensures Logged(db, log + [p], inputs, turns)
  {
    var more := log + [p];
    forall i | 0 <= i < |more| ensures RoundLogged(db, more, i, inputs[i], turns[i]) {
      if i < |log| {
        assert RoundLogged(db, log, i, inputs[i], turns[i]);
        assert more[..i] == log[..i] && more[..i + 1] == log[..i + 1];
      }
    }
  }

  lemma LastLogged(db: Db, log: seq<Polled>, p: Polled, input: Input)
    requires p.fallThrough == input.fallThrough && p.oracle.ok == input.ok && p.oracle.now == input.now
    requires RoundTruthful(Rounds(db, log), p)
    requires RoundConcludes(Rounds(db, log), p.queue, input.fallThrough, input.ok, input.now, OneRoundOf(Rounds(db, log), p))
    ensures RoundLogged(db, log + [p], |log|, input, p.queue) && Rounds(db, log + [p]) == OneRoundOf(Rounds(db, log), p)
  {
    assert (log + [p])[..|log|] == log && (log + [p])[..|log| + 1] == log + [p];
  }

  class TaskWorker {
    const redis: Server
    const queues: seq<string>
    var queueIndex: nat

    constructor (redis: Server, queues: seq<string>)
      requires queues != []
      ensures this.redis == redis && this.queues == queues && queueIndex == 0 && Valid()
    {
      this.redis, this.queues, queueIndex := redis, queues, 0;
    }

    ghost predicate Valid()
      reads this
    {
      queues != [] && queueIndex < USIZE_LIMIT
    }

    /** Round robin over the queues; the counter wraps around. */
    method NextQueue() returns (queue: string)
      requires Valid()
      modifies this`queueIndex
      ensures Valid() && queueIndex == (old(queueIndex) + 1) % USIZE_LIMIT
      ensures queue == queues[old(queueIndex) % |queues|]
    {
      var index := queueIndex % |queues|;
      queueIndex := (queueIndex + 1) % USIZE_LIMIT;
      return queues[index];
    }

    method LoadTask(id: Id) returns (r: Fetched)
      ensures r == Loaded(redis.Snapshot(), id)
    {
      if id !in redis.tasks {
        return Missing(id);
      }
      var task := redis.tasks[id].data;
      return Found(task.(status := Active));
    }

    /** The plain list: pause check, BLPOP, LPUSH, load. */
    method DequeueTask(queue: string) returns (r: Fetched)
      modifies redis
      ensures (redis.Snapshot(), Holder(r)) == Fetch(PROGRAM, old(redis.Snapshot()), CheckingPause(queue))
      ensures var before := old(redis.Snapshot()); var l := before.List(QueueKey(queue));
              r == if before.Paused(queue) then Paused else if l == [] then Nothing else Loaded(before, l[0])
    {
      PopSteps(redis.Snapshot(), queue);
      if PauseKey(queue) in redis.flags {
        return Paused;
      }
      var popped := redis.BLPop(QueueKey(queue));
      match popped
      case None => return Nothing;
      case Some(id) =>
        redis.LPush(ActiveKey(queue), id);
        r := LoadTask(id);
    }

    /** The priority queue: one script, then load. */
    method DequeueTaskPriority(queue: string) returns (r: Fetched)
      modifies redis
      ensures redis.Snapshot() == old(redis.Snapshot()).PDequeue(queue).0
      ensures r == match old(redis.Snapshot()).PDequeue(queue).1
                   case QueuePaused => Paused
                   case Timeout => Nothing
                   case Got(id) => Loaded(redis.Snapshot(), id)
    {
      var popped := redis.PDequeue(queue);
      match popped
      case QueuePaused => return Paused;
      case Timeout => return Nothing;
      case Got(id) => r := LoadTask(id);
    }

    /**
     * First the priority queue, then the plain list, also if the id that the script handed out
     * has no record. A paused queue ends the round, unless the driver reports the script's error
     * as some other error (fallThrough).
     */
    method DequeueTaskAny(queue: string, fallThrough: bool) returns (r: Fetched)
      modifies redis
      ensures (redis.Snapshot(), Holder(r)) == Polling(PROGRAM, old(redis.Snapshot()), queue, fallThrough)
      ensures Hands(old(redis.Snapshot()), queue, redis.Snapshot(), Holder(r))
    {
      PollHands(PROGRAM, redis.Snapshot(), queue, fallThrough);
      r := DequeueTaskPriority(queue);
      if r.Nothing? || r.Missing? || (r.Paused? && fallThrough) {
        r := DequeueTask(queue);
      }
    }

    method ScheduleRetry(task: Task, now: int) returns (scheduled: bool)
      modifies redis
      ensures scheduled == CanRetry(task)
      ensures redis.Snapshot() == if scheduled
        then old(redis.Snapshot()).ZAdd(RetryKey(task.queue), task.id, now + RetryDelay(task).value)
        else old(redis.Snapshot())
    {
      var delay := RetryDelay(task);
      if delay.None? {
        return false;
      }
      redis.ZAdd(RetryKey(task.queue), task.id, now + delay.value);
      return true;
    }

    /** LREM, HSET, and after a success the dependents. */
    method AckTask(task: Task, status: Status, ghost o: Oracle) returns (ghost order: seq<Id>)
      modifies redis
      ensures var stored := old(redis.Snapshot()).LRem(ActiveKey(task.queue), task.id)
                              .HSet(task.id, Record(task.(status := status), task.queue));
              if status == Processed
              then redis.Snapshot() == Alone(PROGRAM, stored, ReleaseListing(task.id), o.(order := order)) &&
                   Enumerates(order, stored.Members(TaskDepsKey(task.id)))
              else redis.Snapshot() == stored
      ensures status == Processed ==> Succeeded(old(redis.Snapshot()), task, redis.Snapshot())
    {
      ghost var before := redis.Snapshot();
      redis.LRem(ActiveKey(task.queue), task.id);
      redis.HSet(task.id, Record(task.(status := status), task.queue));
      order := [];
      if status == Processed {
        var enqueued;
        enqueued, order := CheckDependents(redis, task.id, o);
        ListingTruthful(Stored(before, task, Processed), ReleaseListing(task.id), o.(order := order));
        SuccessReleases(PROGRAM, before, task, o.(order := order));
      }
    }

    /**
     * Runs the handler and acts on its result ok: what the protocol does when this worker takes
     * all its steps in a row.
     */
    method ProcessTask(task: Task, ok: bool, now: int) returns (ghost o: Oracle)
      modifies redis
      ensures o.ok == ok && o.now == now && Truthful(PROGRAM, old(redis.Snapshot()), Running(task), o)
      ensures redis.Snapshot() == Alone(PROGRAM, old(redis.Snapshot()), Running(task), o)
      ensures Concludes(old(redis.Snapshot()), task, ok, now, redis.Snapshot())
    {
      ghost var before := redis.Snapshot();
      o := Oracle(ok, [], now);
      if ok {
        ghost var order := AckTask(task, Processed, o);
        o := o.(order := order);
        Processing(before, task, task, Processed, o);
      } else {
        var failed := Attempted(task);
        if CanRetry(failed) {
          ghost var none := AckTask(failed, Retry, o);
          Processing(before, task, failed, Retry, o);
          var scheduled := ScheduleRetry(failed, now);
        } else {
          ghost var none := AckTask(failed, Dead, o);
          ghost var order;
          var count;
          count, order := FailDependents(redis, failed.id, failed.queue, o);
          o := o.(order := order);
          Processing(before, task, failed, Dead, o);
        }
      }
      ProcessingConcludes(PROGRAM, before, task, o);
    }

    /** One round of the worker's loop: poll the next queue and process what it gives. */
    method Round(fallThrough: bool, ok: bool, now: int) returns (queue: string, ghost o: Oracle)
      requires Valid()
      modifies redis, this`queueIndex
      ensures Valid() && queueIndex == (old(queueIndex) + 1) % USIZE_LIMIT && queue == queues[old(queueIndex) % |queues|]
      ensures redis.Snapshot() == OneRoundOf(old(redis.Snapshot()), Polled(queue, fallThrough, o))
      ensures RoundTruthful(old(redis.Snapshot()), Polled(queue, fallThrough, o))
      ensures o.ok == ok && o.now == now
      ensures RoundConcludes(old(redis.Snapshot()), queue, fallThrough, ok, now, redis.Snapshot())
    {
      queue := NextQueue();
      ghost var w := WorkerNext(PROGRAM, redis.Snapshot(), Idle, Poll(queue, fallThrough));
      ghost var db := redis.Snapshot().PDequeue(queue).0;
      o := Oracle(ok, [], now);
      var r := DequeueTaskAny(queue, fallThrough);
      if r.Found? {
        o := ProcessTask(r.task, ok, now);
      }
      FetchThenAlone(db, w, o);
      TruthfulAfterFetch(PROGRAM, db, w, o);
    }

    /**
     * The worker's loop until it is shut down, after as many rounds as there are inputs: the
     * queues are polled in turn, and the data goes from round to round.
     */
    method TaskLoop(inputs: seq<Input>) returns (ghost log: seq<Polled>)
      requires Valid()
      modifies redis, this`queueIndex
      ensures Valid() && queueIndex == (old(queueIndex) + |inputs|) % USIZE_LIMIT && |log| == |inputs|
      ensures redis.Snapshot() == Rounds(old(redis.Snapshot()), log)
      ensures Logged(old(redis.Snapshot()), log, inputs, Turns(queues, old(queueIndex), |inputs|))
    {
      log := [];
      ghost var before, turns := redis.Snapshot(), Turns(queues, queueIndex, |inputs|);
      var i := 0;
      while i < |inputs|
        invariant i <= |inputs| && Valid() && queueIndex == (old(queueIndex) + i) % USIZE_LIMIT && |log| == i
        invariant redis.Snapshot() == Rounds(before, log)
        invariant Logged(before, log, inputs, turns)
      {
        var queue;
        ghost var o;
        queue, o := Round(inputs[i].fallThrough, inputs[i].ok, inputs[i].now);
        ghost var last := Polled(queue, inputs[i].fallThrough, o);
        assert queue == turns[i];
        LastLogged(before, log, last, inputs[i]);
        LoggedNext(before, log, last, inputs, turns);
        NextRemainder(old(queueIndex) + i, USIZE_LIMIT);
        log := log + [last];
        i := i + 1;
      }
    }
  }

  lemma {:induction false} FetchThenAlone(db: Db, w: Worker, o: Oracle)
    ensures Alone(PROGRAM, db, w, o) == Alone(PROGRAM, Fetch(PROGRAM, db, w).0, Fetch(PROGRAM, db, w).1, o)
    decreases Phase(w)
  {
    if w.CheckingPause? || w.Popping? || w.InHand? || w.Loading? {
      StepsDown(PROGRAM, db, w, o);
      AloneStep(PROGRAM, db, w, o);
      FetchThenAlone(Do(db, WorkerCommand(PROGRAM, w, Go)), WorkerNext(PROGRAM, db, w, Go), o);
    }
  }

  // ---- fairness of the polls ----

  /** Any n numbers in a row have all the remainders by n. */
  lemma EachRemainder(start: nat, n: nat, j: nat) returns (i: nat)
    requires n > 0 && j < n
    ensures start <= i < start + n && i % n == j
  {
    var q, r := start / n, start % n;
    assert start == n * q + r;
    if j >= r {
      i := start + (j - r);
      Quotient(i, n, q, j);
    } else {
      i := start + (n + j - r);
      assert n * (q + 1) == n * q + n;
      Quotient(i, n, q + 1, j);
    }
  }

  /** The queue of poll i when the counter was at start. */
  function PollAt(start: nat, n: nat, i: nat): nat
    requires n > 0
  {
    (start + i) % USIZE_LIMIT % n
  }

  /** Queue j is among the first m polls. */
  ghost predicate PolledWithin(start: nat, n: nat, m: nat, j: nat)
    requires n > 0
  {
    exists i :: 0 <= i < m && PollAt(start, n, i) == j
  }

  /** n polls in a row poll each of the n queues exactly once. */
  ghost predicate EachOnce(start: nat, n: nat)
    requires n > 0
  {
    && (forall j :: 0 <= j < n ==> PolledWithin(start, n, n, j))
    && (forall i, k :: 0 <= i < k < n ==> PollAt(start, n, i) != PollAt(start, n, k))
  }

  /** As long as the remainders are those of numbers in a row. */
  lemma PlainTurn(start: nat, n: nat)
    requires 0 < n && forall i :: 0 <= i < n ==> PollAt(start, n, i) == (start + i) % n
    ensures EachOnce(start, n)
  {
    forall j | 0 <= j < n ensures PolledWithin(start, n, n, j) {
      var m := EachRemainder(start, n, j);
      assert PollAt(start, n, m - start) == j;
    }
    forall i, k | 0 <= i < k < n ensures PollAt(start, n, i) != PollAt(start, n, k) {
      if (start + i) % n == (start + k) % n { SameRemainder(start + i, start + k, n); }
    }
  }

  lemma WrapHarmless(start: nat, n: nat, i: nat)
    requires 0 < n && start < USIZE_LIMIT && i < n <= USIZE_LIMIT && (start + i < USIZE_LIMIT || USIZE_LIMIT % n == 0)
    ensures PollAt(start, n, i) == (start + i) % n
  {
    if start + i >= USIZE_LIMIT {
      var a := start + i - USIZE_LIMIT;
      Quotient(start + i, USIZE_LIMIT, 1, a);
      assert USIZE_LIMIT == n * (USIZE_LIMIT / n);
      assert start + i == n * (USIZE_LIMIT / n + a / n) + a % n;
      Quotient(start + i, n, USIZE_LIMIT / n + a / n, a % n);
    }
  }

  lemma PollBefore(start: nat, n: nat, i: nat, q: nat, r: nat)
    requires 0 < n && start + i < USIZE_LIMIT && start + i == n * q + r && r < n
    ensures PollAt(start, n, i) == r
  {
    Quotient(start + i, n, q, r);
  }

  lemma PollAfter(start: nat, n: nat, i: nat, r: nat)
    requires start + i == USIZE_LIMIT + r && r < n <= USIZE_LIMIT
    ensures PollAt(start, n, i) == r
  {
    Quotient(start + i, USIZE_LIMIT, 1, r);
    Quotient(r, n, 0, r);
  }

  /** Otherwise some queue is polled twice: once before the counter wraps, and once after. */
  lemma WrapCollides(start: nat, n: nat) returns (i: nat, k: nat)
    requires 0 < n <= USIZE_LIMIT && start < USIZE_LIMIT < start + n && USIZE_LIMIT % n != 0
    ensures i < k < n && PollAt(start, n, i) == PollAt(start, n, k)
  {
    var q, r, left := USIZE_LIMIT / n, USIZE_LIMIT % n, USIZE_LIMIT - start;
    assert USIZE_LIMIT == n * q + r;
    if r >= left {
      i, k := 0, r;
      PollBefore(start, n, i, q, r - left);
      PollAfter(start, n, k, r - left);
    } else {
      i, k := left - r, left;
      PollBefore(start, n, i, q, 0);
      PollAfter(start, n, k, 0);
    }
  }

  /**
   * Main result: for n queues, n polls in a row poll each queue exactly once if and only if the
   * counter does not wrap in between, or 2^64 is a multiple of n.
   */
  lemma RoundRobin(start: nat, n: nat)
    requires 0 < n <= USIZE_LIMIT && start < USIZE_LIMIT
    ensures EachOnce(start, n) <==> start + n <= USIZE_LIMIT || USIZE_LIMIT % n == 0
  {
    if start + n <= USIZE_LIMIT || USIZE_LIMIT % n == 0 {
      forall i | 0 <= i < n ensures PollAt(start, n, i) == (start + i) % n {
        WrapHarmless(start, n, i);
      }
      PlainTurn(start, n);
    } else {
      var i, k := WrapCollides(start, n);
    }
  }

  /** Even then no queue is left out for long: any 2 n - 1 polls in a row poll each queue. */
  lemma NoneStarves(start: nat, n: nat, j: nat)
    requires 0 < n && 2 * n - 1 <= USIZE_LIMIT && start < USIZE_LIMIT && j < n
    ensures PolledWithin(start, n, 2 * n - 1, j)
  {
    if start + n <= USIZE_LIMIT {
      RoundRobin(start, n);
      assert PolledWithin(start, n, n, j);
      var i :| 0 <= i < n && PollAt(start, n, i) == j;
    } else {
      RoundRobin(0, n);
      assert PolledWithin(0, n, n, j);
      var i :| 0 <= i < n && PollAt(0, n, i) == j;
      var k := USIZE_LIMIT - start + i;
      Quotient(start + k, USIZE_LIMIT, 1, i);
      assert PollAt(start, n, k) == j;
    }
  }
}
