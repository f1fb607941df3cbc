/**
 * What one round of a worker does, stated on the store before and after it: which task it takes,
 * and what becomes of that task and its dependents.
 */
module Outcomes {
  import opened Basics
  import opened Keys
  import opened SortedSets
  import opened Tasks
  import opened Store
  import opened Release
  import opened Commands
  import opened Protocol
  import opened Uninterrupted

  // ---- the task that a poll hands out ----

  /** The worker's state when it has popped id. */
  function Given(db: Db, id: Id): Worker {
    if id in db.tasks then Running(db.tasks[id].data.(status := Active)) else Idle
  }

  /** The plain list of the queue hands out its first task, if it has one. */
  ghost predicate HandsFirst(before: Db, queue: string, after: Db, w: Worker) {
    var l := before.List(QueueKey(queue));
    if l == [] then after == before && w == Idle
    else
      && w == Given(before, l[0])
      && after == before.(lists := before.lists[QueueKey(queue) := l[1..]][ActiveKey(queue) := [l[0]] + before.List(ActiveKey(queue))])
  }

  /** before without its first ranked task, which is active now. */
  function WithoutRanked(before: Db, queue: string): Db
    requires before.Ranks(PriorityKey(queue)) != []
  {
    var z := before.Ranks(PriorityKey(queue));
    before.(zsets := before.zsets[PriorityKey(queue) := ZRem(z, z[0].id)],
            lists := before.lists[ActiveKey(queue) := [z[0].id] + before.List(ActiveKey(queue))])
  }

  /**
   * A paused queue hands out nothing. Otherwise the first task of the priority queue is handed
   * out; if there is none, or it has no record, the plain list hands out its first task.
   */
  ghost predicate Hands(before: Db, queue: string, after: Db, w: Worker) {
    var z := before.Ranks(PriorityKey(queue));
    if before.Paused(queue) then after == before && w == Idle
    else if z == [] then HandsFirst(before, queue, after, w)
    else if z[0].id in before.tasks then after == WithoutRanked(before, queue) && w == Given(before, z[0].id)
    else HandsFirst(WithoutRanked(before, queue), queue, after, w)
  }

  /** What a poll of the queue comes to, before the handler. */
  function Polling(cfg: Config, db: Db, queue: string, fallThrough: bool): (Db, Worker) {
    Fetch(cfg, db.PDequeue(queue).0, WorkerNext(cfg, db, Idle, Poll(queue, fallThrough)))
  }

  lemma LoadingEnds(cfg: Config, db: Db, id: Id)
    ensures Fetch(cfg, db, Loading(id, None)) == (db, Given(db, id))
  {
    assert Fetch(cfg, db, Given(db, id)) == (db, Given(db, id));
  }

  /** From the pop of the plain list on. */
  lemma PoppingEnds(cfg: Config, db: Db, queue: string)
    ensures var (after, w) := Fetch(cfg, db, Popping(queue)); HandsFirst(db, queue, after, w)
  {
    var l := db.List(QueueKey(queue));
    if l != [] {
      var popped := db.LPop(QueueKey(queue));
      assert Fetch(cfg, db, Popping(queue)) == Fetch(cfg, popped, InHand(queue, l[0]));
      assert Fetch(cfg, popped, InHand(queue, l[0])) == Fetch(cfg, popped.LPush(ActiveKey(queue), l[0]), Loading(l[0], None));
      LoadingEnds(cfg, popped.LPush(ActiveKey(queue), l[0]), l[0]);
    } else {
      assert Fetch(cfg, db, Idle) == (db, Idle);
    }
  }

  lemma CheckingEnds(cfg: Config, db: Db, queue: string)
    ensures var (after, w) := Fetch(cfg, db, CheckingPause(queue));
            if db.Paused(queue) then after == db && w == Idle else HandsFirst(db, queue, after, w)
  {
    if db.Paused(queue) {
      assert Fetch(cfg, db, Idle) == (db, Idle);
    } else {
      assert Fetch(cfg, db, CheckingPause(queue)) == Fetch(cfg, db, Popping(queue));
      PoppingEnds(cfg, db, queue);
    }
  }

  /** A poll that nobody interrupts hands out the task that it should. */
  lemma PollHands(cfg: Config, db: Db, queue: string, fallThrough: bool)
    ensures var (after, w) := Polling(cfg, db, queue, fallThrough); Hands(db, queue, after, w)
  {
    var z := db.Ranks(PriorityKey(queue));
    if db.Paused(queue) {
      assert Fetch(cfg, db, Idle) == (db, Idle);
      CheckingEnds(cfg, db, queue);
    } else if z == [] {
      CheckingEnds(cfg, db, queue);
    } else {
      var taken := WithoutRanked(db, queue);
      assert db.PDequeue(queue).0 == taken;
      if z[0].id in db.tasks {
        assert Fetch(cfg, taken, Given(db, z[0].id)) == (taken, Given(db, z[0].id));
      } else {
        assert Fetch(cfg, taken, Loading(z[0].id, Some(queue))) == Fetch(cfg, taken, CheckingPause(queue));
        CheckingEnds(cfg, taken, queue);
      }
    }
  }

  /** Choices are left open only after the handler. */
  lemma {:induction false} TruthfulAfterFetch(cfg: Config, db: Db, w: Worker, o: Oracle)
    requires Truthful(cfg, Fetch(cfg, db, w).0, Fetch(cfg, db, w).1, o)
    ensures Truthful(cfg, db, w, o)
    decreases Phase(w)
  {
    if w.CheckingPause? || w.Popping? || w.InHand? || w.Loading? {
      StepsDown(cfg, db, w, o);
      TruthfulAfterFetch(cfg, Do(db, WorkerCommand(cfg, w, Go)), WorkerNext(cfg, db, w, Go), o);
    }
  }

  // ---- what becomes of the task ----

  /**
   * At the end of queue q there are now, once each, exactly those recorded tasks of q that x
   * listed and that waited for nothing else.
   */
  ghost predicate Gains(before: Db, after: Db, x: Id, q: string) {
    exists freed: seq<Id> ::
      && after.List(QueueKey(q)) == before.List(QueueKey(q)) + freed && NoDup(freed)
      && forall d :: d in freed <==>
           && d in before.Members(TaskDepsKey(x)) && before.Members(PendingDepsKey(d)) <= {x}
           && d in after.tasks && after.tasks[d].queue == q
  }

  /** The listed tasks no longer wait for x, and x lists nobody any more. */
  ghost predicate Unlinked(before: Db, after: Db, x: Id) {
    forall k :: after.Members(k) ==
      if k == TaskDepsKey(x) then {}
      else if k.PendingDepsKey? && k.name in before.Members(TaskDepsKey(x)) then before.Members(k) - {x}
      else before.Members(k)
  }

  function Unlisted(before: Db, t: Task, k: Key): seq<Id> {
    if k == ActiveKey(t.queue) then RemoveOne(before.List(k), t.id) else before.List(k)
  }

  /** The handler of t succeeded: t is stored as processed and off the active list, and its dependents are released. */
  ghost predicate Succeeded(before: Db, t: Task, after: Db) {
    && after.tasks == before.tasks[t.id := Record(t.(status := Processed), t.queue)]
    && after.zsets == before.zsets && after.flags == before.flags
    && Unlinked(before, after, t.id)
    && (forall q :: Gains(before, after, t.id, q))
    && (forall k: Key :: !k.QueueKey? ==> after.List(k) == Unlisted(before, t, k))
  }

  /** It failed and may be tried again: the count is one higher, and t is in the retry set for the time that its delay is over. */
  ghost predicate Retried(before: Db, t: Task, now: int, after: Db) {
    var n := t.retryCnt + 1;
    && n < t.maxRetry
    && after.tasks == before.tasks[t.id := Record(t.(retryCnt := n, status := Retry), t.queue)]
    && after.sets == before.sets && after.flags == before.flags
    && (forall k :: after.List(k) == Unlisted(before, t, k))
    && (forall k: Key :: after.Ranks(k) ==
          if k == RetryKey(t.queue) then SortedSets.ZAdd(before.Ranks(k), t.id, now + if n < 5 then Pow2(n + 1) else 64)
          else before.Ranks(k))
  }

  /** The dead list of t's queue has at its front, once each, the recorded tasks that t listed. */
  ghost predicate Buries(before: Db, after: Db, t: Task) {
    exists buried: seq<Id> ::
      && after.List(DeadKey(t.queue)) == buried + before.List(DeadKey(t.queue)) && NoDup(buried)
      && forall d :: d in buried <==> d in before.Members(TaskDepsKey(t.id)) && d in after.tasks
  }

  /** The listed tasks are marked dead, under t's queue. */
  ghost predicate Marks(before: Db, after: Db, t: Task) {
    && after.tasks.Keys == before.tasks.Keys + {t.id}
    && after.tasks[t.id] == Record(t.(retryCnt := t.retryCnt + 1, status := Dead), t.queue)
    && forall d :: d in before.tasks && d != t.id ==>
         after.tasks[d] ==
           if d in before.Members(TaskDepsKey(t.id)) then Record(before.tasks[d].data.(status := Dead), t.queue)
           else before.tasks[d]
  }

  /** What the listed tasks wait for is forgotten, and x lists nobody any more. */
  ghost predicate Forgets(before: Db, after: Db, x: Id) {
    forall k :: after.Members(k) ==
      if k == TaskDepsKey(x) || (k.PendingDepsKey? && k.name in before.Members(TaskDepsKey(x))) then {}
      else before.Members(k)
  }

  /** It failed for good: t is stored as dead and off the active list, on no list itself, and its dependents are buried. */
  ghost predicate Died(before: Db, t: Task, after: Db) {
    && t.retryCnt + 1 >= t.maxRetry
    && Marks(before, after, t) && Buries(before, after, t)
    && after.zsets == before.zsets && after.flags == before.flags
    && Forgets(before, after, t.id)
    && (forall k :: k != DeadKey(t.queue) ==> after.List(k) == Unlisted(before, t, k))
  }

  /** How the processing of a loaded task ends. */
  ghost predicate Concludes(before: Db, t: Task, ok: bool, now: int, after: Db) {
    if ok then Succeeded(before, t, after)
    else Retried(before, t, now, after) || Died(before, t, after)
  }

  /** The store when the result is written. */
  function Stored(db: Db, t: Task, status: Status): Db {
    db.LRem(ActiveKey(t.queue), t.id).HSet(t.id, Record(t.(status := status), t.queue))
  }

  lemma StoredKeeps(db: Db, t: Task, status: Status)
    ensures var s := Stored(db, t, status);
            && s.zsets == db.zsets && s.flags == db.flags && s.sets == db.sets
            && s.tasks == db.tasks[t.id := Record(t.(status := status), t.queue)]
            && (forall k :: s.Members(k) == db.Members(k)) && (forall k :: s.List(k) == Unlisted(db, t, k))
  {
  }

  /** The handler's result, LREM and HSET. */
  lemma ResultStored(cfg: Config, db: Db, t: Task, o: Oracle, r: Task, status: Status)
    requires Truthful(cfg, db, Running(t), o) && Handled(t, o.ok) == Unlisting(r, status)
    ensures Alone(cfg, db, Running(t), o) == Alone(cfg, Stored(db, r, status), AfterSave(r, status), o)
    ensures Truthful(cfg, Stored(db, r, status), AfterSave(r, status), o)
  {
    var unlisted := db.LRem(ActiveKey(r.queue), r.id);
    AloneStep(cfg, db, Running(t), o);
    assert Truthful(cfg, db, Unlisting(r, status), o);
    AloneStep(cfg, db, Unlisting(r, status), o);
    assert Truthful(cfg, unlisted, Saving(r, status), o);
    AloneStep(cfg, unlisted, Saving(r, status), o);
  }

  lemma GainsAll(before: Db, stored: Db, after: Db, t: Task, order: seq<Id>, q: string)
    requires NoDup(order) && (forall d :: d in order <==> d in before.Members(TaskDepsKey(t.id)))
    requires after.tasks == stored.tasks && (forall d :: stored.Members(PendingDepsKey(d)) == before.Members(PendingDepsKey(d)))
    requires after.List(QueueKey(q)) == before.List(QueueKey(q)) + Freed(stored, t.id, order, QueueKey(q))
    ensures Gains(before, after, t.id, q)
  {
    var freed := Freed(stored, t.id, order, QueueKey(q));
    FreedMembers(stored, t.id, order, QueueKey(q));
    FreedNoDup(stored, t.id, order, QueueKey(q));
    forall d ensures d in freed <==>
      && d in before.Members(TaskDepsKey(t.id)) && before.Members(PendingDepsKey(d)) <= {t.id}
      && d in after.tasks && after.tasks[d].queue == q
    {
    }
  }

  lemma {:induction false} NoneFreedOff(db: Db, done: Id, order: seq<Id>, k: Key)
    requires !k.QueueKey?
    ensures Freed(db, done, order, k) == []
    decreases |order|
  {
    if order != [] { NoneFreedOff(db, done, order[1..], k); }
  }

  lemma SuccessReleases(cfg: Config, db: Db, t: Task, o: Oracle)
    requires !cfg.atomicRelease && Truthful(cfg, Stored(db, t, Processed), ReleaseListing(t.id), o)
    ensures Succeeded(db, t, Alone(cfg, Stored(db, t, Processed), ReleaseListing(t.id), o))
  {
    var stored := Stored(db, t, Processed);
    StoredKeeps(db, t, Processed);
    ProgramReleases(cfg, stored, t.id, o);
    var after := Alone(cfg, stored, ReleaseListing(t.id), o);
    forall q ensures Gains(db, after, t.id, q) {
      GainsAll(db, stored, after, t, o.order, q);
    }
    forall k: Key | !k.QueueKey? ensures after.List(k) == Unlisted(db, t, k) {
      NoneFreedOff(stored, t.id, o.order, k);
    }
  }

  lemma RetryScheduled(cfg: Config, db: Db, t: Task, o: Oracle)
    requires t.retryCnt + 1 < t.maxRetry
    ensures var r := Attempted(t); Retried(db, t, o.now, Alone(cfg, Stored(db, r, Retry), Rescheduling(r), o))
  {
    var r := Attempted(t);
    StoredKeeps(db, r, Retry);
    PowUpToSix(6);
    AloneStep(cfg, Stored(db, r, Retry), Rescheduling(r), o);
  }

  lemma {:induction false} BuriedMembers(db: Db, order: seq<Id>)
    requires NoDup(order)
    ensures NoDup(Buried(db, order)) && forall d :: d in Buried(db, order) <==> d in order && d in db.tasks
    decreases |order|
  {
    if order != [] {
      assert order == [order[0]] + order[1..];
      assert order[0] !in order[1..];
      BuriedMembers(db, order[1..]);
    }
  }

  lemma FailureBuries(cfg: Config, db: Db, t: Task, o: Oracle)
    requires t.retryCnt + 1 >= t.maxRetry
    requires Truthful(cfg, Stored(db, Attempted(t), Dead), FailListing(t.id, t.queue), o)
    ensures Died(db, t, Alone(cfg, Stored(db, Attempted(t), Dead), FailListing(t.id, t.queue), o))
  {
    var stored := Stored(db, Attempted(t), Dead);
    StoredKeeps(db, Attempted(t), Dead);
    ProgramFails(cfg, stored, t.id, t.queue, o);
    var after := Alone(cfg, stored, FailListing(t.id, t.queue), o);
    var mid :| Fails(stored, t.queue, o.order, mid) && Alike(after, mid.Del(TaskDepsKey(t.id)));
    BuriedMembers(stored, o.order);
    FailureMeans(db, stored, mid, after, t, o.order);
  }

  lemma FailureMeans(db: Db, stored: Db, mid: Db, after: Db, t: Task, order: seq<Id>)
    requires t.retryCnt + 1 >= t.maxRetry && stored == Stored(db, Attempted(t), Dead)
    requires Enumerates(order, stored.Members(TaskDepsKey(t.id)))
    requires Fails(stored, t.queue, order, mid) && Alike(after, mid.Del(TaskDepsKey(t.id)))
    requires NoDup(Buried(stored, order)) && forall d :: d in Buried(stored, order) <==> d in order && d in stored.tasks
    ensures Died(db, t, after)
  {
    FailureMarks(db, stored, mid, after, t, order);
    FailureForgets(db, stored, mid, after, t, order);
    FailureLists(db, stored, mid, after, t, order);
  }

  lemma FailureLists(db: Db, stored: Db, mid: Db, after: Db, t: Task, order: seq<Id>)
    requires stored == Stored(db, Attempted(t), Dead) && Enumerates(order, stored.Members(TaskDepsKey(t.id)))
    requires Fails(stored, t.queue, order, mid) && after.lists == mid.lists && after.tasks == mid.tasks
    requires NoDup(Buried(stored, order)) && forall d :: d in Buried(stored, order) <==> d in order && d in stored.tasks
    ensures Buries(db, after, t) && forall k :: k != DeadKey(t.queue) ==> after.List(k) == Unlisted(db, t, k)
  {
    StoredKeeps(db, Attempted(t), Dead);
    OtherLists(stored, mid, t.queue, order);
    var buried, dead := Buried(stored, order), DeadKey(t.queue);
    assert after.List(dead) == buried + db.List(dead);
    forall d ensures d in buried <==> d in db.Members(TaskDepsKey(t.id)) && d in after.tasks {
      assert d in stored.tasks <==> d in mid.tasks;
    }
    forall k | k != dead ensures after.List(k) == Unlisted(db, t, k) {
      assert after.List(k) == mid.List(k);
    }
  }

  lemma OtherLists(stored: Db, mid: Db, queue: string, order: seq<Id>)
    requires Fails(stored, queue, order, mid)
    ensures mid.List(DeadKey(queue)) == Buried(stored, order) + stored.List(DeadKey(queue))
    ensures forall k :: k != DeadKey(queue) ==> mid.List(k) == stored.List(k)
  {
    forall k | k != DeadKey(queue) ensures mid.List(k) == stored.List(k) {
      assert mid.List(k) == [] + stored.List(k);
    }
  }

  lemma FailureMarks(db: Db, stored: Db, mid: Db, after: Db, t: Task, order: seq<Id>)
    requires stored == Stored(db, Attempted(t), Dead) && Enumerates(order, stored.Members(TaskDepsKey(t.id)))
    requires Fails(stored, t.queue, order, mid) && after.tasks == mid.tasks
    ensures Marks(db, after, t)
  {
    StoredKeeps(db, Attempted(t), Dead);
  }

  lemma FailureForgets(db: Db, stored: Db, mid: Db, after: Db, t: Task, order: seq<Id>)
    requires stored == Stored(db, Attempted(t), Dead) && Enumerates(order, stored.Members(TaskDepsKey(t.id)))
    requires Fails(stored, t.queue, order, mid) && Alike(after, mid.Del(TaskDepsKey(t.id)))
    ensures Forgets(db, after, t.id)
  {
    StoredKeeps(db, Attempted(t), Dead);
  }

  /**
   * Main result: when nobody gets in between, the processing of a task ends as it should - stored
   * and its dependents released, or stored and scheduled for a retry, or stored and its
   * dependents buried.
   */
  lemma ProcessingConcludes(cfg: Config, db: Db, t: Task, o: Oracle)
    requires !cfg.atomicRelease && Truthful(cfg, db, Running(t), o)
    ensures Concludes(db, t, o.ok, o.now, Alone(cfg, db, Running(t), o))
  {
    if o.ok {
      ResultStored(cfg, db, t, o, t, Processed);
      SuccessReleases(cfg, db, t, o);
    } else if t.retryCnt + 1 < t.maxRetry {
      ResultStored(cfg, db, t, o, Attempted(t), Retry);
      RetryScheduled(cfg, db, t, o);
    } else {
      ResultStored(cfg, db, t, o, Attempted(t), Dead);
      FailureBuries(cfg, db, t, o);
    }
  }
}
