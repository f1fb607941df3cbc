/**
 * What a worker or a client does when nobody else gets in between: the steps of the protocol
 * taken by one process in a row. The methods of the program are proved equal to this.
 */
module Uninterrupted {
  import opened Basics
  import opened Keys
  import opened Tasks
  import opened Store
  import opened Release
  import opened Commands
  import opened Protocol

  /** What chance decides in one round of a worker. */
  datatype Oracle = Oracle(ok: bool, order: seq<Id>, now: int)

  function Pick(w: Worker, o: Oracle): Choice {
    match w
    case Running(_) => Result(o.ok)
    case Rescheduling(_) => Clock(o.now)
    case ReleaseListing(_) => Choice.Order(o.order)
    case FailListing(_, _) => Choice.Order(o.order)
    case _ => Go
  }

  /** How far a worker is from its next poll. */
  function Phase(w: Worker): nat {
    match w
    case Idle => 0
    case Running(_) => 5
    case Unlisting(_, _) => 4
    case Saving(_, _) => 3
    case Rescheduling(_) => 2
    case ReleaseListing(_) => 2
    case FailListing(_, _) => 2
    case CheckingPause(_) => 9
    case Popping(_) => 8
    case InHand(_, _) => 7
    case Loading(_, otherwise) => if otherwise.Some? then 10 else 6
    case _ => 1
  }

  /** How far a worker is within its loop over the dependents. */
  function Left(w: Worker): nat {
    match w
    case Dropping(_, todo) => 6 * |todo| + 1
    case Counting(_, _, todo) => 6 * |todo| + 6
    case Fetching(_, _, todo) => 6 * |todo| + 5
    case Pushing(_, _, todo, _) => 6 * |todo| + 4
    case Clearing(_, _, todo) => 6 * |todo| + 3
    case FailFetching(_, _, todo) => 6 * |todo| + 1
    case FailSaving(_, _, _, todo, _) => 6 * |todo| + 6
    case FailPushing(_, _, _, todo) => 6 * |todo| + 5
    case FailClearing(_, _, _, todo) => 6 * |todo| + 4
    case _ => 0
  }

  lemma StepsDown(cfg: Config, db: Db, w: Worker, o: Oracle)
    requires !w.Idle?
    ensures var w' := WorkerNext(cfg, db, w, Pick(w, o));
            Phase(w') < Phase(w) || (Phase(w') == Phase(w) && Left(w') < Left(w))
  {
  }

  /** The data when the worker is back at its poll. */
  function Alone(cfg: Config, db: Db, w: Worker, o: Oracle): Db
    decreases Phase(w), Left(w)
  {
    if w.Idle? then db
    else
      StepsDown(cfg, db, w, o);
      Alone(cfg, Do(db, WorkerCommand(cfg, w, Pick(w, o))), WorkerNext(cfg, db, w, Pick(w, o)), o)
  }

  /** One step of it. */
  lemma AloneStep(cfg: Config, db: Db, w: Worker, o: Oracle)
    requires !w.Idle?
    ensures Alone(cfg, db, w, o) ==
      Alone(cfg, Do(db, WorkerCommand(cfg, w, Pick(w, o))), WorkerNext(cfg, db, w, Pick(w, o)), o)
  {
  }

  /** Between a poll and the handler: the data and the worker when it has a task, or nothing. */
  function Fetch(cfg: Config, db: Db, w: Worker): (Db, Worker)
    decreases Phase(w)
  {
    if w.CheckingPause? || w.Popping? || w.InHand? || w.Loading? then
      Fetch(cfg, Do(db, WorkerCommand(cfg, w, Go)), WorkerNext(cfg, db, w, Go))
    else (db, w)
  }

  // ---- it is what the protocol does when one worker takes all the steps ----

  /** The steps of worker w alone, up to its next poll. */
  function Path(cfg: Config, db: Db, w: Worker, id: WorkerId, o: Oracle): seq<Step>
    decreases Phase(w), Left(w)
  {
    if w.Idle? then []
    else
      StepsDown(cfg, db, w, o);
      [WorkerStep(id, Pick(w, o))] +
      Path(cfg, Do(db, WorkerCommand(cfg, w, Pick(w, o))), WorkerNext(cfg, db, w, Pick(w, o)), id, o)
  }

  /** The oracle names the members whenever the worker lists a set. */
  ghost predicate Truthful(cfg: Config, db: Db, w: Worker, o: Oracle)
    decreases Phase(w), Left(w)
  {
    w.Idle? ||
    (Fits(db, w, Pick(w, o)) &&
     (StepsDown(cfg, db, w, o);
      Truthful(cfg, Do(db, WorkerCommand(cfg, w, Pick(w, o))), WorkerNext(cfg, db, w, Pick(w, o)), o)))
  }

  /** The states after the steps, one after the other. */
  function Play(cfg: Config, s: State, steps: seq<Step>): State
    decreases |steps|
  {
    if steps == [] then s else Play(cfg, After(cfg, s, steps[0]), steps[1..])
  }

  ghost predicate Playable(cfg: Config, s: State, steps: seq<Step>)
    decreases |steps|
  {
    steps == [] || (Enabled(cfg, s, steps[0]) && Playable(cfg, After(cfg, s, steps[0]), steps[1..]))
  }

  /** Taken in a row, the steps of one worker lead to Alone and leave it at its poll. */
  lemma {:induction false} AloneIsRun(cfg: Config, s: State, id: WorkerId, o: Oracle)
    requires id in s.workers && Truthful(cfg, s.db, s.workers[id], o)
    ensures Playable(cfg, s, Path(cfg, s.db, s.workers[id], id, o))
    ensures Play(cfg, s, Path(cfg, s.db, s.workers[id], id, o))
         == State(Alone(cfg, s.db, s.workers[id], o), s.clients, s.workers[id := Idle])
    decreases Phase(s.workers[id]), Left(s.workers[id])
  {
    var w := s.workers[id];
    if w.Idle? {
      assert s.workers[id := Idle] == s.workers;
    } else {
      StepsDown(cfg, s.db, w, o);
      var step := WorkerStep(id, Pick(w, o));
      var s' := After(cfg, s, step);
      AloneIsRun(cfg, s', id, o);
      assert Path(cfg, s.db, w, id, o) == [step] + Path(cfg, s'.db, s'.workers[id], id, o);
      assert Path(cfg, s.db, w, id, o)[1..] == Path(cfg, s'.db, s'.workers[id], id, o);
      assert s'.workers[id := Idle] == s.workers[id := Idle];
    }
  }

  // ---- release: the loop and the script ----

  lemma CountStep(cfg: Config, db: Db, done: Id, d: Id, rest: seq<Id>, o: Oracle)
    ensures Alone(cfg, db, Counting(done, d, rest), o) ==
      Alone(cfg, db, if db.Members(PendingDepsKey(d)) == {} then Fetching(done, d, rest) else Dropping(done, rest), o)
  {
    AloneStep(cfg, db, Counting(done, d, rest), o);
  }

  lemma FetchSteps(cfg: Config, db: Db, done: Id, d: Id, rest: seq<Id>, o: Oracle)
    ensures Alone(cfg, db, Fetching(done, d, rest), o) ==
      Alone(cfg, if d in db.tasks then db.RPush(QueueKey(db.tasks[d].queue), d) else db, Clearing(done, d, rest), o)
  {
    AloneStep(cfg, db, Fetching(done, d, rest), o);
    if d in db.tasks {
      AloneStep(cfg, db, Pushing(done, d, rest, db.tasks[d].queue), o);
    }
  }

  lemma ClearStep(cfg: Config, db: Db, done: Id, d: Id, rest: seq<Id>, o: Oracle)
    ensures Alone(cfg, db, Clearing(done, d, rest), o) == Alone(cfg, db.Del(PendingDepsKey(d)), Dropping(done, rest), o)
  {
    AloneStep(cfg, db, Clearing(done, d, rest), o);
  }

  lemma DropStep(cfg: Config, db: Db, done: Id, d: Id, rest: seq<Id>, o: Oracle)
    ensures Alone(cfg, db, Dropping(done, [d] + rest), o) ==
            Alone(cfg, db.SRem(PendingDepsKey(d), done), Counting(done, d, rest), o)
  {
    assert ([d] + rest)[1..] == rest;
    AloneStep(cfg, db, Dropping(done, [d] + rest), o);
  }

  /** One round of the release loop, as far as the next loop head. */
  lemma OneRound(cfg: Config, db: Db, done: Id, d: Id, rest: seq<Id>, o: Oracle)
    ensures Alone(cfg, db, Dropping(done, [d] + rest), o) == Alone(cfg, ReleaseOne(db, done, d), Dropping(done, rest), o)
  {
    var pending := PendingDepsKey(d);
    var dropped := db.SRem(pending, done);
    DropStep(cfg, db, done, d, rest, o);
    CountStep(cfg, dropped, done, d, rest, o);
    if dropped.Members(pending) == {} {
      FetchSteps(cfg, dropped, done, d, rest, o);
      ClearStep(cfg, if d in dropped.tasks then dropped.RPush(QueueKey(dropped.tasks[d].queue), d) else dropped, done, d, rest, o);
      EmptyIsGone(db, pending, done);
    }
  }

  /** A set that SREM has emptied is gone, so DEL has nothing to do. */
  lemma EmptyIsGone(db: Db, k: Key, member: string)
    requires db.SRem(k, member).Members(k) == {}
    ensures db.SRem(k, member).Del(k) == db.SRem(k, member)
  {
    var after := db.SRem(k, member);
    if k in after.sets {
      assert after.Members(k) == db.Members(k) - {member};
    }
    assert after.sets - {k} == after.sets;
  }

  lemma {:induction false} LoopIsScript(cfg: Config, db: Db, done: Id, todo: seq<Id>, o: Oracle)
    ensures Alone(cfg, db, Dropping(done, todo), o) == ReleaseScript(db, done, todo)
    decreases |todo|
  {
    if todo == [] {
      AloneStep(cfg, db, Dropping(done, []), o);
    } else {
      assert todo == [todo[0]] + todo[1..];
      OneRound(cfg, db, done, todo[0], todo[1..], o);
      LoopIsScript(cfg, ReleaseOne(db, done, todo[0]), done, todo[1..], o);
    }
  }

  lemma NothingListed(order: seq<Id>, members: set<Id>)
    requires Enumerates(order, members) && order == []
    ensures members == {}
  {
    assert forall x :: x !in members;
  }

  /** The same as far as any command can tell: a set without members is a set that is not there. */
  ghost predicate Alike(a: Db, b: Db) {
    && a.lists == b.lists && a.zsets == b.zsets && a.tasks == b.tasks && a.flags == b.flags
    && forall k :: a.Members(k) == b.Members(k)
  }

  /**
   * Main result: one uninterrupted run of the program's release loop does what the script does
   * for the same order of dependents. (Without dependents the program skips the final DEL of a
   * set that is empty.)
   */
  lemma ProgramIsScript(cfg: Config, db: Db, done: Id, o: Oracle)
    requires !cfg.atomicRelease && Enumerates(o.order, db.Members(TaskDepsKey(done)))
    ensures o.order != [] ==> Alone(cfg, db, ReleaseListing(done), o) == ReleaseScript(db, done, o.order)
    ensures Alike(Alone(cfg, db, ReleaseListing(done), o), ReleaseScript(db, done, o.order))
  {
    AloneStep(cfg, db, ReleaseListing(done), o);
    if o.order != [] {
      LoopIsScript(cfg, db, done, o.order, o);
    } else {
      NothingListed(o.order, db.Members(TaskDepsKey(done)));
    }
  }

  /** In particular it releases: what becomes of every list and set, in terms of the state before. */
  lemma ProgramReleases(cfg: Config, db: Db, done: Id, o: Oracle)
    requires !cfg.atomicRelease && Enumerates(o.order, db.Members(TaskDepsKey(done)))
    ensures var after := Alone(cfg, db, ReleaseListing(done), o);
            && after.tasks == db.tasks && after.zsets == db.zsets && after.flags == db.flags
            && (forall k :: after.List(k) == db.List(k) + Freed(db, done, o.order, k))
            && (forall k :: after.Members(k) ==
                  if k == TaskDepsKey(done) then {}
                  else if k.PendingDepsKey? && k.name in o.order then db.Members(k) - {done}
                  else db.Members(k))
  {
    ProgramIsScript(cfg, db, done, o);
    ReleaseLoopSpec(db, done, o.order);
  }

  // ---- failure ----

  /** One round of the loop that fails the dependents. */
  function FailOne(db: Db, queue: string, d: Id): Db {
    (if d in db.tasks then db.HSet(d, Record(db.tasks[d].data.(status := Dead), queue)).LPush(DeadKey(queue), d) else db)
      .Del(PendingDepsKey(d))
  }

  function FailLoop(db: Db, queue: string, order: seq<Id>): Db
    decreases |order|
  {
    if order == [] then db else FailLoop(FailOne(db, queue, order[0]), queue, order[1..])
  }

  lemma MarkStep(cfg: Config, db: Db, done: Id, queue: string, d: Id, rest: seq<Id>, data: Task, o: Oracle)
    ensures Alone(cfg, db, FailSaving(done, queue, d, rest, data), o) ==
            Alone(cfg, db.HSet(d, Record(data.(status := Dead), queue)), FailPushing(done, queue, d, rest), o)
  {
    AloneStep(cfg, db, FailSaving(done, queue, d, rest, data), o);
  }

  lemma BuryStep(cfg: Config, db: Db, done: Id, queue: string, d: Id, rest: seq<Id>, o: Oracle)
    ensures Alone(cfg, db, FailPushing(done, queue, d, rest), o) ==
            Alone(cfg, db.LPush(DeadKey(queue), d), FailClearing(done, queue, d, rest), o)
  {
    AloneStep(cfg, db, FailPushing(done, queue, d, rest), o);
  }

  lemma ForgetStep(cfg: Config, db: Db, done: Id, queue: string, d: Id, rest: seq<Id>, o: Oracle)
    ensures Alone(cfg, db, FailClearing(done, queue, d, rest), o) ==
            Alone(cfg, db.Del(PendingDepsKey(d)), FailFetching(done, queue, rest), o)
  {
    AloneStep(cfg, db, FailClearing(done, queue, d, rest), o);
  }

  lemma OneFailure(cfg: Config, db: Db, done: Id, queue: string, d: Id, rest: seq<Id>, o: Oracle)
    ensures Alone(cfg, db, FailFetching(done, queue, [d] + rest), o)
         == Alone(cfg, FailOne(db, queue, d), FailFetching(done, queue, rest), o)
  {
    assert ([d] + rest)[1..] == rest;
    AloneStep(cfg, db, FailFetching(done, queue, [d] + rest), o);
    if d in db.tasks {
      var data := db.tasks[d].data;
      var marked := db.HSet(d, Record(data.(status := Dead), queue));
      MarkStep(cfg, db, done, queue, d, rest, data, o);
      BuryStep(cfg, marked, done, queue, d, rest, o);
      ForgetStep(cfg, marked.LPush(DeadKey(queue), d), done, queue, d, rest, o);
    } else {
      ForgetStep(cfg, db, done, queue, d, rest, o);
    }
  }

  lemma {:induction false} FailureLoop(cfg: Config, db: Db, done: Id, queue: string, todo: seq<Id>, o: Oracle)
    ensures Alone(cfg, db, FailFetching(done, queue, todo), o) == FailLoop(db, queue, todo).Del(TaskDepsKey(done))
    decreases |todo|
  {
    if todo == [] {
      AloneStep(cfg, db, FailFetching(done, queue, []), o);
    } else {
      assert todo == [todo[0]] + todo[1..];
      OneFailure(cfg, db, done, queue, todo[0], todo[1..], o);
      FailureLoop(cfg, FailOne(db, queue, todo[0]), done, queue, todo[1..], o);
    }
  }

  /** The listed tasks that have a record, the last one first. */
  function Buried(db: Db, order: seq<Id>): seq<Id> {
    if order == [] then [] else Buried(db, order[1..]) + if order[0] in db.tasks then [order[0]] else []
  }

  /**
   * The effect of failing the dependents, stated on the state before it: each listed task with a
   * record is marked dead, under the queue of the failed task, and pushed on that queue's dead
   * list; what any listed task waits for is forgotten; nothing else changes.
   */
  ghost predicate Fails(before: Db, queue: string, order: seq<Id>, after: Db) {
    && after.zsets == before.zsets && after.flags == before.flags
    && after.tasks.Keys == before.tasks.Keys
    && (forall d :: d in before.tasks ==>
          (after.tasks[d] == if d in order then Record(before.tasks[d].data.(status := Dead), queue) else before.tasks[d]))
    && (forall k :: after.List(k) == (if k == DeadKey(queue) then Buried(before, order) else []) + before.List(k))
    && (forall k :: after.Members(k) == if k.PendingDepsKey? && k.name in order then {} else before.Members(k))
  }

  lemma {:induction false} BuriedSame(a: Db, b: Db, order: seq<Id>)
    requires a.tasks.Keys == b.tasks.Keys
    ensures Buried(a, order) == Buried(b, order)
    decreases |order|
  {
    if order != [] {
      BuriedSame(a, b, order[1..]);
    }
  }

  lemma OneFails(db: Db, queue: string, d: Id)
    ensures Fails(db, queue, [d], FailOne(db, queue, d))
  {
    assert [d][1..] == [];
    assert Buried(db, [d]) == if d in db.tasks then [d] else [];
  }

  lemma FailsCompose(before: Db, mid: Db, after: Db, queue: string, d: Id, rest: seq<Id>)
    requires Fails(before, queue, [d], mid) && Fails(mid, queue, rest, after) && d !in rest
    ensures Fails(before, queue, [d] + rest, after)
  {
    var order := [d] + rest;
    assert forall x :: x in order <==> x == d || x in rest;
    BuriedJoin(before, mid, d, rest);
    forall k ensures after.List(k) == (if k == DeadKey(queue) then Buried(before, order) else []) + before.List(k) {
      if k == DeadKey(queue) {
        assert after.List(k) == Buried(mid, rest) + (Buried(before, [d]) + before.List(k));
        assert after.List(k) == (Buried(mid, rest) + Buried(before, [d])) + before.List(k);
      }
    }
  }

  lemma BuriedJoin(before: Db, mid: Db, d: Id, rest: seq<Id>)
    requires mid.tasks.Keys == before.tasks.Keys
    ensures Buried(before, [d] + rest) == Buried(mid, rest) + Buried(before, [d])
  {
    assert ([d] + rest)[1..] == rest && [d][1..] == [];
    assert Buried(before, []) == [];
    BuriedSame(mid, before, rest);
  }

  lemma {:induction false} FailLoopSpec(db: Db, queue: string, order: seq<Id>)
    requires NoDup(order)
    ensures Fails(db, queue, order, FailLoop(db, queue, order))
    decreases |order|
  {
    if order == [] {
    } else {
      OneFails(db, queue, order[0]);
      FailLoopSpec(FailOne(db, queue, order[0]), queue, order[1..]);
      FailsCompose(db, FailOne(db, queue, order[0]), FailLoop(db, queue, order), queue, order[0], order[1..]);
      assert order == [order[0]] + order[1..];
    }
  }

  /** Main result: what one uninterrupted run of the program's failure loop does. */
  lemma ProgramFails(cfg: Config, db: Db, done: Id, queue: string, o: Oracle)
    requires Enumerates(o.order, db.Members(TaskDepsKey(done)))
    ensures exists mid ::
      Fails(db, queue, o.order, mid) && Alike(Alone(cfg, db, FailListing(done, queue), o), mid.Del(TaskDepsKey(done)))
  {
    var mid := FailLoop(db, queue, o.order);
    FailLoopSpec(db, queue, o.order);
    AloneStep(cfg, db, FailListing(done, queue), o);
    if o.order != [] {
      FailureLoop(cfg, db, done, queue, o.order, o);
    } else {
      NothingListed(o.order, db.Members(TaskDepsKey(done)));
    }
  }
}
