/**
 * The place of a task: what the lists, the sorted sets, the workers' memories, the clients and the
 * records say about where it is, and how a step moves it.
 */
module Places {
  import opened Basics
  import opened Keys
  import opened SortedSets
  import opened Tasks
  import opened Store
  import opened Release
  import opened Commands
  import opened Protocol
  import opened Bookkeeping

  datatype Place =
    | WithClient               // not (yet) routed by its client, or refused as a duplicate
    | Awaiting                 // has dependencies and was neither freed nor condemned
    | Listed(k: Key)           // on a queue list or on a dead list
    | Scored(k: Key)           // in the priority, delayed, retry or group set
    | ActiveBy(w: WorkerId)    // on the active list, being processed by worker w
    | Hand(w: WorkerId)        // only in the memory of worker w
    | Settled                  // acknowledged Processed, or Dead by its own failures

  // ---- what a place means in a state ----

  /** The task that only this worker may move: the one it processes, or the dependent it buries. */
  function Grip(w: Worker): Option<Id> {
    if w.FailPushing? then Some(w.dep) else Holds(w)
  }

  /** The gripped task is on the active list, too. */
  predicate OnActive(w: Worker) {
    w.Loading? || w.Running? || w.Unlisting?
  }

  /** The record is final: tasks condemned for a dependency keep a retry count of zero. */
  predicate Final(t: Task) {
    t.status == Processed || (t.status == Dead && t.retryCnt >= 1)
  }

  predicate Done(s: State, x: Id) {
    x in s.db.tasks && Final(s.db.tasks[x].data)
  }

  function ListOf(cfg: Config, x: Id, p: Place): Option<Key>
    requires x in cfg.tasks
  {
    match p
    case Listed(k) => Some(k)
    case ActiveBy(_) => Some(ActiveKey(cfg.tasks[x].queue))
    case _ => None
  }

  ghost predicate ListedRight(cfg: Config, s: State, x: Id, p: Place)
    requires x in cfg.tasks
  {
    forall k :: Times(s.db.List(k), x) == One(ListOf(cfg, x, p) == Some(k))
  }

  ghost predicate ScoredRight(s: State, x: Id, p: Place) {
    forall k :: Has(s.db.Ranks(k), x) <==> p == Scored(k)
  }

  /** What worker w (number v) has in its grip agrees with the place of x. */
  ghost predicate GripFits(v: WorkerId, w: Worker, x: Id, p: Place) {
    && (p == ActiveBy(v) <==> Grip(w) == Some(x) && OnActive(w))
    && (p == Hand(v) <==> Grip(w) == Some(x) && !OnActive(w))
  }

  ghost predicate GrippedRight(s: State, x: Id, p: Place) {
    forall w :: w in s.workers ==> GripFits(w, s.workers[w], x, p)
  }

  ghost predicate ClientFits(cfg: Config, s: State, x: Id, p: Place)
    requires x in s.clients
  {
    if cfg.Depends(x) == [] then p != Awaiting && (p == WithClient <==> !s.clients[x].Accepted?)
    else p != WithClient
  }

  /**
   * Task x is at place p and nowhere else, and there once: the lists, the sorted sets, the
   * workers' hands, the record and the client all agree on it.
   */
  ghost predicate At(cfg: Config, s: State, x: Id, p: Place) {
    && x in cfg.tasks && x in s.clients
    && ListedRight(cfg, s, x, p) && ScoredRight(s, x, p) && GrippedRight(s, x, p)
    && (p.ActiveBy? || p.Hand? ==> p.w in s.workers)
    && (Done(s, x) <==> p == Settled)
    && ClientFits(cfg, s, x, p)
  }

  lemma Found(cfg: Config, s: State, x: Id, p: Place)
    requires At(cfg, s, x, p)
    ensures p.Listed? ==> Times(s.db.List(p.k), x) == 1
    ensures p.Scored? ==> Has(s.db.Ranks(p.k), x)
    ensures p.ActiveBy? ==> Times(s.db.List(ActiveKey(cfg.tasks[x].queue)), x) == 1
    ensures p.ActiveBy? ==> Grip(s.workers[p.w]) == Some(x) && OnActive(s.workers[p.w])
    ensures p.Hand? ==> Grip(s.workers[p.w]) == Some(x) && !OnActive(s.workers[p.w])
  {
    if p.ActiveBy? || p.Hand? {
      assert GripFits(p.w, s.workers[p.w], x, p);
    }
  }

  /** No task is at two places. */
  lemma OnePlace(cfg: Config, s: State, x: Id, p: Place, q: Place)
    requires At(cfg, s, x, p) && At(cfg, s, x, q)
    ensures p == q
  {
    Found(cfg, s, x, p);
    Found(cfg, s, x, q);
    if p.ActiveBy? || p.Hand? { assert GripFits(p.w, s.workers[p.w], x, q); }
    if q.ActiveBy? || q.Hand? { assert GripFits(q.w, s.workers[q.w], x, p); }
  }

  // ---- how a step moves a task ----

  /** The command takes x from one container to another, or between a container and a worker. */
  ghost predicate Takes(db: Db, c: Command, x: Id) {
    match c
    case ZAdd(_, id, _) => id == x
    case RPush(_, id) => id == x
    case LPush(_, id) => id == x
    case LRem(_, id) => id == x
    case LPop(k) => db.List(k) != [] && db.List(k)[0] == x
    case PDequeue(q) => db.PDequeue(q).1 == Got(x)
    case MoveDue(k, _, now) => x in Ids(db.Ranks(k)[..BatchCount(db.Ranks(k), now, BATCH_SIZE)])
    case ReleaseAll(done, order) => x in order && LastFor(db, done, x)
    case _ => false
  }

  /** Where the command takes x; w is the worker that issued it. */
  ghost function Target(db: Db, c: Command, w: WorkerId, x: Id): Place
    requires Takes(db, c, x)
  {
    match c
    case ZAdd(k, _, _) => Scored(k)
    case RPush(k, _) => Listed(k)
    case LPush(k, _) => if k.ActiveKey? then ActiveBy(w) else Listed(k)
    case LRem(_, _) => Hand(w)
    case LPop(_) => Hand(w)
    case PDequeue(_) => ActiveBy(w)
    case MoveDue(_, dest, _) => Listed(dest)
    case ReleaseAll(_, _) => Listed(QueueKey(db.tasks[x].queue))
  }

  function Actor(step: Step): WorkerId {
    if step.WorkerStep? then step.w else 0
  }

  /** A worker stores the record of x: a final one settles the task, any other leaves it in hand. */
  ghost predicate Stores(c: Command, step: Step, x: Id) {
    step.WorkerStep? && c.HSet? && c.id == x
  }

  /** The place of x after a step, from its place before. */
  ghost function Moved(cfg: Config, s: State, step: Step, x: Id, p: Place): Place {
    var c := CommandOf(cfg, s, step);
    if Takes(s.db, c, x) then Target(s.db, c, Actor(step), x)
    else if Stores(c, step, x) then (if Final(c.record.data) then Settled else Hand(Actor(step)))
    else p
  }

  /** The places from which a command may take x (or in which a worker may store it). */
  ghost predicate Origin(cfg: Config, s: State, c: Command, step: Step, x: Id, p: Place)
    requires x in cfg.tasks
  {
    var q := cfg.tasks[x].queue;
    var w := Actor(step);
    match c
    case ZAdd(k, _, _) => p == if step.WorkerStep? then Hand(w) else WithClient
    case RPush(k, _) => p == (if step.WorkerStep? then Awaiting else WithClient) && k == QueueKey(q)
    case LPush(k, _) => p == Hand(w) && (k.DeadKey? || k == ActiveKey(q))
    case LRem(k, _) => p == ActiveBy(w) && k == ActiveKey(q)
    case LPop(k) => p == Listed(k)
    case PDequeue(queue) => p == Scored(PriorityKey(queue)) && queue == q
    case MoveDue(k, dest, _) => p == Scored(k) && dest == QueueKey(q)
    case ReleaseAll(_, _) => p == Awaiting && x in s.db.tasks && s.db.tasks[x].queue == q
    case HSet(_, _) => p == Hand(w) || p == Awaiting
    case _ => false
  }

  /** The step takes or stores x only from where it may. */
  ghost predicate Proper(cfg: Config, s: State, step: Step, x: Id, p: Place)
    requires x in cfg.tasks
  {
    var c := CommandOf(cfg, s, step);
    Takes(s.db, c, x) || Stores(c, step, x) ==> Origin(cfg, s, c, step, x, p)
  }

  lemma ListedMoves(cfg: Config, s: State, step: Step, x: Id, p: Place)
    requires At(cfg, s, x, p) && Proper(cfg, s, step, x, p) && Enabled(cfg, s, step)
    requires RanksValid(s.db)
    ensures ListedRight(cfg, After(cfg, s, step), x, Moved(cfg, s, step, x, p))
  {
    var c := CommandOf(cfg, s, step);
    EnabledOrdered(cfg, s, step);
    forall k ensures Times(Do(s.db, c).List(k), x) == One(ListOf(cfg, x, Moved(cfg, s, step, x, p)) == Some(k)) {
      TimesExact(s.db, c, k, x);
      assert x in s.db.List(k) <==> Times(s.db.List(k), x) > 0;
      if Takes(s.db, c, x) {
        TakenLists(cfg, s, step, x, p, k, x in s.db.List(k));
      } else {
        UntakenLists(s.db, c, x, k);
      }
    }
  }

  lemma TakenLists(cfg: Config, s: State, step: Step, x: Id, p: Place, k: Key, on: bool)
    requires x in cfg.tasks && Takes(s.db, CommandOf(cfg, s, step), x) && Origin(cfg, s, CommandOf(cfg, s, step), step, x, p)
    requires on <==> ListOf(cfg, x, p) == Some(k)
    ensures var c := CommandOf(cfg, s, step);
            One(ListOf(cfg, x, Target(s.db, c, Actor(step), x)) == Some(k)) ==
              One(on) + One(Commands.Lists(s.db, c, k, x)) - One(Unlists(s.db, c, k, x) && on)
  {
    var c := CommandOf(cfg, s, step);
    if c.PDequeue? {
      assert s.db.Ranks(PriorityKey(c.queue))[0].id == x;
    }
  }

  lemma UntakenLists(db: Db, c: Command, x: Id, k: Key)
    requires !Takes(db, c, x)
    ensures !Commands.Lists(db, c, k, x) && !Unlists(db, c, k, x)
  {
  }

  lemma ScoredMoves(cfg: Config, s: State, step: Step, x: Id, p: Place)
    requires x in cfg.tasks && ScoredRight(s, x, p) && Proper(cfg, s, step, x, p) && Enabled(cfg, s, step)
    requires RanksValid(s.db)
    ensures ScoredRight(After(cfg, s, step), x, Moved(cfg, s, step, x, p))
  {
    var c := CommandOf(cfg, s, step);
    EnabledOrdered(cfg, s, step);
    forall k ensures Has(Do(s.db, c).Ranks(k), x) <==> Moved(cfg, s, step, x, p) == Scored(k) {
      RanksExact(s.db, c, k, x);
      ScoredMovesAt(cfg, s, step, x, p, k);
    }
  }

  lemma ScoredMovesAt(cfg: Config, s: State, step: Step, x: Id, p: Place, k: Key)
    requires x in cfg.tasks && Proper(cfg, s, step, x, p)
    requires Has(s.db.Ranks(k), x) <==> p == Scored(k)
    ensures var c := CommandOf(cfg, s, step);
            Moved(cfg, s, step, x, p) == Scored(k) <==>
            (c.ZAdd? && c.k == k && c.id == x) || (Has(s.db.Ranks(k), x) && !Unranks(s.db, c, k, x))
  {
  }

  // ---- the workers' grips ----

  lemma GripMoves(cfg: Config, s: State, step: Step, x: Id, p: Place)
    requires cfg.Valid() && x in cfg.tasks && Proper(cfg, s, step, x, p) && step.WorkerStep? && Enabled(cfg, s, step)
    requires WorkerRight(cfg, s, s.workers[step.w]) && RecordsKept(cfg, s)
    requires GripFits(step.w, s.workers[step.w], x, p)
    ensures GripFits(step.w, After(cfg, s, step).workers[step.w], x, Moved(cfg, s, step, x, p)) ||
            (Stores(CommandOf(cfg, s, step), step, x) && s.workers[step.w].FailSaving? && Final(CommandOf(cfg, s, step).record.data))
  {
    var w := s.workers[step.w];
    if w.Idle? || w.Popping? {
      DequeueGrip(cfg, s, step, x, p);
    } else if Holds(w).Some? {
      assert RecordKept(cfg, Holds(w).value, s.db.tasks[Holds(w).value]);
      HolderGrip(cfg, s, step, x, p);
    } else if Failing(w) {
      FailGrip(cfg, s, step, x, p);
    } else {
      ReleaseGrip(cfg, s, step, x, p);
    }
  }

  lemma DequeueGrip(cfg: Config, s: State, step: Step, x: Id, p: Place)
    requires step.WorkerStep? && Enabled(cfg, s, step)
    requires s.workers[step.w].Idle? || s.workers[step.w].Popping?
    requires GripFits(step.w, s.workers[step.w], x, p)
    ensures GripFits(step.w, After(cfg, s, step).workers[step.w], x, Moved(cfg, s, step, x, p))
  {
  }

  lemma HolderGrip(cfg: Config, s: State, step: Step, x: Id, p: Place)
    requires cfg.Valid() && x in cfg.tasks && step.WorkerStep? && Enabled(cfg, s, step) && Holds(s.workers[step.w]).Some?
    requires HoldsRight(cfg, s, s.workers[step.w])
    requires RecordKept(cfg, Holds(s.workers[step.w]).value, s.db.tasks[Holds(s.workers[step.w]).value])
    requires GripFits(step.w, s.workers[step.w], x, p)
    ensures GripFits(step.w, After(cfg, s, step).workers[step.w], x, Moved(cfg, s, step, x, p))
  {
  }

  lemma ReleaseGrip(cfg: Config, s: State, step: Step, x: Id, p: Place)
    requires step.WorkerStep? && Enabled(cfg, s, step)
    requires Releasing(s.workers[step.w]) || s.workers[step.w].CheckingPause?
    requires GripFits(step.w, s.workers[step.w], x, p)
    ensures GripFits(step.w, After(cfg, s, step).workers[step.w], x, Moved(cfg, s, step, x, p))
  {
  }

  lemma FailGrip(cfg: Config, s: State, step: Step, x: Id, p: Place)
    requires step.WorkerStep? && Enabled(cfg, s, step) && Failing(s.workers[step.w])
    requires s.workers[step.w].FailSaving? ==> s.workers[step.w].data.id == s.workers[step.w].dep
    requires GripFits(step.w, s.workers[step.w], x, p)
    ensures GripFits(step.w, After(cfg, s, step).workers[step.w], x, Moved(cfg, s, step, x, p)) ||
            (Stores(CommandOf(cfg, s, step), step, x) && s.workers[step.w].FailSaving? && Final(CommandOf(cfg, s, step).record.data))
  {
  }

  /** A step leaves the grip of the workers that do not take it. */
  lemma OtherGrip(cfg: Config, s: State, step: Step, x: Id, p: Place, v: WorkerId)
    requires x in cfg.tasks && Proper(cfg, s, step, x, p)
    requires v in s.workers && (step.WorkerStep? ==> v != step.w)
    requires GripFits(v, s.workers[v], x, p)
    ensures GripFits(v, s.workers[v], x, Moved(cfg, s, step, x, p))
  {
  }
}
