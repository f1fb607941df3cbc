/**
 * How many workers are in which part of the program: each part is entered with one kind of event
 * and left with another, so the workers in it are what the two counts differ by.
 */
module Flows {
  import opened Basics
  import opened Store
  import opened Commands
  import opened Protocol
  import opened Bookkeeping
  import opened Events

  datatype Part =
    | ToList(x: Id)      // has finished x and is about to list its dependents
    | ToRelease(d: Id)   // has listed d, and may still free it
    | ToPush(d: Id)      // has seen that nothing is pending for d
    | ToDoom(d: Id)      // has listed d, and may still condemn it
    | ToBury(d: Id)      // has condemned d

  predicate In(w: Worker, p: Part) {
    match p
    case ToList(x) => (w.ReleaseListing? || w.FailListing?) && w.done == x
    case ToRelease(d) => (Releasing(w) && d in Todo(w)) || Decides(w, d)
    case ToPush(d) => (w.Fetching? || w.Pushing?) && w.dep == d
    case ToDoom(d) => (Failing(w) && d in Todo(w)) || (w.FailSaving? && w.dep == d)
    case ToBury(d) => w.FailPushing? && w.dep == d
  }

  /** With what event a worker gets there, and with what event it leaves. */
  function Entry(p: Part): Event {
    match p
    case ToList(x) => Finishes(x)
    case ToRelease(d) => Calls(d)
    case ToPush(d) => Sees(d)
    case ToDoom(d) => Dooms(d)
    case ToBury(d) => Condemns(d)
  }

  function Exit(p: Part): Event {
    match p
    case ToList(x) => Opens(x)
    case ToRelease(d) => Frees(d)
    case ToPush(d) => Frees(d)
    case ToDoom(d) => Condemns(d)
    case ToBury(d) => Buries(d)
  }

  /** There is no other way out. */
  predicate Narrow(p: Part) {
    !p.ToRelease?
  }

  /** The worker's next step does not bring more out of the part than into it. */
  ghost predicate Balanced(cfg: Config, db: Db, w: Worker, c: Choice, p: Part) {
    var before := One(In(w, p)) + One(By(cfg, db, w, c, Entry(p)));
    var after := One(In(WorkerNext(cfg, db, w, c), p)) + One(By(cfg, db, w, c, Exit(p)));
    after <= before && (Narrow(p) ==> after == before)
  }

  lemma WorkerFlows(cfg: Config, s: State, w: Worker, c: Choice, p: Part)
    requires WorkerRight(cfg, s, w) && Fits(s.db, w, c) && RecordsKept(cfg, s)
    ensures Balanced(cfg, s.db, w, c, p)
  {
    match p
    case ToList(x) => Lists(cfg, s, w, c, x);
    case ToRelease(d) => Apart(w, d); Releasers(cfg, s.db, w, c, d);
    case ToPush(d) =>
      if w.Fetching? { assert Knows(w, w.dep) && w.dep in s.db.tasks; }
      Pushes(cfg, s.db, w, c, d);
    case ToDoom(d) =>
      Apart(w, d);
      if w.FailFetching? && w.todo != [] { assert Knows(w, w.todo[0]) && w.todo[0] in s.db.tasks; }
      Dooming(cfg, s.db, w, c, d);
    case ToBury(d) => Burying(cfg, s.db, w, c, d);
  }

  lemma Lists(cfg: Config, s: State, w: Worker, c: Choice, x: Id)
    requires HoldsRight(cfg, s, w) && Fits(s.db, w, c)
    ensures Balanced(cfg, s.db, w, c, ToList(x))
  {
  }

  lemma Pushes(cfg: Config, db: Db, w: Worker, c: Choice, d: Id)
    requires w.Fetching? ==> w.dep in db.tasks
    ensures Balanced(cfg, db, w, c, ToPush(d))
  {
  }

  lemma Burying(cfg: Config, db: Db, w: Worker, c: Choice, d: Id)
    ensures Balanced(cfg, db, w, c, ToBury(d))
  {
  }

  lemma Releasers(cfg: Config, db: Db, w: Worker, c: Choice, d: Id)
    requires Fits(db, w, c) && (Current(w) == Some(d) ==> d !in Todo(w))
    requires Todo(w) != [] ==> (d in Todo(w)[1..] <==> d in Todo(w) && d != Todo(w)[0])
    ensures Balanced(cfg, db, w, c, ToRelease(d))
  {
  }

  lemma Dooming(cfg: Config, db: Db, w: Worker, c: Choice, d: Id)
    requires Fits(db, w, c) && (Current(w) == Some(d) ==> d !in Todo(w))
    requires Todo(w) != [] ==> (d in Todo(w)[1..] <==> d in Todo(w) && d != Todo(w)[0])
    requires w.FailFetching? && w.todo != [] ==> w.todo[0] in db.tasks
    ensures Balanced(cfg, db, w, c, ToDoom(d))
  {
    if Failing(w) {
      if w.FailFetching? { DoomingNext(cfg, db, w, c, d); } else { DoomingLoop(cfg, db, w, c, d); }
    } else {
      DoomingNot(cfg, db, w, c, d);
    }
  }

  lemma DoomingNot(cfg: Config, db: Db, w: Worker, c: Choice, d: Id)
    requires !Failing(w)
    ensures Balanced(cfg, db, w, c, ToDoom(d))
  {
  }

  lemma DoomingNext(cfg: Config, db: Db, w: Worker, c: Choice, d: Id)
    requires w.FailFetching? && (w.todo != [] ==> w.todo[0] in db.tasks && (d in w.todo[1..] <==> d in w.todo && d != w.todo[0]))
    ensures Balanced(cfg, db, w, c, ToDoom(d))
  {
  }

  lemma DoomingLoop(cfg: Config, db: Db, w: Worker, c: Choice, d: Id)
    requires Fits(db, w, c) && Failing(w) && !w.FailFetching? && (Current(w) == Some(d) ==> d !in Todo(w))
    ensures Balanced(cfg, db, w, c, ToDoom(d))
  {
  }

  /** What a loop is busy with, and its first dependent, it names only once. */
  lemma Apart(w: Worker, d: Id)
    requires LoopDistinct(w)
    ensures Current(w) == Some(d) ==> d !in Todo(w)
    ensures Todo(w) != [] ==> (d in Todo(w)[1..] <==> d in Todo(w) && d != Todo(w)[0])
  {
    if Todo(w) != [] {
      TailApart(Todo(w));
      assert Todo(w) == [Todo(w)[0]] + Todo(w)[1..];
    }
  }

  function Workforce(s: State, p: Part): set<WorkerId> {
    set w | w in s.workers && In(s.workers[w], p)
  }

  lemma SetMoves(before: set<WorkerId>, after: set<WorkerId>, w: WorkerId)
    requires forall v :: v != w ==> (v in before <==> v in after)
    ensures |after| + One(w in before) == |before| + One(w in after)
  {
    if w in before && w !in after {
      assert before == after + {w};
    } else if w !in before && w in after {
      assert after == before + {w};
    } else {
      assert after == before;
    }
  }

  lemma StepFlows(cfg: Config, s: State, step: Step, s': State, p: Part)
    requires Kept(cfg, s) && Next(cfg, s, step, s')
    ensures var before, after := |Workforce(s, p)| + One(Occurs(cfg, s, step, Entry(p))), |Workforce(s', p)| + One(Occurs(cfg, s, step, Exit(p)));
            after <= before && (Narrow(p) ==> after == before)
  {
    if step.WorkerStep? {
      assert WorkerRight(cfg, s, s.workers[step.w]);
      WorkerFlows(cfg, s, s.workers[step.w], step.choice, p);
      SetMoves(Workforce(s, p), Workforce(s', p), step.w);
    } else {
      assert Workforce(s, p) == Workforce(s', p);
    }
  }

  /** In every run: at most as many have left a part, or are in it, as have entered it. */
  lemma {:induction false} FlowsThroughout(cfg: Config, run: seq<State>, steps: seq<Step>, n: nat, p: Part)
    requires IsRun(cfg, run, steps) && n <= |steps|
    ensures |Workforce(run[n], p)| + Count(cfg, run, steps, n, Exit(p)) <= Count(cfg, run, steps, n, Entry(p))
    ensures Narrow(p) ==> |Workforce(run[n], p)| + Count(cfg, run, steps, n, Exit(p)) == Count(cfg, run, steps, n, Entry(p))
  {
    if n == 0 {
      assert Workforce(run[0], p) == {};
    } else {
      FlowsThroughout(cfg, run, steps, n - 1, p);
      var s, s' := StatesAt(cfg, run, steps, n);
      StepFlows(cfg, s, steps[n - 1], s', p);
    }
  }
}
