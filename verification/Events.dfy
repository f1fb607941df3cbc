/** What happens in a run, and how often. */
module Events {
  import opened Basics
  import opened Keys
  import opened Tasks
  import opened Store
  import opened Release
  import opened Protocol

  /** All of these are steps of a worker. */
  datatype Event =
    | Saves(x: Id, status: Status)   // stores the result of an attempt at x
    | Finishes(x: Id)                // stores a final one: Processed or Dead
    | Opens(x: Id)                   // lists the dependents of the finished x
    | Enters(x: Id)                  // enters the handler of x
    | Starts(x: Id)                  // lists the dependents of the processed x (SMEMBERS, or the script)
    | Closes(x: Id)                  // lists the dependents of the dead x
    | Names(x: Id, d: Id)            // lists the dependents of the processed x, and d is among them
    | Calls(d: Id)                   // lists the dependents of some processed task, and d is among them
    | Dooms(d: Id)                   // lists the dependents of some dead task, and d is among them
    | Sees(d: Id)                    // finds that nothing is pending for d (SCARD, or the script)
    | Asks(d: Id)                    // looks whether anything is pending for d
    | Frees(d: Id)                   // puts the waiting task d on a queue
    | Condemns(d: Id)                // marks the record of the waiting task d as dead
    | Grants(d: Id)                  // frees or condemns d
    | Buries(d: Id)                  // puts d on a dead list
    | Forgets(d: Id)                 // deletes pending_deps of a condemned d

  /** A worker in state w does it with its next command. */
  ghost predicate By(cfg: Config, db: Db, w: Worker, c: Choice, e: Event) {
    match e
    case Saves(x, status) => w.Saving? && w.task.id == x && w.status == status
    case Finishes(x) => w.Saving? && w.task.id == x && (w.status == Processed || w.status == Dead)
    case Opens(x) => (w.ReleaseListing? || w.FailListing?) && w.done == x
    case Enters(x) => w.Loading? && w.id == x && x in db.tasks
    case Starts(x) => w == ReleaseListing(x)
    case Closes(x) => w.FailListing? && w.done == x
    case Names(x, d) => w == ReleaseListing(x) && d in db.Members(TaskDepsKey(x))
    case Calls(d) => w.ReleaseListing? && d in db.Members(TaskDepsKey(w.done))
    case Dooms(d) => w.FailListing? && d in db.Members(TaskDepsKey(w.done))
    case Sees(d) =>
      || (w.Counting? && w.dep == d && db.Members(PendingDepsKey(d)) == {})
      || (ScriptNames(cfg, w, c, d) && LastFor(db, w.done, d))
    case Asks(d) => (w.Counting? && w.dep == d) || ScriptNames(cfg, w, c, d)
    case Frees(d) => FreesNow(cfg, db, w, c, d)
    case Condemns(d) => w.FailSaving? && w.dep == d
    case Grants(d) => FreesNow(cfg, db, w, c, d) || (w.FailSaving? && w.dep == d)
    case Buries(d) => w.FailPushing? && w.dep == d
    case Forgets(d) => w.FailClearing? && w.dep == d
  }

  /** The worker runs the release script, which names d. */
  predicate ScriptNames(cfg: Config, w: Worker, c: Choice, d: Id) {
    cfg.atomicRelease && w.ReleaseListing? && c.Order? && d in c.members
  }

  /** The worker pushes d, or runs the script, which finds d waiting for nothing else. */
  predicate FreesNow(cfg: Config, db: Db, w: Worker, c: Choice, d: Id) {
    (w.Pushing? && w.dep == d) || (ScriptNames(cfg, w, c, d) && LastFor(db, w.done, d))
  }

  ghost predicate Occurs(cfg: Config, s: State, step: Step, e: Event) {
    step.WorkerStep? && step.w in s.workers && By(cfg, s.db, s.workers[step.w], step.choice, e)
  }

  /** How often it happens in the first n steps. */
  ghost function Count(cfg: Config, run: seq<State>, steps: seq<Step>, n: nat, e: Event): nat
    requires n <= |steps| < |run|
  {
    if n == 0 then 0
    else Count(cfg, run, steps, n - 1, e) + if Occurs(cfg, run[n - 1], steps[n - 1], e) then 1 else 0
  }

  lemma {:induction false} CountGrows(cfg: Config, run: seq<State>, steps: seq<Step>, m: nat, n: nat, e: Event)
    requires m <= n <= |steps| < |run|
    ensures Count(cfg, run, steps, m, e) <= Count(cfg, run, steps, n, e)
  {
    if m < n {
      CountGrows(cfg, run, steps, m, n - 1, e);
    }
  }

  lemma {:induction false} Happened(cfg: Config, run: seq<State>, steps: seq<Step>, n: nat, e: Event)
    requires n <= |steps| < |run|
    ensures Count(cfg, run, steps, n, e) >= 1 <==> exists j :: 0 <= j < n && Occurs(cfg, run[j], steps[j], e)
  {
    if n > 0 {
      Happened(cfg, run, steps, n - 1, e);
    }
  }

  /** One event that always comes with another happens at most as often. */
  lemma {:induction false} CountLess(cfg: Config, run: seq<State>, steps: seq<Step>, n: nat, e: Event, f: Event)
    requires n <= |steps| < |run|
    requires forall j :: 0 <= j < n && Occurs(cfg, run[j], steps[j], e) ==> Occurs(cfg, run[j], steps[j], f)
    ensures Count(cfg, run, steps, n, e) <= Count(cfg, run, steps, n, f)
  {
    if n > 0 {
      CountLess(cfg, run, steps, n - 1, e, f);
    }
  }

  /** Runs that begin alike count alike. */
  lemma {:induction false} CountSame(cfg: Config, run: seq<State>, steps: seq<Step>, run': seq<State>, steps': seq<Step>, n: nat, e: Event)
    requires n <= |steps| < |run| && n <= |steps'| < |run'| && run[..n] == run'[..n] && steps[..n] == steps'[..n]
    ensures Count(cfg, run, steps, n, e) == Count(cfg, run', steps', n, e)
  {
    if n > 0 {
      assert run[..n][n - 1] == run'[..n][n - 1] && steps[..n][n - 1] == steps'[..n][n - 1];
      assert run[..n - 1] == run[..n][..n - 1] && run'[..n - 1] == run'[..n][..n - 1];
      assert steps[..n - 1] == steps[..n][..n - 1] && steps'[..n - 1] == steps'[..n][..n - 1];
      CountSame(cfg, run, steps, run', steps', n - 1, e);
    }
  }
}
