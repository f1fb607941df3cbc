/** The worker's loop as a run of the protocol: what the method is proved to do is what a worker of any run can do. */
module LoopRuns {
  import opened Store
  import opened Commands
  import opened Protocol
  import opened Uninterrupted
  import opened Workers

  /** Of a configuration the worker's program depends on the way of release alone. */
  lemma {:induction false} SameProgram(cfg: Config, db: Db, w: Worker, id: WorkerId, o: Oracle)
    requires !cfg.atomicRelease
    ensures Alone(cfg, db, w, o) == Alone(PROGRAM, db, w, o)
    ensures Truthful(cfg, db, w, o) <==> Truthful(PROGRAM, db, w, o)
    ensures Path(cfg, db, w, id, o) == Path(PROGRAM, db, w, id, o)
    decreases Phase(w), Left(w)
  {
    if !w.Idle? {
      var c := Pick(w, o);
      StepsDown(cfg, db, w, o);
      assert WorkerCommand(cfg, w, c) == WorkerCommand(PROGRAM, w, c) && WorkerNext(cfg, db, w, c) == WorkerNext(PROGRAM, db, w, c);
      SameProgram(cfg, Do(db, WorkerCommand(cfg, w, c)), WorkerNext(cfg, db, w, c), id, o);
    }
  }

  /** The steps of one round: the poll, and what follows it. */
  function RoundPath(db: Db, p: Polled, id: WorkerId): seq<Step> {
    [WorkerStep(id, Poll(p.queue, p.fallThrough))] +
    Path(PROGRAM, db.PDequeue(p.queue).0, WorkerNext(PROGRAM, db, Idle, Poll(p.queue, p.fallThrough)), id, p.oracle)
  }

  function LoopPath(db: Db, log: seq<Polled>, id: WorkerId): seq<Step> {
    if log == [] then []
    else LoopPath(db, log[..|log| - 1], id) + RoundPath(Rounds(db, log[..|log| - 1]), log[|log| - 1], id)
  }

  ghost predicate LogTruthful(db: Db, log: seq<Polled>) {
    forall i :: 0 <= i < |log| ==> RoundTruthful(Rounds(db, log[..i]), log[i])
  }

  lemma {:induction false} PlayJoin(cfg: Config, s: State, a: seq<Step>, b: seq<Step>)
    requires Playable(cfg, s, a)
    ensures Play(cfg, s, a + b) == Play(cfg, Play(cfg, s, a), b)
    ensures Playable(cfg, s, a + b) <==> Playable(cfg, Play(cfg, s, a), b)
    decreases |a|
  {
    if a == [] {
      assert a + b == b;
    } else {
      assert (a + b)[1..] == a[1..] + b && (a + b)[0] == a[0];
      PlayJoin(cfg, After(cfg, s, a[0]), a[1..], b);
    }
  }

  lemma RoundIsRun(cfg: Config, s: State, p: Polled, id: WorkerId)
    requires !cfg.atomicRelease && id in s.workers && s.workers[id].Idle? && RoundTruthful(s.db, p)
    ensures Playable(cfg, s, RoundPath(s.db, p, id))
    ensures Play(cfg, s, RoundPath(s.db, p, id)) == State(OneRoundOf(s.db, p), s.clients, s.workers)
  {
    var s' := Polls(cfg, s, p, id);
    SameProgram(cfg, s'.db, s'.workers[id], id, p.oracle);
    AloneIsRun(cfg, s', id, p.oracle);
    var rest := Path(PROGRAM, s'.db, s'.workers[id], id, p.oracle);
    assert RoundPath(s.db, p, id) == [WorkerStep(id, Poll(p.queue, p.fallThrough))] + rest;
    assert RoundPath(s.db, p, id)[1..] == rest;
    assert s'.workers[id := Idle] == s.workers;
  }

  /** The first step of a round. */
  lemma Polls(cfg: Config, s: State, p: Polled, id: WorkerId) returns (s': State)
    requires id in s.workers && s.workers[id].Idle?
    ensures var poll := WorkerStep(id, Poll(p.queue, p.fallThrough)); Enabled(cfg, s, poll) && s' == After(cfg, s, poll)
    ensures s' == State(s.db.PDequeue(p.queue).0, s.clients, s.workers[id := WorkerNext(PROGRAM, s.db, Idle, Poll(p.queue, p.fallThrough))])
  {
    s' := After(cfg, s, WorkerStep(id, Poll(p.queue, p.fallThrough)));
  }

  /**
   * Main result: in any configuration without the script, the rounds of a worker's loop, one after
   * the other, are a path of enabled protocol steps; it leads to the store that the loop leaves,
   * and the worker is at its poll again.
   */
  lemma {:induction false} LoopIsRun(cfg: Config, s: State, log: seq<Polled>, id: WorkerId)
    requires !cfg.atomicRelease && id in s.workers && s.workers[id].Idle? && LogTruthful(s.db, log)
    ensures Playable(cfg, s, LoopPath(s.db, log, id))
    ensures Play(cfg, s, LoopPath(s.db, log, id)) == State(Rounds(s.db, log), s.clients, s.workers)
    decreases |log|
  {
    if log != [] {
      var before, last := log[..|log| - 1], log[|log| - 1];
      assert forall i :: 0 <= i < |before| ==> before[..i] == log[..i];
      LoopIsRun(cfg, s, before, id);
      var mid := State(Rounds(s.db, before), s.clients, s.workers);
      assert RoundTruthful(Rounds(s.db, log[..|log| - 1]), log[|log| - 1]);
      RoundIsRun(cfg, mid, last, id);
      PlayJoin(cfg, s, LoopPath(s.db, before, id), RoundPath(mid.db, last, id));
    }
  }

  lemma {:induction false} PlayExtends(cfg: Config, run: seq<State>, steps: seq<Step>, path: seq<Step>) returns (run': seq<State>)
    requires IsRun(cfg, run, steps) && Playable(cfg, run[|steps|], path)
    ensures IsRun(cfg, run', steps + path) && run <= run' && run'[|steps + path|] == Play(cfg, run[|steps|], path)
    decreases |path|
  {
    if path == [] {
      run' := run;
      assert steps + path == steps;
    } else {
      OneMore(cfg, run, steps, path[0]);
      var next := run + [After(cfg, run[|steps|], path[0])];
      run' := PlayExtends(cfg, next, steps + [path[0]], path[1..]);
      assert steps + path == (steps + [path[0]]) + path[1..];
    }
  }

  /** The log of TaskLoop is truthful. */
  lemma LoggedTruthful(db: Db, log: seq<Polled>, inputs: seq<Input>, turns: seq<string>)
    requires Logged(db, log, inputs, turns)
    ensures LogTruthful(db, log)
  {
    forall i | 0 <= i < |log| ensures RoundTruthful(Rounds(db, log[..i]), log[i]) {
      assert RoundLogged(db, log, i, inputs[i], turns[i]);
    }
  }

  /** So it continues any run in whose last state the worker polls. */
  lemma LoopExtendsRun(cfg: Config, run: seq<State>, steps: seq<Step>, log: seq<Polled>, id: WorkerId) returns (run': seq<State>)
    requires IsRun(cfg, run, steps) && !cfg.atomicRelease && id in run[|steps|].workers && run[|steps|].workers[id].Idle?
    requires LogTruthful(run[|steps|].db, log)
    ensures var s := run[|steps|]; var steps' := steps + LoopPath(s.db, log, id);
            IsRun(cfg, run', steps') && run <= run' && run'[|steps'|] == State(Rounds(s.db, log), s.clients, s.workers)
  {
    LoopIsRun(cfg, run[|steps|], log, id);
    run' := PlayExtends(cfg, run, steps, LoopPath(run[|steps|].db, log, id));
  }
}
