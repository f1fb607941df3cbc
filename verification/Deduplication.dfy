/** Unique keys under interleaved submissions. */
module Deduplication {
  import opened Basics
  import opened Keys
  import opened Commands
  import opened Protocol

  /** x is submitted with enqueue, without dependencies, to queue q under this unique key. */
  ghost predicate Keyed(cfg: Config, x: Id, q: string, key: string) {
    x in cfg.tasks && x !in cfg.delayed && cfg.tasks[x].dependsOn == [] &&
    cfg.tasks[x].queue == q && cfg.tasks[x].uniqueKey == Some(key)
  }

  /** The submission got past the deduplication script. */
  predicate Passed(c: Client) {
    c.Routing? || c.Accepted?
  }

  /** The submissions under this key that got past the script. */
  ghost function Winners(cfg: Config, s: State, q: string, key: string): set<Id> {
    set x | x in s.clients && Keyed(cfg, x, q, key) && Passed(s.clients[x])
  }

  ghost predicate OnCourse(cfg: Config, s: State, q: string, key: string) {
    forall x :: x in s.clients && Keyed(cfg, x, q, key) ==>
      var c := s.clients[x]; c.Fresh? || c.CheckingKey? || c.Rejected? || Passed(c)
  }

  /** The key is in the set exactly if somebody won, only one did, and nobody lost before that. */
  ghost predicate OneWinner(cfg: Config, s: State, q: string, key: string) {
    && OnCourse(cfg, s, q, key)
    && (key in s.db.Members(DedupKey(q)) ==> exists x :: Winners(cfg, s, q, key) == {x})
    && (key !in s.db.Members(DedupKey(q)) ==> Winners(cfg, s, q, key) == {})
    && (forall x :: x in s.clients && Keyed(cfg, x, q, key) && s.clients[x].Rejected? ==> key in s.db.Members(DedupKey(q)))
  }

  /** Only a submission under the key itself touches it; an acknowledgement does not. */
  lemma KeyFrame(cfg: Config, s: State, step: Step, q: string, key: string)
    requires cfg.Valid() && Enabled(cfg, s, step) && OnCourse(cfg, s, q, key)
    requires !(step.ClientStep? && Keyed(cfg, step.id, q, key) && s.clients[step.id].CheckingKey?)
    requires step.ClientStep? && s.clients[step.id].CheckingKey? ==> cfg.tasks[step.id].dependsOn == [] && step.id !in cfg.delayed
    ensures key in After(cfg, s, step).db.Members(DedupKey(q)) <==> key in s.db.Members(DedupKey(q))
  {
    EnabledOrdered(cfg, s, step);
    SetFrame(s.db, CommandOf(cfg, s, step), DedupKey(q));
  }

  /** Only tasks without dependencies get as far as the script. */
  ghost predicate ChecksPlain(cfg: Config, s: State) {
    forall x :: x in s.clients && x in cfg.tasks && s.clients[x].CheckingKey? ==> cfg.tasks[x].dependsOn == [] && x !in cfg.delayed
  }

  lemma StepDedups(cfg: Config, s: State, s': State, step: Step, q: string, key: string)
    requires cfg.Valid() && Next(cfg, s, step, s') && ChecksPlain(cfg, s) && OneWinner(cfg, s, q, key)
    ensures ChecksPlain(cfg, s') && OneWinner(cfg, s', q, key)
  {
    if step.ClientStep? {
      ClientDedups(cfg, s, s', step, q, key);
    } else {
      KeyFrame(cfg, s, step, q, key);
      assert s'.clients == s.clients;
      assert Winners(cfg, s', q, key) == Winners(cfg, s, q, key);
    }
  }

  lemma ClientDedups(cfg: Config, s: State, s': State, step: Step, q: string, key: string)
    requires cfg.Valid() && Next(cfg, s, step, s') && ChecksPlain(cfg, s) && OneWinner(cfg, s, q, key)
    requires step.ClientStep?
    ensures ChecksPlain(cfg, s') && OneWinner(cfg, s', q, key)
  {
    var x := step.id;
    var before, after := Winners(cfg, s, q, key), Winners(cfg, s', q, key);
    if Keyed(cfg, x, q, key) && s.clients[x].CheckingKey? {
      SetFrame(s.db, CommandOf(cfg, s, step), DedupKey(q));
      if key in s.db.Members(DedupKey(q)) {
        assert after == before;
      } else {
        assert after == {x};
      }
    } else {
      KeyFrame(cfg, s, step, q, key);
      assert after == before;
    }
  }

  lemma StartDedups(cfg: Config, s: State, q: string, key: string)
    requires Init(cfg, s)
    ensures ChecksPlain(cfg, s) && OneWinner(cfg, s, q, key)
  {
    assert Winners(cfg, s, q, key) == {};
  }

  lemma {:induction false} DedupsThroughout(cfg: Config, run: seq<State>, steps: seq<Step>, n: nat, q: string, key: string)
    requires IsRun(cfg, run, steps) && n <= |steps|
    ensures ChecksPlain(cfg, run[n]) && OneWinner(cfg, run[n], q, key)
  {
    if n == 0 {
      StartDedups(cfg, run[0], q, key);
    } else {
      DedupsThroughout(cfg, run, steps, n - 1, q, key);
      RunStep(cfg, run, steps, n);
      StepDedups(cfg, run[n - 1], run[n], steps[n - 1], q, key);
    }
  }

  /**
   * Main result: however submissions interleave with each other and with workers, of the tasks
   * submitted under one unique key of a queue at most one is accepted; and a submission is
   * refused only if another one under the same key got through. (The worker never removes a
   * key, so this holds for good.)
   */
  lemma OneAcceptedPerKey(cfg: Config, run: seq<State>, steps: seq<Step>, n: nat, x: Id, y: Id, q: string, key: string)
    requires IsRun(cfg, run, steps) && n <= |steps| && Keyed(cfg, x, q, key) && Keyed(cfg, y, q, key)
    requires x in run[n].clients && y in run[n].clients
    ensures run[n].clients[x].Accepted? && run[n].clients[y].Accepted? ==> x == y
    ensures run[n].clients[x].Rejected? ==>
      exists z :: z != x && z in run[n].clients && Keyed(cfg, z, q, key) && Passed(run[n].clients[z])
  {
    DedupsThroughout(cfg, run, steps, n, q, key);
    var winners := Winners(cfg, run[n], q, key);
    if run[n].clients[x].Accepted? && run[n].clients[y].Accepted? {
      assert x in winners && y in winners;
    }
    if run[n].clients[x].Rejected? {
      var z :| winners == {z};
      assert z in winners;
    }
  }
}
