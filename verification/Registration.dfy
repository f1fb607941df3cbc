/**
 * The two ways in which the repository records what a task waits for: the client writes all of
 * pending_deps first and then the task_deps sets; dependencies::register alternates. Between
 * any two commands, some dependency may finish and release its dependents.
 */
module Registration {
  import opened Basics
  import opened Keys
  import opened Tasks
  import opened Store
  import opened Release
  import opened Commands
  import opened Protocol
  import opened Redis
  import opened Clients

  function PendingFirst(d: Id, deps: seq<Id>): seq<Command> {
    if deps == [] then [] else [SAdd(PendingDepsKey(d), deps[0])] + PendingFirst(d, deps[1..])
  }

  function DependentsNext(d: Id, deps: seq<Id>): seq<Command> {
    if deps == [] then [] else [SAdd(TaskDepsKey(deps[0]), d)] + DependentsNext(d, deps[1..])
  }

  /** What the client's enqueue issues. */
  function TwoPhases(d: Id, deps: seq<Id>): seq<Command> {
    PendingFirst(d, deps) + DependentsNext(d, deps)
  }

  /** What dependencies::register issues. */
  function Alternating(d: Id, deps: seq<Id>): seq<Command> {
    if deps == [] then []
    else [SAdd(PendingDepsKey(d), deps[0]), SAdd(TaskDepsKey(deps[0]), d)] + Alternating(d, deps[1..])
  }

  /** Nothing is recorded for d yet. */
  ghost predicate Unrecorded(db: Db, d: Id) {
    db.Members(PendingDepsKey(d)) == {} && forall x :: d !in db.Members(TaskDepsKey(x))
  }

  /** Whoever can find d finds all its dependencies still pending. */
  ghost predicate Complete(db: Db, d: Id, deps: seq<Id>) {
    (exists x :: d in db.Members(TaskDepsKey(x))) ==> forall y :: y in deps ==> y in db.Members(PendingDepsKey(d))
  }

  /** That holds after every command. */
  ghost predicate Safe(db: Db, commands: seq<Command>, d: Id, deps: seq<Id>) {
    forall i :: 0 <= i <= |commands| ==> Complete(Apply(db, commands[..i]), d, deps)
  }

  // ---- the client's order ----

  lemma {:induction false} PendingPhase(db: Db, d: Id, deps: seq<Id>, i: nat)
    requires i <= |PendingFirst(d, deps)|
    ensures |PendingFirst(d, deps)| == |deps|
    ensures var after := Apply(db, PendingFirst(d, deps)[..i]);
            && (forall x :: after.Members(TaskDepsKey(x)) == db.Members(TaskDepsKey(x)))
            && (forall y :: y in db.Members(PendingDepsKey(d)) || y in deps[..i] ==> y in after.Members(PendingDepsKey(d)))
    decreases |deps|
  {
    if deps != [] {
      var all := PendingFirst(d, deps);
      var mid := Do(db, all[0]);
      assert all[1..] == PendingFirst(d, deps[1..]);
      if i > 0 {
        PendingPhase(mid, d, deps[1..], i - 1);
        assert all[..i][1..] == PendingFirst(d, deps[1..])[..i - 1];
        assert deps[..i] == [deps[0]] + deps[1..][..i - 1];
      } else {
        PendingPhase(mid, d, deps[1..], 0);
      }
    }
  }

  lemma {:induction false} DependentsPhase(db: Db, d: Id, deps: seq<Id>, i: nat)
    requires i <= |DependentsNext(d, deps)|
    ensures Apply(db, DependentsNext(d, deps)[..i]).Members(PendingDepsKey(d)) == db.Members(PendingDepsKey(d))
    decreases |deps|
  {
    if deps != [] && i > 0 {
      var all := DependentsNext(d, deps);
      assert all[1..] == DependentsNext(d, deps[1..]);
      assert all[..i][1..] == DependentsNext(d, deps[1..])[..i - 1];
      DependentsPhase(Do(db, all[0]), d, deps[1..], i - 1);
    }
  }

  /** The client's order is safe, for any number of dependencies and at any moment. */
  lemma TwoPhasesSafe(db: Db, d: Id, deps: seq<Id>)
    requires Unrecorded(db, d)
    ensures Safe(db, TwoPhases(d, deps), d, deps)
  {
    var first, second := PendingFirst(d, deps), DependentsNext(d, deps);
    forall i | 0 <= i <= |first + second| ensures Complete(Apply(db, (first + second)[..i]), d, deps) {
      if i <= |first| {
        assert (first + second)[..i] == first[..i];
        PendingPhase(db, d, deps, i);
      } else {
        PendingPhase(db, d, deps, |first|);
        assert first[..|first|] == first && deps[..|deps|] == deps;
        assert (first + second)[..i] == first + second[..i - |first|];
        ApplyMore(db, first, second[..i - |first|]);
        DependentsPhase(Apply(db, first), d, deps, i - |first|);
      }
    }
  }

  // ---- the alternating order ----

  /**
   * After the first dependency was recorded in the alternating order, that dependency is all
   * that d waits for: if it finishes now, d is put on its queue, whatever else it depends on.
   */
  lemma ReleasedTooEarly(db: Db, d: Id, deps: seq<Id>)
    requires Unrecorded(db, d) && d in db.tasks && deps != []
    ensures |Alternating(d, deps)| >= 2
    ensures var half := Apply(db, Alternating(d, deps)[..2]);
            && d in half.Members(TaskDepsKey(deps[0])) && LastFor(half, deps[0], d)
            && d in ReleaseOne(half, deps[0], d).List(QueueKey(db.tasks[d].queue))
  {
    FirstRecorded(db, d, deps);
  }

  lemma FirstRecorded(db: Db, d: Id, deps: seq<Id>)
    requires Unrecorded(db, d) && deps != []
    ensures |Alternating(d, deps)| >= 2
    ensures var half := Apply(db, Alternating(d, deps)[..2]);
            && half.tasks == db.tasks && d in half.Members(TaskDepsKey(deps[0]))
            && half.Members(PendingDepsKey(d)) == {deps[0]}
  {
    var all := Alternating(d, deps);
    assert all[..2] == [all[0], all[1]];
    ApplyTwo(db, all[0], all[1]);
  }

  lemma {:induction false} AlternatingGrows(db: Db, d: Id, deps: seq<Id>, i: nat)
    requires i <= |Alternating(d, deps)|
    ensures db.Members(PendingDepsKey(d)) <= Apply(db, Alternating(d, deps)[..i]).Members(PendingDepsKey(d))
    decreases |deps|
  {
    var all := Alternating(d, deps);
    if i >= 2 {
      var two := Do(Do(db, all[0]), all[1]);
      assert all[2..] == Alternating(d, deps[1..]);
      assert all[..i] == all[..2] + all[2..][..i - 2];
      ApplyMore(db, all[..2], all[2..][..i - 2]);
      assert all[..2] == [all[0], all[1]];
      ApplyTwo(db, all[0], all[1]);
      AlternatingGrows(two, d, deps[1..], i - 2);
    } else if i == 1 {
      assert all[..1] == [all[0]] && [all[0]][1..] == [];
    }
  }

  /** The alternating order is safe exactly for tasks with at most one different dependency. */
  lemma AlternatingSafeIff(db: Db, d: Id, deps: seq<Id>)
    requires Unrecorded(db, d)
    ensures Safe(db, Alternating(d, deps), d, deps) <==> forall x, y :: x in deps && y in deps ==> x == y
  {
    var all := Alternating(d, deps);
    if deps == [] {
    } else if forall x, y :: x in deps && y in deps ==> x == y {
      assert deps[0] in deps;
      forall i | 0 <= i <= |all| ensures Complete(Apply(db, all[..i]), d, deps) {
        SingleComplete(db, d, deps, i);
      }
    } else {
      FirstRecorded(db, d, deps);
      var half := Apply(db, all[..2]);
      var y :| y in deps && y != deps[0];
      assert !Complete(half, d, deps);
    }
  }

  lemma SingleComplete(db: Db, d: Id, deps: seq<Id>, i: nat)
    requires Unrecorded(db, d) && deps != [] && i <= |Alternating(d, deps)|
    requires forall y :: y in deps ==> y == deps[0]
    ensures Complete(Apply(db, Alternating(d, deps)[..i]), d, deps)
  {
    var all := Alternating(d, deps);
    if i == 0 {
    } else {
      var one := Do(db, all[0]);
      assert all[0] == SAdd(PendingDepsKey(d), deps[0]);
      assert all[..i] == [all[0]] + all[1..i];
      assert [all[0]][1..] == [];
      ApplyMore(db, [all[0]], all[1..i]);
      OneMoreGrows(one, d, deps, i);
    }
  }

  /** Whatever prefix follows the first command, deps[0] stays pending. */
  lemma OneMoreGrows(one: Db, d: Id, deps: seq<Id>, i: nat)
    requires deps != [] && 0 < i <= |Alternating(d, deps)| && deps[0] in one.Members(PendingDepsKey(d))
    ensures deps[0] in Apply(one, Alternating(d, deps)[1..i]).Members(PendingDepsKey(d))
  {
    var all := Alternating(d, deps);
    if i > 1 {
      var two := Do(one, all[1]);
      assert all[1..i] == [all[1]] + all[2..i];
      assert [all[1]][1..] == [];
      ApplyMore(one, [all[1]], all[2..i]);
      assert all[2..] == Alternating(d, deps[1..]);
      assert all[2..i] == all[2..][..i - 2];
      AlternatingGrows(two, d, deps[1..], i - 2);
    }
  }

  /** In the end the alternating order registers the same as the client's. */
  lemma {:induction false} AlternatingLinks(db: Db, d: Id, deps: seq<Id>)
    ensures Linked(db, Apply(db, Alternating(d, deps)), d, deps)
    decreases |deps|
  {
    if deps != [] {
      var all, rest := Alternating(d, deps), deps[1..];
      var two := Do(Do(db, all[0]), all[1]);
      assert all == [all[0], all[1]] + Alternating(d, rest);
      ApplyMore(db, [all[0], all[1]], Alternating(d, rest));
      ApplyTwo(db, all[0], all[1]);
      AlternatingLinks(two, d, rest);
      assert deps == [deps[0]] + rest;
      LinkedOneMore(db, two, Apply(two, Alternating(d, rest)), d, deps[0], rest);
    }
  }

  lemma LinkedOneMore(db: Db, two: Db, after: Db, d: Id, x: Id, rest: seq<Id>)
    requires two == db.SAdd(PendingDepsKey(d), x).SAdd(TaskDepsKey(x), d) && Linked(two, after, d, rest)
    ensures Linked(db, after, d, [x] + rest)
  {
    var deps := [x] + rest;
    assert forall y :: y in deps <==> y == x || y in rest;
    assert (set y | y in deps) == {x} + (set y | y in rest);
    forall k ensures two.Members(k) ==
      if k == PendingDepsKey(d) then db.Members(k) + {x} else if k == TaskDepsKey(x) then db.Members(k) + {d} else db.Members(k)
    {
    }
  }

  // ---- the programs ----

  /** dependencies::register. */
  method Register(redis: Server, d: Id, deps: seq<Id>)
    modifies redis
    ensures redis.Snapshot() == Apply(old(redis.Snapshot()), Alternating(d, deps))
    ensures Linked(old(redis.Snapshot()), redis.Snapshot(), d, deps)
  {
    ghost var before := redis.Snapshot();
    assert deps[0..] == deps;
    for i := 0 to |deps|
      invariant Apply(redis.Snapshot(), Alternating(d, deps[i..])) == Apply(before, Alternating(d, deps))
    {
      var rest := Alternating(d, deps[i..]);
      assert deps[i..][1..] == deps[i + 1..];
      assert rest == [SAdd(PendingDepsKey(d), deps[i]), SAdd(TaskDepsKey(deps[i]), d)] + Alternating(d, deps[i + 1..]);
      ApplyMore(redis.Snapshot(), rest[..2], rest[2..]);
      ApplyTwo(redis.Snapshot(), rest[0], rest[1]);
      assert rest[..2] == [rest[0], rest[1]];
      redis.SAdd(PendingDepsKey(d), deps[i]);
      redis.SAdd(TaskDepsKey(deps[i]), d);
    }
    assert deps[|deps|..] == [];
    assert Linked(before, redis.Snapshot(), d, deps) by { AlternatingLinks(before, d, deps); }
  }

  lemma {:induction false} PendingProgram(db: Db, t: Task, i: nat, now: int)
    requires i <= |t.dependsOn|
    ensures AloneClient(Submitting(t, false), db, t, AddingPending(i), now)
         == AloneClient(Submitting(t, false), Apply(db, PendingFirst(t.id, t.dependsOn[i..])), t, AddingDependents(0), now)
    decreases |t.dependsOn| - i
  {
    ClientAloneStep(Submitting(t, false), db, t, AddingPending(i), now);
    if i < |t.dependsOn| {
      assert t.dependsOn[i..][1..] == t.dependsOn[i + 1..];
      PendingProgram(db.SAdd(PendingDepsKey(t.id), t.dependsOn[i]), t, i + 1, now);
      assert PendingFirst(t.id, t.dependsOn[i..])[1..] == PendingFirst(t.id, t.dependsOn[i + 1..]);
    } else {
      assert t.dependsOn[i..] == [];
    }
  }

  lemma {:induction false} DependentsProgram(db: Db, t: Task, i: nat, now: int)
    requires i <= |t.dependsOn|
    ensures AloneClient(Submitting(t, false), db, t, AddingDependents(i), now)
         == (Apply(db, DependentsNext(t.id, t.dependsOn[i..])), Accepted)
    decreases |t.dependsOn| - i
  {
    ClientAloneStep(Submitting(t, false), db, t, AddingDependents(i), now);
    if i < |t.dependsOn| {
      assert t.dependsOn[i..][1..] == t.dependsOn[i + 1..];
      DependentsProgram(db.SAdd(TaskDepsKey(t.dependsOn[i]), t.id), t, i + 1, now);
      assert DependentsNext(t.id, t.dependsOn[i..])[1..] == DependentsNext(t.id, t.dependsOn[i + 1..]);
    } else {
      assert t.dependsOn[i..] == [];
    }
  }

  /** The two phases are what the client's program (Clients.Register) issues. */
  lemma TwoPhasesAreProgram(db: Db, t: Task, now: int)
    ensures AloneClient(Submitting(t, false), db, t, AddingPending(0), now)
         == (Apply(db, TwoPhases(t.id, t.dependsOn)), Accepted)
  {
    PendingProgram(db, t, 0, now);
    var mid := Apply(db, PendingFirst(t.id, t.dependsOn));
    DependentsProgram(mid, t, 0, now);
    assert t.dependsOn[0..] == t.dependsOn;
    ApplyMore(db, PendingFirst(t.id, t.dependsOn), DependentsNext(t.id, t.dependsOn));
  }
}
