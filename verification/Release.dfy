/** The atomic form of dependency release: one dependent, and the whole script. */
module Release {
  import opened Basics
  import opened Keys
  import opened Store

  /** The body of the release loop for one dependent. */
  function ReleaseOne(db: Db, done: Id, dependent: Id): Db {
    var pending := PendingDepsKey(dependent);
    var dropped := db.SRem(pending, done);
    if dropped.Members(pending) == {} && dependent in dropped.tasks then
      dropped.RPush(QueueKey(dropped.tasks[dependent].queue), dependent).Del(pending)
    else
      dropped
  }

  /** The loop over the dependents in the order in which SMEMBERS listed them. */
  function ReleaseLoop(db: Db, done: Id, dependents: seq<Id>): Db
    decreases |dependents|
  {
    if dependents == [] then db
    else ReleaseLoop(ReleaseOne(db, done, dependents[0]), done, dependents[1..])
  }

  /** The release script. */
  function ReleaseScript(db: Db, done: Id, dependents: seq<Id>): Db {
    ReleaseLoop(db, done, dependents).Del(TaskDepsKey(done))
  }

  // ---- what release means, without the loop ----

  /** In db, done is the last thing that the recorded task d waits for. */
  predicate LastFor(db: Db, done: Id, d: Id) {
    db.Members(PendingDepsKey(d)) <= {done} && d in db.tasks
  }

  /** The listed tasks that done sets free and that belong on list k, in the listed order. */
  function Freed(db: Db, done: Id, order: seq<Id>, k: Key): seq<Id> {
    if order == [] then []
    else
      (if LastFor(db, done, order[0]) && k == QueueKey(db.tasks[order[0]].queue) then [order[0]] else [])
      + Freed(db, done, order[1..], k)
  }

  /**
   * The effect of a release, stated on the state before it: done leaves the pending sets of
   * the listed tasks; those that waited for nothing else go to the end of their own queue
   * once each, in the listed order; nothing else changes.
   */
  ghost predicate Releases(before: Db, done: Id, order: seq<Id>, after: Db) {
    && after.tasks == before.tasks && after.zsets == before.zsets && after.flags == before.flags
    && (forall k :: after.List(k) == before.List(k) + Freed(before, done, order, k))
    && (forall k :: after.Members(k) ==
          if k.PendingDepsKey? && k.name in order then before.Members(k) - {done} else before.Members(k))
  }

  lemma ReleaseOneSpec(db: Db, done: Id, d: Id)
    ensures Releases(db, done, [d], ReleaseOne(db, done, d))
  {
    assert [d][1..] == [];
    forall k ensures Freed(db, done, [d], k) ==
      if LastFor(db, done, d) && k == QueueKey(db.tasks[d].queue) then [d] else []
    {
    }
  }

  lemma {:induction false} FreedSame(a: Db, b: Db, done: Id, order: seq<Id>, k: Key)
    requires a.tasks == b.tasks
    requires forall d :: d in order ==> a.Members(PendingDepsKey(d)) == b.Members(PendingDepsKey(d))
    ensures Freed(a, done, order, k) == Freed(b, done, order, k)
    decreases |order|
  {
    if order != [] {
      assert order[0] in order;
      FreedSame(a, b, done, order[1..], k);
    }
  }

  /** Releasing d and then the rest is releasing all of them. */
  lemma ReleasesCompose(before: Db, mid: Db, after: Db, done: Id, d: Id, rest: seq<Id>)
    requires Releases(before, done, [d], mid) && Releases(mid, done, rest, after)
    requires d !in rest
    ensures Releases(before, done, [d] + rest, after)
  {
    assert forall x :: x in [d] + rest <==> x == d || x in rest;
    forall k ensures after.List(k) == before.List(k) + Freed(before, done, [d] + rest, k) {
      ListsCompose(before, mid, after, done, d, rest, k);
    }
  }

  lemma ListsCompose(before: Db, mid: Db, after: Db, done: Id, d: Id, rest: seq<Id>, k: Key)
    requires mid.tasks == before.tasks && d !in rest
    requires forall x :: x in rest ==> mid.Members(PendingDepsKey(x)) == before.Members(PendingDepsKey(x))
    requires mid.List(k) == before.List(k) + Freed(before, done, [d], k)
    requires after.List(k) == mid.List(k) + Freed(mid, done, rest, k)
    ensures after.List(k) == before.List(k) + Freed(before, done, [d] + rest, k)
  {
    FreedSame(mid, before, done, rest, k);
    FreedJoin(before, done, d, rest, k);
    var l, a, b := before.List(k), Freed(before, done, [d], k), Freed(before, done, rest, k);
    assert (l + a) + b == l + (a + b);
  }

  lemma FreedJoin(db: Db, done: Id, d: Id, rest: seq<Id>, k: Key)
    ensures Freed(db, done, [d] + rest, k) == Freed(db, done, [d], k) + Freed(db, done, rest, k)
  {
    assert ([d] + rest)[1..] == rest && [d][1..] == [];
    assert Freed(db, done, [], k) == [];
  }

  /** The loop over distinct dependents releases them all as if it looked at each first. */
  lemma {:induction false} ReleaseLoopSpec(db: Db, done: Id, order: seq<Id>)
    requires NoDup(order)
    ensures Releases(db, done, order, ReleaseLoop(db, done, order))
    decreases |order|
  {
    if order == [] {
      assert forall k :: Freed(db, done, order, k) == [];
    } else {
      var mid := ReleaseOne(db, done, order[0]);
      ReleaseOneSpec(db, done, order[0]);
      ReleaseLoopSpec(mid, done, order[1..]);
      ReleasesCompose(db, mid, ReleaseLoop(db, done, order), done, order[0], order[1..]);
      assert order == [order[0]] + order[1..];
    }
  }

  lemma {:induction false} FreedMembers(db: Db, done: Id, order: seq<Id>, k: Key)
    ensures forall d :: d in Freed(db, done, order, k) <==>
      d in order && LastFor(db, done, d) && k == QueueKey(db.tasks[d].queue)
    decreases |order|
  {
    if order != [] {
      assert order == [order[0]] + order[1..];
      FreedMembers(db, done, order[1..], k);
    }
  }

  lemma {:induction false} FreedNoDup(db: Db, done: Id, order: seq<Id>, k: Key)
    requires NoDup(order)
    ensures NoDup(Freed(db, done, order, k))
    decreases |order|
  {
    if order != [] {
      FreedNoDup(db, done, order[1..], k);
      FreedMembers(db, done, order[1..], k);
      assert order[0] !in order[1..];
    }
  }

  // ---- the freed tasks in the order in which they were freed ----

  /** The listed tasks that done sets free. */
  function AllFreed(db: Db, done: Id, order: seq<Id>): seq<Id> {
    if order == [] then []
    else (if LastFor(db, done, order[0]) then [order[0]] else []) + AllFreed(db, done, order[1..])
  }

  lemma {:induction false} AllFreedSame(a: Db, b: Db, done: Id, order: seq<Id>)
    requires a.tasks == b.tasks && forall d :: d in order ==> a.Members(PendingDepsKey(d)) == b.Members(PendingDepsKey(d))
    ensures AllFreed(a, done, order) == AllFreed(b, done, order)
    decreases |order|
  {
    if order != [] {
      assert order[0] in order;
      AllFreedSame(a, b, done, order[1..]);
    }
  }

  /** They are, once each, the listed tasks that waited for nothing but done. */
  lemma {:induction false} AllFreedMembers(db: Db, done: Id, order: seq<Id>)
    requires NoDup(order)
    ensures NoDup(AllFreed(db, done, order))
    ensures forall d :: d in AllFreed(db, done, order) <==> d in order && LastFor(db, done, d)
    decreases |order|
  {
    if order != [] {
      assert order == [order[0]] + order[1..];
      assert order[0] !in order[1..];
      AllFreedMembers(db, done, order[1..]);
    }
  }

  /** The tasks that done, finishing now, sets free. */
  function FreedBy(db: Db, done: Id): set<Id> {
    set d | d in db.Members(TaskDepsKey(done)) && LastFor(db, done, d)
  }

  lemma AllFreedSize(db: Db, done: Id, order: seq<Id>)
    requires NoDup(order) && forall d :: d in order <==> d in db.Members(TaskDepsKey(done))
    ensures |AllFreed(db, done, order)| == |FreedBy(db, done)|
  {
    AllFreedMembers(db, done, order);
    DistinctSize(AllFreed(db, done, order), FreedBy(db, done));
  }

  /** Releasing one dependent leaves it to the later ones whether they are freed. */
  lemma FreedLater(db: Db, done: Id, order: seq<Id>, i: nat)
    requires NoDup(order) && i < |order|
    ensures AllFreed(db, done, order[i..]) ==
      (if LastFor(db, done, order[i]) then [order[i]] else []) +
      AllFreed(ReleaseOne(db, done, order[i]), done, order[i + 1..])
  {
    var d, rest := order[i], order[i + 1..];
    assert order[i..][1..] == rest;
    ReleaseOneSpec(db, done, d);
    forall x | x in rest
      ensures ReleaseOne(db, done, d).Members(PendingDepsKey(x)) == db.Members(PendingDepsKey(x))
    {
      assert x != d;
    }
    AllFreedSame(db, ReleaseOne(db, done, d), done, rest);
  }
}
