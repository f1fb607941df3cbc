/** The Redis commands and scripts that the protocol issues, as data, and what each one does. */
module Commands {
  import opened Basics
  import opened Keys
  import opened SortedSets
  import opened Store
  import opened Release

  datatype Command =
    | Read                                      // GET, EXISTS, SMEMBERS, SCARD, HGET: no effect
    | RPush(k: Key, id: Id)
    | LPush(k: Key, id: Id)
    | LRem(k: Key, id: Id)
    | LPop(k: Key)
    | ZAdd(k: Key, id: Id, score: int)
    | SAdd(k: Key, member: string)
    | SRem(k: Key, member: string)
    | Del(k: Key)
    | HSet(id: Id, record: Record)
    | DedupAdd(k: Key, member: string)
    | PDequeue(queue: string)
    | MoveDue(k: Key, dest: Key, now: int)
    | ReleaseAll(done: Id, order: seq<Id>)
    | SetPause(queue: string)
    | DelPause(queue: string)

  function Do(db: Db, c: Command): Db {
    match c
    case Read => db
    case RPush(k, id) => db.RPush(k, id)
    case LPush(k, id) => db.LPush(k, id)
    case LRem(k, id) => db.LRem(k, id)
    case LPop(k) => db.LPop(k)
    case ZAdd(k, id, score) => db.ZAdd(k, id, score)
    case SAdd(k, m) => db.SAdd(k, m)
    case SRem(k, m) => db.SRem(k, m)
    case Del(k) => db.Del(k)
    case HSet(id, r) => db.HSet(id, r)
    case DedupAdd(k, m) => db.DedupAdd(k, m).0
    case PDequeue(q) => db.PDequeue(q).0
    case MoveDue(k, dest, now) => db.MoveDue(k, dest, now, BATCH_SIZE)
    case ReleaseAll(done, order) => ReleaseScript(db, done, order)
    case SetPause(q) => db.Pause(q)
    case DelPause(q) => db.Resume(q)
  }

  /** Every sorted set is a valid one. */
  ghost predicate RanksValid(db: Db) {
    forall k :: Valid(db.Ranks(k))
  }

  // ---- what a command can put where ----

  /** The command puts x on list k. */
  ghost predicate Lists(db: Db, c: Command, k: Key, x: Id) {
    match c
    case RPush(l, id) => l == k && id == x
    case LPush(l, id) => l == k && id == x
    case PDequeue(q) => k == ActiveKey(q) && !db.Paused(q) && db.Ranks(PriorityKey(q)) != [] &&
                        x == db.Ranks(PriorityKey(q))[0].id
    case MoveDue(z, dest, now) => k == dest && x in Ids(db.Ranks(z)[..BatchCount(db.Ranks(z), now, BATCH_SIZE)])
    case ReleaseAll(done, order) => x in order && LastFor(db, done, x) && k == QueueKey(db.tasks[x].queue)
    case _ => false
  }

  /** The smembers order of a release script names no dependent twice. */
  ghost predicate WellOrdered(c: Command) {
    c.ReleaseAll? ==> NoDup(c.order)
  }

  lemma {:induction false} RemoveOneSubset(s: seq<Id>, id: Id)
    ensures forall x :: x in RemoveOne(s, id) ==> x in s
  {
    if s != [] {
      RemoveOneSubset(s[1..], id);
      assert s == [s[0]] + s[1..];
    }
  }

  /** Nothing appears on a list unless the command puts it there. */
  lemma ListFrame(db: Db, c: Command, k: Key, x: Id)
    requires WellOrdered(c)
    requires x in Do(db, c).List(k)
    ensures x in db.List(k) || Lists(db, c, k, x)
  {
    match c
    case LRem(l, id) => RemoveOneSubset(db.List(l), id);
    case ReleaseAll(done, order) =>
      ReleaseLoopSpec(db, done, order);
      FreedMembers(db, done, order, k);
    case _ =>
  }

  lemma TailHas(z: ZSet, n: nat, x: Id)
    requires n <= |z|
    ensures Has(z[n..], x) ==> Has(z, x)
    ensures x in Ids(z[..n]) ==> Has(z, x)
  {
    if Has(z[n..], x) {
      var i :| 0 <= i < |z[n..]| && z[n..][i].id == x;
      assert z[n + i].id == x;
    }
    if x in Ids(z[..n]) {
      var i :| 0 <= i < n && Ids(z[..n])[i] == x;
      assert z[i].id == x;
    }
  }

  /** Nothing appears in a sorted set unless ZADD puts it there. */
  lemma RanksFrame(db: Db, c: Command, k: Key, x: Id)
    requires WellOrdered(c) && RanksValid(db)
    requires Has(Do(db, c).Ranks(k), x)
    ensures Has(db.Ranks(k), x) || (c.ZAdd? && c.k == k && c.id == x)
  {
    var z := db.Ranks(k);
    match c
    case ZAdd(l, id, score) => if l == k { HasZAdd(z, id, score, x); }
    case PDequeue(q) =>
      if k == PriorityKey(q) && z != [] {
        ZRemHead(z);
        TailHas(z, 1, x);
      }
    case MoveDue(l, dest, now) =>
      if k == l { TailHas(z, BatchCount(z, now, BATCH_SIZE), x); }
    case ReleaseAll(done, order) => ReleaseLoopSpec(db, done, order);
    case _ =>
  }

  /** Every command keeps every sorted set valid. */
  lemma RanksStayValid(db: Db, c: Command)
    requires WellOrdered(c) && RanksValid(db)
    ensures RanksValid(Do(db, c))
  {
    forall k ensures Valid(Do(db, c).Ranks(k)) {
      RankStaysValid(db, c, k);
    }
  }

  lemma RankStaysValid(db: Db, c: Command, k: Key)
    requires WellOrdered(c) && Valid(db.Ranks(k))
    ensures Valid(Do(db, c).Ranks(k))
  {
    var z := db.Ranks(k);
    if c.ZAdd? && c.k == k {
      ZAddSpec(z, c.id, c.score);
    } else if c.PDequeue? && k == PriorityKey(c.queue) {
      if z != [] { ZRemValid(z, z[0].id); }
    } else if c.MoveDue? && c.k == k {
      TailValid(z, BatchCount(z, c.now, BATCH_SIZE));
    } else {
      RanksSame(db, c, k);
    }
  }

  /** The members of a set after a command. */
  lemma SetFrame(db: Db, c: Command, k: Key)
    requires WellOrdered(c)
    ensures Do(db, c).Members(k) ==
      if c.SAdd? && c.k == k then db.Members(k) + {c.member}
      else if c.SRem? && c.k == k then db.Members(k) - {c.member}
      else if c.Del? && c.k == k then {}
      else if c.DedupAdd? && c.k == k then db.Members(k) + {c.member}
      else if c.ReleaseAll? && k.PendingDepsKey? && k.name in c.order then db.Members(k) - {c.done}
      else if c.ReleaseAll? && k == TaskDepsKey(c.done) then {}
      else db.Members(k)
  {
    if c.ReleaseAll? {
      ReleaseLoopSpec(db, c.done, c.order);
    }
  }

  /** Only HSET changes a task record. */
  lemma TaskFrame(db: Db, c: Command)
    requires WellOrdered(c)
    ensures Do(db, c).tasks == if c.HSet? then db.tasks[c.id := c.record] else db.tasks
  {
    if c.ReleaseAll? {
      ReleaseLoopSpec(db, c.done, c.order);
    }
  }

  // ---- exactly what is where after a command ----

  /** The command takes x off list k. */
  ghost predicate Unlists(db: Db, c: Command, k: Key, x: Id) {
    match c
    case LRem(l, id) => l == k && id == x
    case LPop(l) => l == k && db.List(k) != [] && db.List(k)[0] == x
    case _ => false
  }

  /** The command takes x out of sorted set k. */
  ghost predicate Unranks(db: Db, c: Command, k: Key, x: Id) {
    var z := db.Ranks(k);
    match c
    case PDequeue(q) => k == PriorityKey(q) && !db.Paused(q) && z != [] && z[0].id == x
    case MoveDue(l, _, now) => l == k && x in Ids(z[..BatchCount(z, now, BATCH_SIZE)])
    case _ => false
  }

  lemma ReleaseLists(db: Db, done: Id, order: seq<Id>, k: Key, x: Id)
    requires NoDup(order)
    ensures x in ReleaseScript(db, done, order).List(k) <==>
      x in db.List(k) || (x in order && LastFor(db, done, x) && k == QueueKey(db.tasks[x].queue))
  {
    ReleaseLoopSpec(db, done, order);
    FreedMembers(db, done, order, k);
  }

  lemma MoveLists(db: Db, source: Key, dest: Key, now: int, x: Id)
    ensures var z := db.Ranks(source);
            x in db.MoveDue(source, dest, now, BATCH_SIZE).List(dest) <==>
            x in db.List(dest) || x in Ids(z[..BatchCount(z, now, BATCH_SIZE)])
  {
    var z := db.Ranks(source);
    if BatchCount(z, now, BATCH_SIZE) == 0 {
      assert Ids(z[..0]) == [];
    }
  }

  lemma DequeueLists(db: Db, q: string, x: Id)
    ensures var z := db.Ranks(PriorityKey(q));
            x in db.PDequeue(q).0.List(ActiveKey(q)) <==>
            x in db.List(ActiveKey(q)) || (!db.Paused(q) && z != [] && x == z[0].id)
  {
  }

  lemma ListSame(db: Db, c: Command, k: Key)
    requires !c.ReleaseAll? && (c.RPush? || c.LPush? || c.LRem? || c.LPop? ==> c.k != k)
    requires (c.PDequeue? ==> ActiveKey(c.queue) != k) && (c.MoveDue? ==> c.dest != k)
    ensures Do(db, c).List(k) == db.List(k)
  {
  }

  // ---- how often something is on a list ----

  function Times(l: seq<Id>, x: Id): nat {
    multiset(l)[x]
  }

  function One(b: bool): nat { if b then 1 else 0 }

  lemma {:induction false} TimesDistinct(l: seq<Id>, x: Id)
    requires NoDup(l)
    ensures Times(l, x) == One(x in l)
  {
    if l != [] {
      assert l == [l[0]] + l[1..];
      TimesDistinct(l[1..], x);
    }
  }

  lemma {:induction false} TimesRemoved(l: seq<Id>, id: Id, x: Id)
    ensures Times(RemoveOne(l, id), x) == Times(l, x) - One(id == x && x in l)
  {
    if l != [] {
      assert l == [l[0]] + l[1..];
      if l[0] != id { TimesRemoved(l[1..], id, x); }
    }
  }

  lemma TimesPopped(l: seq<Id>, x: Id)
    requires l != []
    ensures Times(l[1..], x) == Times(l, x) - One(x == l[0])
  {
    assert l == [l[0]] + l[1..];
  }

  lemma TimesReleased(db: Db, done: Id, order: seq<Id>, k: Key, x: Id)
    requires NoDup(order)
    ensures Times(ReleaseScript(db, done, order).List(k), x) ==
      Times(db.List(k), x) + One(x in order && LastFor(db, done, x) && k == QueueKey(db.tasks[x].queue))
  {
    ReleaseLoopSpec(db, done, order);
    FreedMembers(db, done, order, k);
    FreedNoDup(db, done, order, k);
    TimesDistinct(Freed(db, done, order, k), x);
  }

  lemma TimesMoved(db: Db, source: Key, dest: Key, now: int, x: Id)
    requires Valid(db.Ranks(source))
    ensures var z := db.Ranks(source);
            Times(db.MoveDue(source, dest, now, BATCH_SIZE).List(dest), x) ==
            Times(db.List(dest), x) + One(x in Ids(z[..BatchCount(z, now, BATCH_SIZE)]))
  {
    var z := db.Ranks(source);
    TimesDistinct(Ids(z[..BatchCount(z, now, BATCH_SIZE)]), x);
  }

  lemma TimesDequeued(db: Db, q: string, x: Id)
    ensures var z := db.Ranks(PriorityKey(q));
            Times(db.PDequeue(q).0.List(ActiveKey(q)), x) ==
            Times(db.List(ActiveKey(q)), x) + One(!db.Paused(q) && z != [] && x == z[0].id)
  {
  }

  lemma TimesPushed(db: Db, c: Command, x: Id)
    requires c.RPush? || c.LPush?
    ensures Times(Do(db, c).List(c.k), x) == Times(db.List(c.k), x) + One(x == c.id)
  {
  }

  /** Exactly how often x is on list k after a command. */
  lemma TimesExact(db: Db, c: Command, k: Key, x: Id)
    requires WellOrdered(c) && RanksValid(db)
    ensures Times(Do(db, c).List(k), x) ==
      Times(db.List(k), x) + One(Lists(db, c, k, x)) - One(Unlists(db, c, k, x) && x in db.List(k))
  {
    if c.ReleaseAll? {
      TimesReleased(db, c.done, c.order, k, x);
    } else if c.MoveDue? && c.dest == k {
      TimesMoved(db, c.k, k, c.now, x);
    } else if c.PDequeue? && ActiveKey(c.queue) == k {
      TimesDequeued(db, c.queue, x);
    } else if c.LRem? && c.k == k {
      TimesRemoved(db.List(k), c.id, x);
    } else if c.LPop? && c.k == k {
      if db.List(k) != [] { TimesPopped(db.List(k), x); }
    } else if (c.RPush? || c.LPush?) && c.k == k {
      TimesPushed(db, c, x);
    } else {
      ListSame(db, c, k);
    }
  }

  lemma TailLacks(z: ZSet, n: nat, x: Id)
    requires Valid(z) && n <= |z|
    ensures Has(z[n..], x) <==> Has(z, x) && x !in Ids(z[..n])
  {
    TailHas(z, n, x);
    if Has(z, x) && x !in Ids(z[..n]) {
      var i :| 0 <= i < |z| && z[i].id == x;
      assert z[n..][i - n].id == x;
    }
  }

  lemma MoveRanks(db: Db, source: Key, dest: Key, now: int, x: Id)
    requires Valid(db.Ranks(source))
    ensures var z := db.Ranks(source);
            Has(db.MoveDue(source, dest, now, BATCH_SIZE).Ranks(source), x) <==>
            Has(z, x) && x !in Ids(z[..BatchCount(z, now, BATCH_SIZE)])
  {
    TailLacks(db.Ranks(source), BatchCount(db.Ranks(source), now, BATCH_SIZE), x);
  }

  lemma DequeueRanks(db: Db, q: string, x: Id)
    requires Valid(db.Ranks(PriorityKey(q)))
    ensures var z := db.Ranks(PriorityKey(q));
            Has(db.PDequeue(q).0.Ranks(PriorityKey(q)), x) <==> Has(z, x) && !(!db.Paused(q) && z != [] && z[0].id == x)
  {
    var z := db.Ranks(PriorityKey(q));
    if !db.Paused(q) && z != [] {
      ZRemHead(z);
      TailLacks(z, 1, x);
      assert Ids(z[..1]) == [z[0].id];
    }
  }

  lemma RanksExact(db: Db, c: Command, k: Key, x: Id)
    requires WellOrdered(c) && RanksValid(db)
    ensures Has(Do(db, c).Ranks(k), x) <==>
      (c.ZAdd? && c.k == k && c.id == x) || (Has(db.Ranks(k), x) && !Unranks(db, c, k, x))
  {
    if c.ZAdd? && c.k == k {
      HasZAdd(db.Ranks(k), c.id, c.score, x);
    } else if c.PDequeue? && k == PriorityKey(c.queue) {
      DequeueRanks(db, c.queue, x);
    } else if c.MoveDue? && c.k == k {
      MoveRanks(db, k, c.dest, c.now, x);
    } else {
      RanksSame(db, c, k);
    }
  }

  // ---- what a command leaves alone ----

  lemma RanksSame(db: Db, c: Command, k: Key)
    requires WellOrdered(c)
    requires (c.ZAdd? || c.MoveDue? ==> c.k != k) && (c.PDequeue? ==> PriorityKey(c.queue) != k)
    ensures Do(db, c).Ranks(k) == db.Ranks(k)
  {
    if c.ReleaseAll? {
      ReleaseLoopSpec(db, c.done, c.order);
    }
  }

  /** Commands that do not take from list k, or push at its front, at most add at its end. */
  lemma ListGrows(db: Db, c: Command, k: Key)
    requires WellOrdered(c)
    requires (c.LRem? || c.LPop? || c.LPush? ==> c.k != k) && (c.PDequeue? ==> ActiveKey(c.queue) != k)
    ensures db.List(k) <= Do(db, c).List(k)
  {
    if c.ReleaseAll? {
      ReleaseLoopSpec(db, c.done, c.order);
    }
  }

  lemma FlagsFrame(db: Db, c: Command)
    requires WellOrdered(c)
    ensures Do(db, c).flags ==
      if c.SetPause? then db.flags + {PauseKey(c.queue)}
      else if c.DelPause? then db.flags - {PauseKey(c.queue)}
      else db.flags
  {
    if c.ReleaseAll? {
      ReleaseLoopSpec(db, c.done, c.order);
    }
  }

  // ---- several commands in a row ----

  function Apply(db: Db, commands: seq<Command>): Db
    decreases |commands|
  {
    if commands == [] then db else Apply(Do(db, commands[0]), commands[1..])
  }

  lemma {:induction false} ApplyMore(db: Db, a: seq<Command>, b: seq<Command>)
    ensures Apply(db, a + b) == Apply(Apply(db, a), b)
    decreases |a|
  {
    if a == [] {
      assert a + b == b;
    } else {
      assert (a + b)[1..] == a[1..] + b;
      ApplyMore(Do(db, a[0]), a[1..], b);
    }
  }

  lemma ApplyTwo(db: Db, a: Command, b: Command)
    ensures Apply(db, [a, b]) == Do(Do(db, a), b)
  {
    assert [a, b][1..] == [b] && [b][1..] == [];
    assert Apply(Do(Do(db, a), b), []) == Do(Do(db, a), b);
    assert Apply(Do(db, a), [b]) == Apply(Do(Do(db, a), b), []);
  }
}
