/**
 * What the tasks in the store may still cost: a price for every copy of a task on a queue or in a
 * sorted set that is emptied onto one, higher the more attempts its record still allows.
 */
module Measure {
  import opened Basics
  import opened Keys
  import opened SortedSets
  import opened Tasks
  import opened Store
  import opened Release

  // ---- sums ----

  lemma {:induction false} SumLeq(a: seq<nat>, b: seq<nat>)
    requires |a| == |b| && forall j :: 0 <= j < |a| ==> a[j] <= b[j]
    ensures Sum(a) <= Sum(b)
    decreases |a|
  {
    if a != [] {
      SumLeq(a[1..], b[1..]);
    }
  }

  /** Element i goes from b[i] to a[i], and no other one rises by more than rise. */
  lemma {:induction false} SumMoves(a: seq<nat>, b: seq<nat>, i: nat, rise: nat)
    requires |a| == |b| && i < |a| && forall j :: 0 <= j < |a| && j != i ==> a[j] <= b[j] + rise
    ensures Sum(a) + b[i] <= Sum(b) + a[i] + |a| * rise
    decreases |a|
  {
    MoreTimes(|a| - 1, rise);
    if i == 0 {
      SumRises(a[1..], b[1..], rise);
    } else {
      SumMoves(a[1..], b[1..], i - 1, rise);
    }
  }

  lemma {:induction false} SumRises(a: seq<nat>, b: seq<nat>, rise: nat)
    requires |a| == |b| && forall j :: 0 <= j < |a| ==> a[j] <= b[j] + rise
    ensures Sum(a) <= Sum(b) + |a| * rise
    decreases |a|
  {
    if a != [] {
      SumRises(a[1..], b[1..], rise);
      MoreTimes(|a| - 1, rise);
    }
  }

  lemma MoreTimes(n: nat, rise: nat)
    ensures (n + 1) * rise == n * rise + rise
  {
  }

  lemma Ordered(a: nat, b: nat, c: nat)
    requires a <= b
    ensures a * c <= b * c
  {
  }

  // ---- prices ----

  /**
   * copy: for one copy of a task, or for one change of a record; base: how much more a task is
   * worth for each attempt that its record still allows, out of most.
   */
  datatype Prices = Prices(copy: nat, base: nat, most: nat)

  function Power(b: nat, n: nat): nat {
    if n == 0 then 1 else b * Power(b, n - 1)
  }

  /** What the attempts are worth that a record with r failures still allows. */
  function Chances(p: Prices, r: nat): nat {
    Power(p.base, if r < p.most then p.most - r else 0)
  }

  const CYCLE := 11

  /** One copy of a task, with r failures on record, at a stage of its current attempt. */
  function Worth(p: Prices, r: nat, stage: nat): nat {
    p.copy + CYCLE * Chances(p, r) + stage
  }

  lemma {:induction false} PowerRises(b: nat, m: nat, n: nat)
    requires b >= 1 && m <= n
    ensures 1 <= Power(b, m) <= Power(b, n)
    decreases n
  {
    if m < n {
      PowerRises(b, m, n - 1);
      Ordered(1, b, Power(b, n - 1));
    } else if n > 0 {
      PowerRises(b, n - 1, n - 1);
      Ordered(1, b, Power(b, n - 1));
    }
  }

  lemma ChancesBound(p: Prices, r: nat)
    requires p.base >= 1
    ensures 1 <= Chances(p, r) <= Chances(p, 0)
  {
    PowerRises(p.base, if r < p.most then p.most - r else 0, p.most);
  }

  /** One failure more is worth a factor less. */
  lemma ChancesFall(p: Prices, r: nat)
    requires r < p.most
    ensures Chances(p, r) == p.base * Chances(p, r + 1)
  {
  }

  // ---- what is in the store ----

  function RetryOf(tasks: map<Id, Record>, id: Id): nat {
    if id in tasks then tasks[id].data.retryCnt else 0
  }

  function ListLoad(p: Prices, tasks: map<Id, Record>, l: seq<Id>): nat {
    if l == [] then 0 else Worth(p, RetryOf(tasks, l[0]), 8) + ListLoad(p, tasks, l[1..])
  }

  function RanksLoad(p: Prices, tasks: map<Id, Record>, z: ZSet): nat {
    if z == [] then 0 else Worth(p, RetryOf(tasks, z[0].id), 9) + RanksLoad(p, tasks, z[1..])
  }

  lemma {:induction false} ListJoin(p: Prices, tasks: map<Id, Record>, a: seq<Id>, b: seq<Id>)
    ensures ListLoad(p, tasks, a + b) == ListLoad(p, tasks, a) + ListLoad(p, tasks, b)
    decreases |a|
  {
    if a == [] {
      assert a + b == b;
    } else {
      assert (a + b)[1..] == a[1..] + b;
      ListJoin(p, tasks, a[1..], b);
    }
  }

  lemma {:induction false} RanksJoin(p: Prices, tasks: map<Id, Record>, a: ZSet, b: ZSet)
    ensures RanksLoad(p, tasks, a + b) == RanksLoad(p, tasks, a) + RanksLoad(p, tasks, b)
    decreases |a|
  {
    if a == [] {
      assert a + b == b;
    } else {
      assert (a + b)[1..] == a[1..] + b;
      RanksJoin(p, tasks, a[1..], b);
    }
  }

  lemma OnePushed(p: Prices, tasks: map<Id, Record>, l: seq<Id>, x: Id)
    ensures ListLoad(p, tasks, l + [x]) == ListLoad(p, tasks, l) + Worth(p, RetryOf(tasks, x), 8)
  {
    ListJoin(p, tasks, l, [x]);
    assert [x][1..] == [];
  }

  /** A task that moves from a sorted set to a list is one stage further. */
  lemma {:induction false} MovedLoad(p: Prices, tasks: map<Id, Record>, z: ZSet)
    ensures ListLoad(p, tasks, Ids(z)) + |z| == RanksLoad(p, tasks, z)
    decreases |z|
  {
    if z != [] {
      assert Ids(z)[1..] == Ids(z[1..]);
      MovedLoad(p, tasks, z[1..]);
    }
  }

  lemma {:induction false} RemovedLoad(p: Prices, tasks: map<Id, Record>, z: ZSet, id: Id)
    ensures RanksLoad(p, tasks, ZRem(z, id)) <= RanksLoad(p, tasks, z)
    decreases |z|
  {
    if z != [] {
      RemovedLoad(p, tasks, z[1..], id);
      assert z[0].id != id ==> ZRem(z, id)[1..] == ZRem(z[1..], id);
    }
  }

  lemma {:induction false} InsertedLoad(p: Prices, tasks: map<Id, Record>, z: ZSet, e: Entry)
    ensures RanksLoad(p, tasks, Insert(z, e)) == RanksLoad(p, tasks, z) + Worth(p, RetryOf(tasks, e.id), 9)
    decreases |z|
  {
    if z == [] || Before(e, z[0]) {
      assert ([e] + z)[1..] == z;
    } else {
      InsertedLoad(p, tasks, z[1..], e);
      assert Insert(z, e)[1..] == Insert(z[1..], e);
    }
  }

  lemma AddedLoad(p: Prices, tasks: map<Id, Record>, z: ZSet, id: Id, score: int)
    ensures RanksLoad(p, tasks, SortedSets.ZAdd(z, id, score)) <= RanksLoad(p, tasks, z) + Worth(p, RetryOf(tasks, id), 9)
  {
    RemovedLoad(p, tasks, z, id);
    InsertedLoad(p, tasks, ZRem(z, id), Entry(score, id));
  }

  // ---- a record changes ----

  lemma {:induction false} ListRewritten(p: Prices, tasks: map<Id, Record>, l: seq<Id>, x: Id, r: Record)
    ensures ListLoad(p, tasks[x := r], l) <= ListLoad(p, tasks, l) + |l| * (CYCLE * Chances(p, r.data.retryCnt))
    decreases |l|
  {
    if l != [] {
      ListRewritten(p, tasks, l[1..], x, r);
      MoreTimes(|l| - 1, CYCLE * Chances(p, r.data.retryCnt));
    }
  }

  lemma {:induction false} RanksRewritten(p: Prices, tasks: map<Id, Record>, z: ZSet, x: Id, r: Record)
    ensures RanksLoad(p, tasks[x := r], z) <= RanksLoad(p, tasks, z) + |z| * (CYCLE * Chances(p, r.data.retryCnt))
    decreases |z|
  {
    if z != [] {
      RanksRewritten(p, tasks, z[1..], x, r);
      MoreTimes(|z| - 1, CYCLE * Chances(p, r.data.retryCnt));
    }
  }

  lemma {:induction false} ListAtLeast(p: Prices, tasks: map<Id, Record>, l: seq<Id>)
    ensures |l| * p.copy <= ListLoad(p, tasks, l)
    decreases |l|
  {
    if l != [] {
      ListAtLeast(p, tasks, l[1..]);
      MoreTimes(|l| - 1, p.copy);
    }
  }

  lemma {:induction false} RanksAtLeast(p: Prices, tasks: map<Id, Record>, z: ZSet)
    ensures |z| * p.copy <= RanksLoad(p, tasks, z)
    decreases |z|
  {
    if z != [] {
      RanksAtLeast(p, tasks, z[1..]);
      MoreTimes(|z| - 1, p.copy);
    }
  }

  // ---- one queue with its sorted sets ----

  function QueueLoad(p: Prices, db: Db, q: string): nat {
    ListLoad(p, db.tasks, db.List(QueueKey(q))) + RanksLoad(p, db.tasks, db.Ranks(PriorityKey(q))) +
    RanksLoad(p, db.tasks, db.Ranks(RetryKey(q))) + RanksLoad(p, db.tasks, db.Ranks(DelayedKey(q)))
  }

  function QueueSize(db: Db, q: string): nat {
    |db.List(QueueKey(q))| + |db.Ranks(PriorityKey(q))| + |db.Ranks(RetryKey(q))| + |db.Ranks(DelayedKey(q))|
  }

  lemma QueueRewritten(p: Prices, db: Db, q: string, x: Id, r: Record)
    ensures QueueLoad(p, db.HSet(x, r), q) <= QueueLoad(p, db, q) + QueueSize(db, q) * (CYCLE * Chances(p, r.data.retryCnt))
  {
    var price := CYCLE * Chances(p, r.data.retryCnt);
    ListRewritten(p, db.tasks, db.List(QueueKey(q)), x, r);
    RanksRewritten(p, db.tasks, db.Ranks(PriorityKey(q)), x, r);
    RanksRewritten(p, db.tasks, db.Ranks(RetryKey(q)), x, r);
    RanksRewritten(p, db.tasks, db.Ranks(DelayedKey(q)), x, r);
    FourTimes(|db.List(QueueKey(q))|, |db.Ranks(PriorityKey(q))|, |db.Ranks(RetryKey(q))|, |db.Ranks(DelayedKey(q))|, price);
  }

  lemma FourTimes(a: nat, b: nat, c: nat, d: nat, price: nat)
    ensures (a + b + c + d) * price == a * price + b * price + c * price + d * price
  {
  }

  lemma QueueAtLeast(p: Prices, db: Db, q: string)
    ensures QueueSize(db, q) * p.copy <= QueueLoad(p, db, q)
  {
    ListAtLeast(p, db.tasks, db.List(QueueKey(q)));
    RanksAtLeast(p, db.tasks, db.Ranks(PriorityKey(q)));
    RanksAtLeast(p, db.tasks, db.Ranks(RetryKey(q)));
    RanksAtLeast(p, db.tasks, db.Ranks(DelayedKey(q)));
    FourTimes(|db.List(QueueKey(q))|, |db.Ranks(PriorityKey(q))|, |db.Ranks(RetryKey(q))|, |db.Ranks(DelayedKey(q))|, p.copy);
  }

  // ---- all queues ----

  function Loads(p: Prices, db: Db, qs: seq<string>): seq<nat> {
    seq(|qs|, i requires 0 <= i < |qs| => QueueLoad(p, db, qs[i]))
  }

  function Load(p: Prices, db: Db, qs: seq<string>): nat {
    Sum(Loads(p, db, qs))
  }

  function Size(db: Db, qs: seq<string>): nat {
    if qs == [] then 0 else QueueSize(db, qs[0]) + Size(db, qs[1..])
  }

  predicate Apart(qs: seq<string>) {
    forall i, j :: 0 <= i < j < |qs| ==> qs[i] != qs[j]
  }

  /** Only queue q changes, by so much. */
  lemma LoadMoves(p: Prices, db: Db, db': Db, qs: seq<string>, q: string)
    requires Apart(qs) && q in qs && forall r :: r != q ==> QueueLoad(p, db', r) == QueueLoad(p, db, r)
    ensures Load(p, db', qs) + QueueLoad(p, db, q) <= Load(p, db, qs) + QueueLoad(p, db', q)
  {
    var i :| 0 <= i < |qs| && qs[i] == q;
    SumMoves(Loads(p, db', qs), Loads(p, db, qs), i, 0);
  }

  lemma LoadSame(p: Prices, db: Db, db': Db, qs: seq<string>)
    requires forall q :: q in qs ==> QueueLoad(p, db', q) <= QueueLoad(p, db, q)
    ensures Load(p, db', qs) <= Load(p, db, qs)
  {
    SumLeq(Loads(p, db', qs), Loads(p, db, qs));
  }

  lemma {:induction false} LoadRewritten(p: Prices, db: Db, qs: seq<string>, x: Id, r: Record)
    ensures Load(p, db.HSet(x, r), qs) <= Load(p, db, qs) + Size(db, qs) * (CYCLE * Chances(p, r.data.retryCnt))
    decreases |qs|
  {
    if qs != [] {
      assert Loads(p, db.HSet(x, r), qs)[1..] == Loads(p, db.HSet(x, r), qs[1..]);
      assert Loads(p, db, qs)[1..] == Loads(p, db, qs[1..]);
      QueueRewritten(p, db, qs[0], x, r);
      LoadRewritten(p, db, qs[1..], x, r);
      var price := CYCLE * Chances(p, r.data.retryCnt);
      FourTimes(QueueSize(db, qs[0]), Size(db, qs[1..]), 0, 0, price);
    }
  }

  lemma {:induction false} LoadAtLeast(p: Prices, db: Db, qs: seq<string>)
    ensures Size(db, qs) * p.copy <= Load(p, db, qs)
    decreases |qs|
  {
    if qs != [] {
      assert Loads(p, db, qs)[1..] == Loads(p, db, qs[1..]);
      QueueAtLeast(p, db, qs[0]);
      LoadAtLeast(p, db, qs[1..]);
      FourTimes(QueueSize(db, qs[0]), Size(db, qs[1..]), 0, 0, p.copy);
    }
  }

  // ---- what commands do to it ----

  /** The parts of the store that the load is about are as they were. */
  ghost predicate SameQueues(db: Db, db': Db) {
    && db'.tasks == db.tasks
    && (forall q :: db'.List(QueueKey(q)) == db.List(QueueKey(q)))
    && (forall q :: db'.Ranks(PriorityKey(q)) == db.Ranks(PriorityKey(q)) && db'.Ranks(RetryKey(q)) == db.Ranks(RetryKey(q))
                    && db'.Ranks(DelayedKey(q)) == db.Ranks(DelayedKey(q)))
  }

  lemma LoadUnchanged(p: Prices, db: Db, db': Db, qs: seq<string>)
    requires SameQueues(db, db')
    ensures Load(p, db', qs) <= Load(p, db, qs)
  {
    forall q ensures QueueLoad(p, db', q) == QueueLoad(p, db, q) {
    }
    LoadSame(p, db, db', qs);
  }

  lemma PushLoad(p: Prices, db: Db, qs: seq<string>, q: string, x: Id)
    requires Apart(qs)
    ensures Load(p, db.RPush(QueueKey(q), x), qs) <= Load(p, db, qs) + Worth(p, RetryOf(db.tasks, x), 8)
  {
    var db' := db.RPush(QueueKey(q), x);
    OnePushed(p, db.tasks, db.List(QueueKey(q)), x);
    forall r | r != q ensures QueueLoad(p, db', r) == QueueLoad(p, db, r) {
    }
    if q in qs { LoadMoves(p, db, db', qs, q); } else { LoadSame(p, db, db', qs); }
  }

  lemma PopLoad(p: Prices, db: Db, qs: seq<string>, q: string)
    requires Apart(qs) && q in qs && db.List(QueueKey(q)) != []
    ensures Load(p, db.LPop(QueueKey(q)), qs) + Worth(p, RetryOf(db.tasks, db.List(QueueKey(q))[0]), 8) <= Load(p, db, qs)
  {
    var db' := db.LPop(QueueKey(q));
    forall r | r != q ensures QueueLoad(p, db', r) == QueueLoad(p, db, r) {
    }
    LoadMoves(p, db, db', qs, q);
  }

  /** Of the queues and the sorted sets only k changes. */
  ghost predicate OneSetChanges(db: Db, db': Db, k: Key) {
    && Scheduling(k) && db'.tasks == db.tasks
    && (forall q :: db'.List(QueueKey(q)) == db.List(QueueKey(q)))
    && (forall l :: l != k ==> db'.Ranks(l) == db.Ranks(l))
  }

  lemma OneSetMoves(p: Prices, db: Db, db': Db, qs: seq<string>, k: Key)
    requires Apart(qs) && OneSetChanges(db, db', k) && k.name in qs
    ensures Load(p, db', qs) + RanksLoad(p, db.tasks, db.Ranks(k)) <= Load(p, db, qs) + RanksLoad(p, db.tasks, db'.Ranks(k))
  {
    forall r | r != k.name ensures QueueLoad(p, db', r) == QueueLoad(p, db, r) {
    }
    OneSetOfQueue(p, db, db', k);
    LoadMoves(p, db, db', qs, k.name);
  }

  lemma OneSetOfQueue(p: Prices, db: Db, db': Db, k: Key)
    requires OneSetChanges(db, db', k)
    ensures QueueLoad(p, db', k.name) + RanksLoad(p, db.tasks, db.Ranks(k)) == QueueLoad(p, db, k.name) + RanksLoad(p, db.tasks, db'.Ranks(k))
  {
  }

  lemma OneSetElsewhere(p: Prices, db: Db, db': Db, qs: seq<string>, k: Key)
    requires OneSetChanges(db, db', k) && k.name !in qs
    ensures Load(p, db', qs) <= Load(p, db, qs)
  {
    forall r | r in qs ensures QueueLoad(p, db', r) == QueueLoad(p, db, r) {
    }
    LoadSame(p, db, db', qs);
  }

  lemma AddLoad(p: Prices, db: Db, qs: seq<string>, k: Key, x: Id, score: int)
    requires Apart(qs)
    ensures Load(p, db.ZAdd(k, x, score), qs) <= Load(p, db, qs) + if Scheduling(k) then Worth(p, RetryOf(db.tasks, x), 9) else 0
  {
    var db' := db.ZAdd(k, x, score);
    if Scheduling(k) {
      AddedLoad(p, db.tasks, db.Ranks(k), x, score);
      if k.name in qs { OneSetMoves(p, db, db', qs, k); } else { OneSetElsewhere(p, db, db', qs, k); }
    } else {
      LoadUnchanged(p, db, db', qs);
    }
  }

  lemma DequeueLoad(p: Prices, db: Db, qs: seq<string>, q: string)
    requires Apart(qs) && q in qs && Valid(db.Ranks(PriorityKey(q))) && db.PDequeue(q).1.Got?
    ensures Load(p, db.PDequeue(q).0, qs) + Worth(p, RetryOf(db.tasks, db.PDequeue(q).1.id), 9) <= Load(p, db, qs)
  {
    ZRemHead(db.Ranks(PriorityKey(q)));
    OneSetMoves(p, db, db.PDequeue(q).0, qs, PriorityKey(q));
  }

  /** The first n entries leave k: the rest weighs less by more than what they weigh on a list. */
  lemma TakenLoad(p: Prices, db: Db, taken: Db, qs: seq<string>, k: Key, n: nat)
    requires Apart(qs) && (k.RetryKey? || k.DelayedKey?) && k.name in qs && n <= |db.Ranks(k)|
    requires taken == db.(zsets := db.zsets[k := db.Ranks(k)[n..]])
    ensures Load(p, taken, qs) + ListLoad(p, db.tasks, Ids(db.Ranks(k)[..n])) + n <= Load(p, db, qs)
  {
    var z := db.Ranks(k);
    assert z[..n] + z[n..] == z;
    RanksJoin(p, db.tasks, z[..n], z[n..]);
    MovedLoad(p, db.tasks, z[..n]);
    OneSetMoves(p, db, taken, qs, k);
  }

  lemma TickLoad(p: Prices, db: Db, qs: seq<string>, k: Key, now: int)
    requires Apart(qs) && (k.RetryKey? || k.DelayedKey?) && k.name in qs
    ensures Load(p, db.MoveDue(k, QueueKey(k.name), now, BATCH_SIZE), qs) + BatchCount(db.Ranks(k), now, BATCH_SIZE) <= Load(p, db, qs)
  {
    var z, n := db.Ranks(k), BatchCount(db.Ranks(k), now, BATCH_SIZE);
    if n > 0 {
      var taken := db.(zsets := db.zsets[k := z[n..]]);
      TakenLoad(p, db, taken, qs, k, n);
      assert taken.List(QueueKey(k.name)) == db.List(QueueKey(k.name));
      AppendLoad(p, taken, qs, k.name, Ids(z[..n]));
    } else {
      LoadUnchanged(p, db, db.MoveDue(k, QueueKey(k.name), now, BATCH_SIZE), qs);
    }
  }

  lemma AppendLoad(p: Prices, db: Db, qs: seq<string>, q: string, ids: seq<Id>)
    requires Apart(qs) && q in qs
    ensures Load(p, db.(lists := db.lists[QueueKey(q) := db.List(QueueKey(q)) + ids]), qs) <= Load(p, db, qs) + ListLoad(p, db.tasks, ids)
  {
    var db' := db.(lists := db.lists[QueueKey(q) := db.List(QueueKey(q)) + ids]);
    ListJoin(p, db.tasks, db.List(QueueKey(q)), ids);
    forall r | r != q ensures QueueLoad(p, db', r) == QueueLoad(p, db, r) {
    }
    LoadMoves(p, db, db', qs, q);
  }

  /** The release script pushes each listed task at most once. */
  lemma {:induction false} ReleaseLoad(p: Prices, db: Db, qs: seq<string>, done: Id, order: seq<Id>)
    requires Apart(qs) && p.base >= 1
    ensures Load(p, ReleaseScript(db, done, order), qs) <= Load(p, db, qs) + |order| * Worth(p, 0, 8)
    decreases |order|
  {
    if order == [] {
      LoadUnchanged(p, db, db.Del(TaskDepsKey(done)), qs);
    } else {
      var mid := ReleaseOne(db, done, order[0]);
      ReleaseLoad(p, mid, qs, done, order[1..]);
      ReleaseOneLoad(p, db, qs, done, order[0]);
      MoreTimes(|order| - 1, Worth(p, 0, 8));
    }
  }

  lemma ReleaseOneLoad(p: Prices, db: Db, qs: seq<string>, done: Id, d: Id)
    requires Apart(qs) && p.base >= 1
    ensures Load(p, ReleaseOne(db, done, d), qs) <= Load(p, db, qs) + Worth(p, 0, 8)
  {
    var dropped := db.SRem(PendingDepsKey(d), done);
    LoadUnchanged(p, db, dropped, qs);
    if dropped.Members(PendingDepsKey(d)) == {} && d in dropped.tasks {
      var q := dropped.tasks[d].queue;
      PushLoad(p, dropped, qs, q, d);
      ChancesBound(p, RetryOf(db.tasks, d));
      LoadUnchanged(p, dropped.RPush(QueueKey(q), d), dropped.RPush(QueueKey(q), d).Del(PendingDepsKey(d)), qs);
    }
  }
}
