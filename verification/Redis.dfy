/** A Redis server that commands change in place, and the scripts that run inside it. */
module Redis {
  import opened Basics
  import opened Keys
  import opened SortedSets
  import opened Store
  import opened Release
  import opened Batching

  class Server {
    var lists: map<Key, seq<Id>>
    var zsets: map<Key, ZSet>
    var sets: map<Key, set<string>>
    var tasks: map<Id, Record>
    var flags: set<Key>

    constructor ()
      ensures Snapshot() == EMPTY
    {
      lists, zsets, sets, tasks, flags := map[], map[], map[], map[], {};
    }

    /** The data as a value. */
    function Snapshot(): Db
      reads this
    {
      Db(lists, zsets, sets, tasks, flags)
    }

    method RPush(k: Key, id: Id)
      modifies this
      ensures Snapshot() == old(Snapshot()).RPush(k, id)
    {
      lists := lists[k := Snapshot().List(k) + [id]];
    }

    method LPush(k: Key, id: Id)
      modifies this
      ensures Snapshot() == old(Snapshot()).LPush(k, id)
    {
      lists := lists[k := [id] + Snapshot().List(k)];
    }

    /** LREM with count 1 looks for the first occurrence from the left. */
    method LRem(k: Key, id: Id)
      modifies this
      ensures Snapshot() == old(Snapshot()).LRem(k, id)
    {
      var l := Snapshot().List(k);
      var i := 0;
      while i < |l| && l[i] != id
        invariant 0 <= i <= |l| && id !in l[..i]
      {
        i := i + 1;
      }
      RemoveAt(l, id, i);
      lists := lists[k := if i < |l| then l[..i] + l[i + 1..] else l];
    }

    /** BLPOP that gives up when the list is empty. */
    method BLPop(k: Key) returns (r: Option<Id>)
      modifies this
      ensures Snapshot() == old(Snapshot()).LPop(k)
      ensures r == if old(Snapshot()).List(k) == [] then None else Some(old(Snapshot()).List(k)[0])
    {
      var l := Snapshot().List(k);
      if l == [] {
        return None;
      }
      lists := lists[k := l[1..]];
      return Some(l[0]);
    }

    method ZAdd(k: Key, id: Id, score: int)
      modifies this
      ensures Snapshot() == old(Snapshot()).ZAdd(k, id, score)
    {
      zsets := zsets[k := SortedSets.ZAdd(Snapshot().Ranks(k), id, score)];
    }

    method ZRem(k: Key, id: Id)
      modifies this
      ensures Snapshot() == old(Snapshot()).ZRem(k, id)
    {
      zsets := zsets[k := SortedSets.ZRem(Snapshot().Ranks(k), id)];
    }

    method SAdd(k: Key, member: string)
      modifies this
      ensures Snapshot() == old(Snapshot()).SAdd(k, member)
    {
      sets := sets[k := Snapshot().Members(k) + {member}];
    }

    method SRem(k: Key, member: string)
      modifies this
      ensures Snapshot() == old(Snapshot()).SRem(k, member)
    {
      var rest := Snapshot().Members(k) - {member};
      sets := if rest == {} then sets - {k} else sets[k := rest];
    }

    method Del(k: Key)
      modifies this
      ensures Snapshot() == old(Snapshot()).Del(k)
    {
      sets := sets - {k};
    }

    method HSet(id: Id, r: Record)
      modifies this
      ensures Snapshot() == old(Snapshot()).HSet(id, r)
    {
      tasks := tasks[id := r];
    }

    method SetFlag(queue: string)
      modifies this
      ensures Snapshot() == old(Snapshot()).Pause(queue)
    {
      flags := flags + {PauseKey(queue)};
    }

    method DelFlag(queue: string)
      modifies this
      ensures Snapshot() == old(Snapshot()).Resume(queue)
    {
      flags := flags - {PauseKey(queue)};
    }

    /** SMEMBERS lists the members in an order of its own. */
    method SMembers(k: Key) returns (order: seq<Id>)
      ensures NoDup(order) && forall x :: x in order <==> x in Snapshot().Members(k)
    {
      order := [];
      var rest := Snapshot().Members(k);
      while rest != {}
        invariant rest <= Snapshot().Members(k)
        invariant NoDup(order) && forall x :: x in order <==> x in Snapshot().Members(k) - rest
        decreases rest
      {
        var x :| x in rest;
        PushSpec(order, x);
        order, rest := order + [x], rest - {x};
      }
    }

    method SCard(k: Key) returns (n: nat)
      ensures n == |Snapshot().Members(k)|
    {
      n := |Snapshot().Members(k)|;
    }

    // ---- scripts ----

    /** The deduplication script. */
    method DedupAdd(k: Key, member: string) returns (added: bool)
      modifies this
      ensures (Snapshot(), added) == old(Snapshot()).DedupAdd(k, member)
    {
      if member in Snapshot().Members(k) {
        return false;
      }
      SAdd(k, member);
      return true;
    }

    /** The priority dequeue script. */
    method PDequeue(queue: string) returns (r: Popped)
      modifies this
      ensures (Snapshot(), r) == old(Snapshot()).PDequeue(queue)
    {
      if Snapshot().Paused(queue) {
        return QueuePaused;
      }
      var results := Snapshot().Ranks(PriorityKey(queue));
      if results == [] {
        return Timeout;
      }
      var id := results[0].id;
      ZRem(PriorityKey(queue), id);
      LPush(ActiveKey(queue), id);
      return Got(id);
    }

    /** The batched move script: for each due task in turn ZREM and RPUSH. */
    method MoveExpired(source: Key, dest: Key, now: int, batch: nat) returns (count: nat)
      requires Valid(Snapshot().Ranks(source))
      modifies this
      ensures Snapshot() == old(Snapshot()).MoveDue(source, dest, now, batch)
      ensures count == BatchCount(old(Snapshot()).Ranks(source), now, batch)
    {
      var z := Snapshot().Ranks(source);
      count := BatchCount(z, now, batch);
      var due := z[..count];
      for i := 0 to count
        invariant Snapshot() == old(Snapshot()).MoveFirst(source, dest, i)
      {
        MoveOneMore(old(Snapshot()), source, dest, i);
        ZRem(source, due[i].id);
        RPush(dest, due[i].id);
      }
    }

    /** The body of the release script's loop. */
    method ReleaseDependent(done: Id, dependent: Id) returns (freed: bool)
      modifies this
      ensures Snapshot() == ReleaseOne(old(Snapshot()), done, dependent)
      ensures freed == LastFor(old(Snapshot()), done, dependent)
    {
      SRem(PendingDepsKey(dependent), done);
      var remaining := SCard(PendingDepsKey(dependent));
      freed := remaining == 0 && dependent in tasks;
      if freed {
        RPush(QueueKey(tasks[dependent].queue), dependent);
        Del(PendingDepsKey(dependent));
      }
    }

    /** The release script: scripts/lua/check_dependents.lua, for the order in which SMEMBERS lists the dependents. */
    method ReleaseDependents(done: Id, order: seq<Id>) returns (enqueued: seq<Id>)
      modifies this
      ensures Snapshot() == ReleaseScript(old(Snapshot()), done, order)
      ensures NoDup(order) ==> enqueued == AllFreed(old(Snapshot()), done, order)
      ensures NoDup(order) ==> NoDup(enqueued) && forall d :: d in enqueued <==> d in order && LastFor(old(Snapshot()), done, d)
    {
      enqueued := [];
      for i := 0 to |order|
        invariant NoDup(order) ==> enqueued + AllFreed(Snapshot(), done, order[i..]) == AllFreed(old(Snapshot()), done, order)
        invariant ReleaseLoop(Snapshot(), done, order[i..]) == ReleaseLoop(old(Snapshot()), done, order)
      {
        if NoDup(order) {
          FreedLater(Snapshot(), done, order, i);
        }
        var freed := ReleaseDependent(done, order[i]);
        if freed {
          enqueued := enqueued + [order[i]];
        }
        assert order[i..][1..] == order[i + 1..];
      }
      assert order[|order|..] == [];
      if NoDup(order) {
        AllFreedMembers(old(Snapshot()), done, order);
      }
      Del(TaskDepsKey(done));
    }
  }

  lemma {:induction false} RemoveAt(l: seq<Id>, id: Id, i: nat)
    requires i <= |l| && id !in l[..i] && (i < |l| ==> l[i] == id)
    ensures RemoveOne(l, id) == if i < |l| then l[..i] + l[i + 1..] else l
    decreases |l|
  {
    if l != [] && i > 0 {
      var rest := l[1..];
      assert l[..i][0] == l[0] != id;
      assert rest[..i - 1] == l[..i][1..];
      RemoveAt(rest, id, i - 1);
      assert l[..i] == [l[0]] + rest[..i - 1];
      assert i < |l| ==> rest[i..] == l[i + 1..];
    }
  }

  /** The body of the move script's loop. */
  lemma MoveOneMore(db: Db, source: Key, dest: Key, i: nat)
    requires Valid(db.Ranks(source)) && i < |db.Ranks(source)|
    ensures var id := db.Ranks(source)[i].id;
            db.MoveFirst(source, dest, i).ZRem(source, id).RPush(dest, id) == db.MoveFirst(source, dest, i + 1)
  {
    FirstLeaves(db, source, dest, i);
    TailValid(db.Ranks(source), i);
    MoveOne(db.MoveFirst(source, dest, i), source, dest);
    MovesCompose(db, source, dest, i, 1);
  }

  lemma MoveOne(db: Db, source: Key, dest: Key)
    requires Valid(db.Ranks(source)) && db.Ranks(source) != []
    ensures var id := db.Ranks(source)[0].id;
            db.ZRem(source, id).RPush(dest, id) == db.MoveFirst(source, dest, 1)
  {
    ZRemHead(db.Ranks(source));
    assert Ids(db.Ranks(source)[..1]) == [db.Ranks(source)[0].id];
  }
}
