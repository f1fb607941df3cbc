/**
 * The Redis data that tasks live in, and the commands and scripts that act on it. Each
 * function is one command or one script, so each is one atomic step of the server.
 */
module Store {
  import opened Basics
  import opened Keys
  import opened SortedSets
  import opened Tasks

  /** The hash of a task: the serialised task in field "data" and the queue name in field "queue". */
  datatype Record = Record(data: Task, queue: string)

  /** How many tasks one run of the batched move takes at most. */
  const BATCH_SIZE := 100

  const DEFAULT_PRIORITY := 50

  /** RemoveOne drops the first occurrence, as LREM with count 1 does. */
  function RemoveOne(s: seq<Id>, id: Id): seq<Id> {
    if s == [] then []
    else if s[0] == id then s[1..]
    else [s[0]] + RemoveOne(s[1..], id)
  }

  datatype Popped = QueuePaused | Timeout | Got(id: Id)

  datatype Db = Db(
    lists: map<Key, seq<Id>>,
    zsets: map<Key, ZSet>,
    sets: map<Key, set<string>>,
    tasks: map<Id, Record>,
    flags: set<Key>)
  {
    function List(k: Key): seq<Id> {
      if k in lists then lists[k] else []
    }

    function Ranks(k: Key): ZSet {
      if k in zsets then zsets[k] else []
    }

    function Members(k: Key): set<string> {
      if k in sets then sets[k] else {}
    }

    function RPush(k: Key, id: Id): Db {
      this.(lists := lists[k := List(k) + [id]])
    }

    function LPush(k: Key, id: Id): Db {
      this.(lists := lists[k := [id] + List(k)])
    }

    function LRem(k: Key, id: Id): Db {
      this.(lists := lists[k := RemoveOne(List(k), id)])
    }

    /** BLPOP; an empty list stays as it is. */
    function LPop(k: Key): Db {
      if List(k) == [] then this else this.(lists := lists[k := List(k)[1..]])
    }

    function ZAdd(k: Key, id: Id, score: int): Db {
      this.(zsets := zsets[k := SortedSets.ZAdd(Ranks(k), id, score)])
    }

    function ZRem(k: Key, id: Id): Db {
      this.(zsets := zsets[k := SortedSets.ZRem(Ranks(k), id)])
    }

    function SAdd(k: Key, member: string): Db {
      this.(sets := sets[k := Members(k) + {member}])
    }

    /** SREM; Redis drops a set that becomes empty. */
    function SRem(k: Key, member: string): Db {
      var rest := Members(k) - {member};
      this.(sets := if rest == {} then sets - {k} else sets[k := rest])
    }

    /** DEL of a key that holds a set. */
    function Del(k: Key): Db {
      this.(sets := sets - {k})
    }

    function HSet(id: Id, r: Record): Db {
      this.(tasks := tasks[id := r])
    }

    function Pause(queue: string): Db {
      this.(flags := flags + {PauseKey(queue)})
    }

    function Resume(queue: string): Db {
      this.(flags := flags - {PauseKey(queue)})
    }

    predicate Paused(queue: string) {
      PauseKey(queue) in flags
    }

    // ---- scripts ----

    /** The deduplication script: the member is added unless it was there. */
    function DedupAdd(k: Key, member: string): (Db, bool) {
      if member in Members(k) then (this, false) else (SAdd(k, member), true)
    }

    /** The priority dequeue script: pause check, first rank, ZREM, LPUSH. */
    function PDequeue(queue: string): (Db, Popped) {
      var ranks := Ranks(PriorityKey(queue));
      if Paused(queue) then (this, QueuePaused)
      else if ranks == [] then (this, Timeout)
      else
        var id := ranks[0].id;
        (ZRem(PriorityKey(queue), id).LPush(ActiveKey(queue), id), Got(id))
    }

    /** The batched move script: the first due members leave the sorted set for the end of the list. */
    function MoveDue(source: Key, dest: Key, now: int, batch: nat): Db {
      MoveFirst(source, dest, BatchCount(Ranks(source), now, batch))
    }

    function MoveFirst(source: Key, dest: Key, n: nat): Db
      requires n <= |Ranks(source)|
    {
      var z := Ranks(source);
      if n == 0 then this
      else this.(zsets := zsets[source := z[n..]], lists := lists[dest := List(dest) + Ids(z[..n])])
    }
  }

  const EMPTY := Db(map[], map[], map[], map[], {})

  // ---- lists ----

  ghost predicate NoDup(s: seq<Id>) {
    forall i, j :: 0 <= i < j < |s| ==> s[i] != s[j]
  }

  lemma {:induction false} RemoveOneSpec(s: seq<Id>, id: Id)
    requires NoDup(s)
    ensures NoDup(RemoveOne(s, id))
    ensures forall x :: x in RemoveOne(s, id) <==> x in s && x != id
  {
    if s != [] {
      assert s == [s[0]] + s[1..];
      RemoveOneSpec(s[1..], id);
      if s[0] != id {
        PushSpec(RemoveOne(s[1..], id), s[0]);
      }
    }
  }

  /** A list without repetition is as long as the set of its elements is large. */
  lemma {:induction false} DistinctSize(s: seq<Id>, ids: set<Id>)
    requires NoDup(s) && forall x :: x in s <==> x in ids
    ensures |s| == |ids|
    decreases |s|
  {
    if s != [] {
      var first, rest := s[0], s[1..];
      assert s == [first] + rest;
      forall x ensures x in rest <==> x in ids - {first} {
      }
      DistinctSize(rest, ids - {first});
    }
  }

  lemma PushSpec(s: seq<Id>, id: Id)
    requires NoDup(s) && id !in s
    ensures NoDup(s + [id]) && NoDup([id] + s)
  {
  }
}
