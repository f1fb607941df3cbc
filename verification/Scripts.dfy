/** The scripts enqueue.lua and ack.lua, for the keys of one queue. */
module Scripts {
  import opened Basics
  import opened Store

  /** The fields of a task's hash that the scripts write. */
  datatype Hash = Hash(data: Option<string>, queue: Option<string>, status: Option<string>, lastError: Option<string>)

  const NO_HASH := Hash(None, None, None, None)

  /** The counters of a queue's stats hash. */
  datatype Stats = Stats(processed: nat, dead: nat, total: nat)

  datatype Keyspace = Keyspace(
    pending: seq<Id>,
    active: seq<Id>,
    dedup: set<string>,
    hashes: map<Id, Hash>,
    stats: Stats,
    queues: set<string>)

  datatype Reply = Ok | DuplicateTask | TaskExists

  // ---- the scripts as functions ----

  /** enqueue.lua; the empty unique key means that there is none. */
  function Enqueued(ks: Keyspace, id: Id, key: string, data: string, queue: string): (Keyspace, Reply) {
    if key != "" && key in ks.dedup then (ks, DuplicateTask)
    else
      var keyed := if key != "" then ks.(dedup := ks.dedup + {key}) else ks;
      if id in ks.hashes then (keyed, TaskExists)
      else
        (keyed.(hashes := ks.hashes[id := NO_HASH.(data := Some(data), queue := Some(queue))],
                pending := ks.pending + [id],
                queues := ks.queues + {queue}), Ok)
  }

  /** ack.lua; the status is whatever the caller passes. */
  function Acked(ks: Keyspace, id: Id, key: string, status: string, error: string): Keyspace {
    ks.(active := RemoveOne(ks.active, id),
        hashes := ks.hashes[id := Marked(if id in ks.hashes then ks.hashes[id] else NO_HASH, status, error)],
        dedup := if status == "processed" && key != "" then ks.dedup - {key} else ks.dedup,
        stats := Counted(ks.stats, status))
  }

  function Marked(h: Hash, status: string, error: string): Hash {
    h.(status := Some(status), lastError := if error != "" then Some(error) else h.lastError)
  }

  function Counted(s: Stats, status: string): Stats {
    Stats(s.processed + if status == "processed" then 1 else 0,
          s.dead + if status == "dead" then 1 else 0,
          s.total + 1)
  }

  // ---- the scripts as they run ----

  class ScriptServer {
    var pending: seq<Id>
    var active: seq<Id>
    var dedup: set<string>
    var hashes: map<Id, Hash>
    var stats: Stats
    var queues: set<string>

    constructor ()
      ensures Snapshot() == Keyspace([], [], {}, map[], Stats(0, 0, 0), {})
    {
      pending, active, dedup, hashes, stats, queues := [], [], {}, map[], Stats(0, 0, 0), {};
    }

    function Snapshot(): Keyspace
      reads this
    {
      Keyspace(pending, active, dedup, hashes, stats, queues)
    }

    /** HSET of one field creates the hash if need be. */
    method HSet(id: Id, field: Hash -> Hash)
      modifies this`hashes
      ensures hashes == old(hashes)[id := field(if id in old(hashes) then old(hashes)[id] else NO_HASH)]
    {
      hashes := hashes[id := field(if id in hashes then hashes[id] else NO_HASH)];
    }

    method Enqueue(id: Id, key: string, data: string, queue: string) returns (r: Reply)
      modifies this
      ensures (Snapshot(), r) == Enqueued(old(Snapshot()), id, key, data, queue)
      ensures r == if key != "" && key in old(dedup) then DuplicateTask else if id in old(hashes) then TaskExists else Ok
      ensures dedup == if key != "" then old(dedup) + {key} else old(dedup)
      ensures pending == if r == Ok then old(pending) + [id] else old(pending)
      ensures hashes == if r == Ok then old(hashes)[id := Hash(Some(data), Some(queue), None, None)] else old(hashes)
      ensures queues == if r == Ok then old(queues) + {queue} else old(queues)
      ensures active == old(active) && stats == old(stats)
    {
      if key != "" {
        if key in dedup {
          return DuplicateTask;
        }
        dedup := dedup + {key};
      }
      if id in hashes {
        return TaskExists;
      }
      HSet(id, (h: Hash) => h.(data := Some(data)));
      HSet(id, (h: Hash) => h.(queue := Some(queue)));
      assert hashes == old(hashes)[id := NO_HASH.(data := Some(data), queue := Some(queue))];
      pending := pending + [id];
      queues := queues + {queue};
      return Ok;
    }

    method MarkHash(id: Id, status: string, error: string)
      modifies this`hashes
      ensures hashes == old(hashes)[id := Marked(if id in old(hashes) then old(hashes)[id] else NO_HASH, status, error)]
    {
      HSet(id, (h: Hash) => h.(status := Some(status)));
      if error != "" {
        HSet(id, (h: Hash) => h.(lastError := Some(error)));
      }
    }

    method Ack(id: Id, key: string, status: string, error: string)
      modifies this
      ensures Snapshot() == Acked(old(Snapshot()), id, key, status, error)
      ensures active == RemoveOne(old(active), id)
      ensures hashes.Keys == old(hashes).Keys + {id} && hashes[id].status == Some(status) && (error != "" ==> hashes[id].lastError == Some(error))
      ensures id in old(hashes) ==> hashes[id].data == old(hashes)[id].data && hashes[id].queue == old(hashes)[id].queue
      ensures forall x :: x in old(hashes) && x != id ==> hashes[x] == old(hashes)[x]
      ensures dedup == if status == "processed" && key != "" then old(dedup) - {key} else old(dedup)
      ensures stats.total == old(stats).total + 1 && pending == old(pending) && queues == old(queues)
      ensures stats.processed == old(stats).processed + (if status == "processed" then 1 else 0)
      ensures stats.dead == old(stats).dead + (if status == "dead" then 1 else 0)
    {
      active := RemoveOne(active, id);
      MarkHash(id, status, error);
      if status == "processed" && key != "" {
        dedup := dedup - {key};
      }
      if status == "processed" {
        stats := stats.(processed := stats.processed + 1);
      } else if status == "dead" {
        stats := stats.(dead := stats.dead + 1);
      }
      stats := stats.(total := stats.total + 1);
    }
  }

  // ---- sequences of calls ----

  datatype Call =
    | Enqueue(id: Id, key: string, data: string, queue: string)
    | Ack(id: Id, processed: bool, error: string)

  /**
   * What a bookkeeper outside Redis knows: the unique keys of the accepted tasks, the ids used,
   * and the tasks acknowledged as processed or as dead.
   */
  datatype Books = Books(accepted: map<Id, string>, used: set<Id>, processed: set<Id>, dead: set<Id>)

  const NO_BOOKS := Books(map[], {}, {}, {})

  const START := Keyspace([], [], {}, map[], Stats(0, 0, 0), {})

  function After(ks: Keyspace, b: Books, c: Call): (Keyspace, Books) {
    match c
    case Enqueue(id, key, data, queue) =>
      var (ks', reply) := Enqueued(ks, id, key, data, queue);
      (ks', b.(used := b.used + {id}, accepted := if reply == Ok then b.accepted[id := key] else b.accepted))
    case Ack(id, processed, error) =>
      var key := if id in b.accepted then b.accepted[id] else "";
      (Acked(ks, id, key, if processed then "processed" else "dead", error),
       if processed then b.(processed := b.processed + {id}) else b.(dead := b.dead + {id}))
  }

  /** Ids are fresh, and each accepted task is acknowledged at most once, under its own key. */
  ghost predicate Disciplined(b: Books, c: Call) {
    match c
    case Enqueue(id, _, _, _) => id !in b.used
    case Ack(id, _, _) => id in b.accepted && id !in b.processed && id !in b.dead
  }

  function Run(calls: seq<Call>): (Keyspace, Books) {
    if calls == [] then (START, NO_BOOKS)
    else
      var (ks, b) := Run(calls[..|calls| - 1]);
      After(ks, b, calls[|calls| - 1])
  }

  ghost predicate AllDisciplined(calls: seq<Call>) {
    calls == [] ||
    (AllDisciplined(calls[..|calls| - 1]) && Disciplined(Run(calls[..|calls| - 1]).1, calls[|calls| - 1]))
  }

  /** The accepted tasks with a unique key that were not acknowledged as processed. */
  ghost function Open(b: Books): set<Id> {
    set x | x in b.accepted && x !in b.processed && b.accepted[x] != ""
  }

  /** The deduplication set holds exactly the keys of the open tasks, which are pairwise distinct. */
  ghost predicate ExactKeys(ks: Keyspace, b: Books) {
    && (forall key :: key in ks.dedup <==> exists x :: x in Open(b) && b.accepted[x] == key)
    && (forall x, y :: x in Open(b) && y in Open(b) && b.accepted[x] == b.accepted[y] ==> x == y)
  }

  ghost predicate Balanced(ks: Keyspace, b: Books) {
    && ks.stats == Stats(|b.processed|, |b.dead|, |b.processed| + |b.dead|)
    && b.processed !! b.dead && b.processed <= b.accepted.Keys && b.dead <= b.accepted.Keys
    && b.accepted.Keys <= b.used && ks.hashes.Keys == b.accepted.Keys
  }

  lemma EnqueueKeeps(ks: Keyspace, b: Books, c: Call)
    requires ExactKeys(ks, b) && Balanced(ks, b) && c.Enqueue? && Disciplined(b, c)
    ensures ExactKeys(After(ks, b, c).0, After(ks, b, c).1) && Balanced(After(ks, b, c).0, After(ks, b, c).1)
  {
    var (ks', b') := After(ks, b, c);
    var reply := Enqueued(ks, c.id, c.key, c.data, c.queue).1;
    assert c.id !in ks.hashes;
    if reply == Ok {
      assert b'.accepted.Keys == b.accepted.Keys + {c.id};
      OpenGrows(b, b', c.id, c.key);
    } else {
      assert Open(b') == Open(b);
    }
  }

  lemma OpenGrows(b: Books, b': Books, id: Id, key: string)
    requires id !in b.accepted && id !in b.processed && b' == b.(used := b.used + {id}, accepted := b.accepted[id := key])
    ensures Open(b') == if key == "" then Open(b) else Open(b) + {id}
    ensures forall x :: x in Open(b) ==> b'.accepted[x] == b.accepted[x]
  {
  }

  lemma AckKeeps(ks: Keyspace, b: Books, c: Call)
    requires ExactKeys(ks, b) && Balanced(ks, b) && c.Ack? && Disciplined(b, c)
    ensures ExactKeys(After(ks, b, c).0, After(ks, b, c).1) && Balanced(After(ks, b, c).0, After(ks, b, c).1)
  {
    var (ks', b') := After(ks, b, c);
    AckCloses(ks, ks', b, b', c.id, c.processed);
    AckBalances(ks, b, c.id, c.processed, c.error);
  }

  lemma AckBalances(ks: Keyspace, b: Books, id: Id, processed: bool, error: string)
    requires Balanced(ks, b) && id in b.accepted && id !in b.processed && id !in b.dead
    ensures var after := After(ks, b, Ack(id, processed, error)); Balanced(after.0, after.1)
  {
    var (ks', b') := After(ks, b, Ack(id, processed, error));
    assert ks'.hashes.Keys == ks.hashes.Keys + {id} == ks.hashes.Keys;
    if processed {
      assert |b'.processed| == |b.processed| + 1;
    } else {
      assert |b'.dead| == |b.dead| + 1;
    }
  }

  /** A success closes the task and takes its key away; a failure changes neither. */
  lemma AckCloses(ks: Keyspace, ks': Keyspace, b: Books, b': Books, id: Id, processed: bool)
    requires ExactKeys(ks, b) && id in b.accepted && id !in b.processed
    requires b'.accepted == b.accepted && b'.processed == if processed then b.processed + {id} else b.processed
    requires ks'.dedup == if processed && b.accepted[id] != "" then ks.dedup - {b.accepted[id]} else ks.dedup
    ensures ExactKeys(ks', b')
  {
    assert Open(b') == if processed then Open(b) - {id} else Open(b);
    forall key ensures key in ks'.dedup <==> exists x :: x in Open(b') && b'.accepted[x] == key {
      if key in ks'.dedup {
        var x :| x in Open(b) && b.accepted[x] == key;
        assert x in Open(b');
      }
    }
  }

  /**
   * Main result: after any disciplined sequence of calls the deduplication set is exactly the
   * set of unique keys of accepted tasks that are not yet acknowledged as processed, no two of
   * these share a key, and the statistics are those of the acknowledgements, with
   * total = processed + dead.
   */
  lemma {:induction false} KeysExact(calls: seq<Call>)
    requires AllDisciplined(calls)
    ensures ExactKeys(Run(calls).0, Run(calls).1) && Balanced(Run(calls).0, Run(calls).1)
    decreases |calls|
  {
    if calls == [] {
    } else {
      var earlier, c := calls[..|calls| - 1], calls[|calls| - 1];
      KeysExact(earlier);
      if c.Enqueue? {
        EnqueueKeeps(Run(earlier).0, Run(earlier).1, c);
      } else {
        AckKeeps(Run(earlier).0, Run(earlier).1, c);
      }
    }
  }

  // ---- what the calls leave in the hashes and in the pending list ----

  /** The accepted tasks, first come first. */
  function Accepted(calls: seq<Call>): seq<Id> {
    if calls == [] then []
    else
      var earlier, c := calls[..|calls| - 1], calls[|calls| - 1];
      Accepted(earlier) +
      if c.Enqueue? && Enqueued(Run(earlier).0, c.id, c.key, c.data, c.queue).1 == Ok then [c.id] else []
  }

  /** The hash of x is what the call says of it. */
  predicate Tells(c: Call, h: Hash) {
    match c
    case Enqueue(_, _, data, queue) => h.data == Some(data) && h.queue == Some(queue)
    case Ack(_, processed, error) =>
      && h.status == Some(if processed then "processed" else "dead")
      && h.lastError == if error != "" then Some(error) else None
  }

  /** Every accepted task's hash holds what it was enqueued with, and how it was acknowledged, if it was. */
  ghost predicate FieldsKept(calls: seq<Call>, ks: Keyspace, b: Books) {
    && (forall i :: 0 <= i < |calls| && calls[i].id in b.accepted ==> calls[i].id in ks.hashes && Tells(calls[i], ks.hashes[calls[i].id]))
    && (forall x :: x in b.accepted ==> x in ks.hashes)
    && (forall x :: x in b.accepted && x !in b.processed && x !in b.dead ==> ks.hashes[x].status == None && ks.hashes[x].lastError == None)
    && (forall i :: 0 <= i < |calls| ==> calls[i].id in b.used)
    && (forall i :: 0 <= i < |calls| && calls[i].Ack? ==> calls[i].id in b.processed || calls[i].id in b.dead)
    && b.accepted.Keys <= b.used
  }

  lemma FieldsNext(calls: seq<Call>, c: Call, ks: Keyspace, b: Books)
    requires FieldsKept(calls, ks, b) && Disciplined(b, c) && ks.hashes.Keys == b.accepted.Keys
    ensures FieldsKept(calls + [c], After(ks, b, c).0, After(ks, b, c).1)
  {
    var all := calls + [c];
    var (ks', b') := After(ks, b, c);
    forall i | 0 <= i < |all| && all[i].id in b'.accepted ensures all[i].id in ks'.hashes && Tells(all[i], ks'.hashes[all[i].id]) {
      if i < |calls| { assert all[i] == calls[i]; }
    }
    forall i | 0 <= i < |all| ensures all[i].id in b'.used && (all[i].Ack? ==> all[i].id in b'.processed || all[i].id in b'.dead) {
      if i < |calls| { assert all[i] == calls[i]; }
    }
  }

  /** After any calls the pending list holds the accepted tasks in the order of their calls. */
  lemma {:induction false} PendingExact(calls: seq<Call>)
    ensures Run(calls).0.pending == Accepted(calls)
    decreases |calls|
  {
    if calls != [] { PendingExact(calls[..|calls| - 1]); }
  }

  /**
   * Main result: after any disciplined calls the hash of each accepted task holds the data and
   * queue of its call, and the status and error of its acknowledgement, if it was acknowledged.
   */
  lemma {:induction false} FieldsExact(calls: seq<Call>)
    requires AllDisciplined(calls)
    ensures FieldsKept(calls, Run(calls).0, Run(calls).1)
    decreases |calls|
  {
    if calls != [] {
      var earlier, c := calls[..|calls| - 1], calls[|calls| - 1];
      FieldsExact(earlier);
      HashesAccepted(earlier);
      FieldsNext(earlier, c, Run(earlier).0, Run(earlier).1);
      assert calls == earlier + [c];
    }
  }

  lemma HashesAccepted(calls: seq<Call>)
    requires AllDisciplined(calls)
    ensures Run(calls).0.hashes.Keys == Run(calls).1.accepted.Keys
  {
    KeysExact(calls);
  }

  /**
   * Fresh ids are needed: enqueue.lua adds the key before it looks for the task, so enqueueing a
   * known id keeps the books exact if and only if it brings no new key.
   */
  lemma KnownIdLeaks(ks: Keyspace, b: Books, c: Call)
    requires ExactKeys(ks, b) && Balanced(ks, b) && c.Enqueue? && c.id in b.accepted
    ensures ExactKeys(After(ks, b, c).0, After(ks, b, c).1) <==> c.key == "" || c.key in ks.dedup
  {
    var (ks', b') := After(ks, b, c);
    assert c.id in ks.hashes;
    assert Open(b') == Open(b);
    if c.key != "" && c.key !in ks.dedup {
      assert c.key in ks'.dedup;
    }
  }
}
