/** Redis sorted sets, kept in the order in which Redis ranks them: by score, ties by member. */
module SortedSets {
  import opened Basics
  import opened Order

  datatype Entry = Entry(score: int, id: Id)

  predicate Before(a: Entry, b: Entry) {
    a.score < b.score || (a.score == b.score && LexLess(a.id, b.id))
  }

  type ZSet = seq<Entry>

  ghost predicate Ranked(z: ZSet) {
    forall i, j :: 0 <= i < j < |z| ==> Before(z[i], z[j])
  }

  ghost predicate Distinct(z: ZSet) {
    forall i, j :: 0 <= i < j < |z| ==> z[i].id != z[j].id
  }

  /** What every sorted set in Redis satisfies: one score a member, ranks in order. */
  ghost predicate Valid(z: ZSet) {
    Ranked(z) && Distinct(z)
  }

  function Ids(z: ZSet): (ids: seq<Id>)
    ensures |ids| == |z|
    ensures forall i :: 0 <= i < |z| ==> ids[i] == z[i].id
  {
    seq(|z|, i requires 0 <= i < |z| => z[i].id)
  }

  ghost predicate Has(z: ZSet, id: Id) {
    exists i :: 0 <= i < |z| && z[i].id == id
  }

  // ---- commands ----

  /** ZREM */
  function ZRem(z: ZSet, id: Id): (r: ZSet)
    ensures |r| <= |z|
    ensures z != [] && z[0].id == id ==> |r| < |z|
  {
    if z == [] then []
    else if z[0].id == id then ZRem(z[1..], id)
    else [z[0]] + ZRem(z[1..], id)
  }

  function Insert(z: ZSet, e: Entry): ZSet {
    if z == [] || Before(e, z[0]) then [e] + z
    else [z[0]] + Insert(z[1..], e)
  }

  /** ZADD: a member that is already there gets the new score. */
  function ZAdd(z: ZSet, id: Id, score: int): ZSet {
    Insert(ZRem(z, id), Entry(score, id))
  }

  /** How many members ZRANGEBYSCORE -inf now finds: the leading entries with score at most now. */
  function DueCount(z: ZSet, now: int): (n: nat)
    ensures n <= |z|
    ensures forall i :: 0 <= i < n ==> z[i].score <= now
    ensures n < |z| ==> z[n].score > now
  {
    if z == [] || z[0].score > now then 0 else 1 + DueCount(z[1..], now)
  }

  function Min(a: nat, b: nat): nat { if a <= b then a else b }

  /** How many members one run of the batched move script takes. */
  function BatchCount(z: ZSet, now: int, batch: nat): (n: nat)
    ensures n <= |z|
  {
    Min(batch, DueCount(z, now))
  }

  // ---- what the commands mean for the membership and for the ranks ----

  lemma BeforeTransitive(a: Entry, b: Entry, c: Entry)
    requires Before(a, b) && Before(b, c)
    ensures Before(a, c)
  {
    if a.score == b.score == c.score {
      LexTransitive(a.id, b.id, c.id);
    }
  }

  lemma BeforeTotal(a: Entry, b: Entry)
    requires a.id != b.id
    ensures Before(a, b) || Before(b, a)
  {
    LexTotal(a.id, b.id);
  }

  lemma BeforeAsymmetric(a: Entry, b: Entry)
    requires Before(a, b)
    ensures !Before(b, a)
  {
    if Before(b, a) {
      LexTransitive(a.id, b.id, a.id);
      LexIrreflexive(a.id);
    }
  }

  /** ZREM removes the member and nothing else. */
  lemma {:induction false} ZRemEntries(z: ZSet, id: Id)
    ensures forall e :: e in ZRem(z, id) <==> e in z && e.id != id
  {
    if z != [] {
      ZRemEntries(z[1..], id);
      assert z == [z[0]] + z[1..];
    }
  }

  lemma {:induction false} InsertEntries(z: ZSet, e: Entry)
    ensures forall x :: x in Insert(z, e) <==> x in z || x == e
  {
    if z != [] && !Before(e, z[0]) {
      InsertEntries(z[1..], e);
      assert z == [z[0]] + z[1..];
    }
  }

  lemma ConsValid(e: Entry, z: ZSet)
    requires Valid(z)
    requires forall x :: x in z ==> Before(e, x) && e.id != x.id
    ensures Valid([e] + z)
  {
    var y := [e] + z;
    forall i, j | 0 <= i < j < |y|
      ensures Before(y[i], y[j]) && y[i].id != y[j].id
    {
      assert y[j] == z[j - 1];
      if i > 0 {
        assert y[i] == z[i - 1];
      } else {
        assert z[j - 1] in z;
      }
    }
  }

  lemma TailValid(z: ZSet, n: nat)
    requires Valid(z) && n <= |z|
    ensures Valid(z[n..]) && Valid(z[..n])
  {
  }

  lemma {:induction false} ZRemValid(z: ZSet, id: Id)
    requires Valid(z)
    ensures Valid(ZRem(z, id))
  {
    if z != [] {
      TailValid(z, 1);
      ZRemValid(z[1..], id);
      ZRemEntries(z[1..], id);
      if z[0].id != id {
        ConsValid(z[0], ZRem(z[1..], id));
      }
    }
  }

  lemma {:induction false} InsertValid(z: ZSet, e: Entry)
    requires Valid(z) && (forall x :: x in z ==> x.id != e.id)
    ensures Valid(Insert(z, e))
  {
    if z == [] {
    } else if Before(e, z[0]) {
      forall x | x in z ensures Before(e, x) && e.id != x.id {
        if x != z[0] {
          BeforeTransitive(e, z[0], x);
        }
      }
      ConsValid(e, z);
    } else {
      TailValid(z, 1);
      InsertValid(z[1..], e);
      InsertEntries(z[1..], e);
      BeforeTotal(e, z[0]);
      ConsValid(z[0], Insert(z[1..], e));
    }
  }

  /** ZADD keeps the set valid, gives the member its new score and touches no other member. */
  lemma ZAddSpec(z: ZSet, id: Id, score: int)
    requires Valid(z)
    ensures Valid(ZAdd(z, id, score))
    ensures forall e :: e in ZAdd(z, id, score) <==> e == Entry(score, id) || (e in z && e.id != id)
  {
    ZRemEntries(z, id);
    ZRemValid(z, id);
    InsertEntries(ZRem(z, id), Entry(score, id));
    InsertValid(ZRem(z, id), Entry(score, id));
  }

  /** Two valid sorted sets with the same entries are the same: the ranks carry no state of their own. */
  lemma {:induction false} SameEntriesSameRanks(a: ZSet, b: ZSet)
    requires Valid(a) && Valid(b)
    requires forall e :: e in a <==> e in b
    ensures a == b
  {
    if a == [] {
      SomeEntry(b);
    } else {
      assert a[0] in a && a[0] in b;
      assert b[0] in b;
      SameFirst(a, b);
      TailValid(a, 1);
      TailValid(b, 1);
      TailEntries(a);
      TailEntries(b);
      SameEntriesSameRanks(a[1..], b[1..]);
      assert a == [a[0]] + a[1..] && b == [b[0]] + b[1..];
    }
  }

  lemma SomeEntry(z: ZSet)
    ensures z == [] || exists e :: e in z
  {
    if z != [] {
      assert z[0] in z;
    }
  }

  lemma SameFirst(a: ZSet, b: ZSet)
    requires Valid(a) && Valid(b) && a != [] && b != [] && a[0] in b && b[0] in a
    ensures a[0] == b[0]
  {
    if a[0] != b[0] {
      assert Before(a[0], b[0]) && Before(b[0], a[0]);
      BeforeAsymmetric(a[0], b[0]);
    }
  }

  lemma TailEntries(z: ZSet)
    requires Valid(z) && z != []
    ensures forall e :: e in z[1..] <==> e in z && e != z[0]
  {
    assert z == [z[0]] + z[1..];
    forall e | e in z[1..] ensures e != z[0] {
      var i :| 0 <= i < |z[1..]| && z[1..][i] == e;
      assert z[i + 1].id != z[0].id;
    }
  }

  /** Removing the first member takes off the head. */
  lemma ZRemHead(z: ZSet)
    requires Valid(z) && z != []
    ensures ZRem(z, z[0].id) == z[1..]
  {
    ZRemEntries(z, z[0].id);
    ZRemValid(z, z[0].id);
    TailValid(z, 1);
    forall e ensures e in ZRem(z, z[0].id) <==> e in z[1..] {
      assert z == [z[0]] + z[1..];
    }
    SameEntriesSameRanks(ZRem(z, z[0].id), z[1..]);
  }

  lemma HasZAdd(z: ZSet, id: Id, score: int, x: Id)
    requires Valid(z)
    ensures Has(ZAdd(z, id, score), x) <==> x == id || Has(z, x)
  {
    ZAddSpec(z, id, score);
    var y := ZAdd(z, id, score);
    if Has(y, x) && x != id {
      var i :| 0 <= i < |y| && y[i].id == x;
      assert y[i] in z;
    }
    if Has(z, x) && x != id {
      var i :| 0 <= i < |z| && z[i].id == x;
      assert z[i] in y;
    }
    if x == id {
      assert Entry(score, id) in y;
    }
  }

  /** The due members of a valid set are exactly its first DueCount members. */
  lemma DueExactly(z: ZSet, now: int, i: nat)
    requires Valid(z) && i < |z|
    ensures i < DueCount(z, now) <==> z[i].score <= now
  {
    var n := DueCount(z, now);
    if n < i {
      assert Before(z[n], z[i]);
    }
  }
}
