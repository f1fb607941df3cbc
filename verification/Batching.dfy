/** The batched move of due tasks: batches add up, and moves take a prefix of the ranks. */
module Batching {
  import opened Basics
  import opened Keys
  import opened SortedSets
  import opened Store

  lemma {:induction false} DueAfter(z: ZSet, now: int, n: nat)
    requires n <= DueCount(z, now)
    ensures DueCount(z[n..], now) == DueCount(z, now) - n
    decreases n
  {
    if n > 0 {
      DueAfter(z[1..], now, n - 1);
      assert z[1..][n - 1..] == z[n..];
    } else {
      assert z[0..] == z;
    }
  }

  lemma IdsJoin(z: ZSet, m: nat, n: nat)
    requires m <= n <= |z|
    ensures Ids(z[..m]) + Ids(z[m..][..n - m]) == Ids(z[..n])
  {
    var a, b, c := Ids(z[..m]), Ids(z[m..][..n - m]), Ids(z[..n]);
    forall i | 0 <= i < n ensures (a + b)[i] == c[i] {
      if i >= m { assert z[m..][..n - m][i - m] == z[i]; }
    }
  }

  /** What a move does to the two containers, whether or not it finds anything. */
  lemma MoveEffect(db: Db, source: Key, dest: Key, now: int, batch: nat)
    ensures var z := db.Ranks(source); var n := BatchCount(z, now, batch); var after := db.MoveDue(source, dest, now, batch);
            && after.Ranks(source) == z[n..] && after.List(dest) == db.List(dest) + Ids(z[..n])
            && (forall k :: k != source ==> after.Ranks(k) == db.Ranks(k))
            && (forall k :: k != dest ==> after.List(k) == db.List(k))
            && after.sets == db.sets && after.tasks == db.tasks && after.flags == db.flags
  {
    var z := db.Ranks(source);
    if BatchCount(z, now, batch) == 0 {
      assert z[0..] == z && Ids(z[..0]) == [];
    }
  }

  lemma FirstLeaves(db: Db, source: Key, dest: Key, m: nat)
    requires m <= |db.Ranks(source)|
    ensures db.MoveFirst(source, dest, m).Ranks(source) == db.Ranks(source)[m..]
  {
  }

  /** Moving m and then n tasks is moving m + n tasks. */
  lemma MovesCompose(db: Db, source: Key, dest: Key, m: nat, n: nat)
    requires m + n <= |db.Ranks(source)|
    ensures |db.MoveFirst(source, dest, m).Ranks(source)| >= n
    ensures db.MoveFirst(source, dest, m).MoveFirst(source, dest, n) == db.MoveFirst(source, dest, m + n)
  {
    FirstLeaves(db, source, dest, m);
    if m > 0 && n > 0 {
      MovesJoin(db, db.MoveFirst(source, dest, m), source, dest, db.Ranks(source), m, n);
    }
  }

  lemma BatchCounts(z: ZSet, now: int, b1: nat, b2: nat)
    ensures var n := BatchCount(z, now, b1);
            n + BatchCount(z[n..], now, b2) == BatchCount(z, now, b1 + b2)
  {
    DueAfter(z, now, BatchCount(z, now, b1));
  }

  /** Moving b1 and then b2 tasks at the same time of the clock is moving b1 + b2 tasks. */
  lemma BatchesAddUp(db: Db, source: Key, dest: Key, now: int, b1: nat, b2: nat)
    ensures db.MoveDue(source, dest, now, b1).MoveDue(source, dest, now, b2) == db.MoveDue(source, dest, now, b1 + b2)
  {
    var z := db.Ranks(source);
    var n1 := BatchCount(z, now, b1);
    var n2 := BatchCount(z[n1..], now, b2);
    BatchCounts(z, now, b1, b2);
    FirstLeaves(db, source, dest, n1);
    MovesCompose(db, source, dest, n1, n2);
    calc {
      db.MoveDue(source, dest, now, b1).MoveDue(source, dest, now, b2);
      db.MoveFirst(source, dest, n1).MoveDue(source, dest, now, b2);
      db.MoveFirst(source, dest, n1).MoveFirst(source, dest, n2);
      db.MoveFirst(source, dest, n1 + n2);
      db.MoveDue(source, dest, now, b1 + b2);
    }
  }

  lemma MovesJoin(db: Db, mid: Db, source: Key, dest: Key, z: ZSet, n1: nat, n2: nat)
    requires n1 + n2 <= |z|
    requires mid == db.(zsets := db.zsets[source := z[n1..]], lists := db.lists[dest := db.List(dest) + Ids(z[..n1])])
    ensures mid.(zsets := mid.zsets[source := z[n1..][n2..]], lists := mid.lists[dest := mid.List(dest) + Ids(z[n1..][..n2])])
         == db.(zsets := db.zsets[source := z[n1 + n2..]], lists := db.lists[dest := db.List(dest) + Ids(z[..n1 + n2])])
  {
    var l, a, b := db.List(dest), Ids(z[..n1]), Ids(z[n1..][..n2]);
    IdsJoin(z, n1, n1 + n2);
    assert z[n1..][n2..] == z[n1 + n2..];
    assert mid.List(dest) + b == l + (a + b) == l + Ids(z[..n1 + n2]);
    assert mid.zsets[source := z[n1 + n2..]] == db.zsets[source := z[n1 + n2..]];
    assert mid.lists[dest := l + (a + b)] == db.lists[dest := l + (a + b)];
  }

  datatype Move = Move(now: int, batch: nat)

  function MoveAll(db: Db, source: Key, dest: Key, moves: seq<Move>): Db
    decreases |moves|
  {
    if moves == [] then db
    else MoveAll(db.MoveDue(source, dest, moves[0].now, moves[0].batch), source, dest, moves[1..])
  }

  predicate NowsRise(moves: seq<Move>) {
    forall i, j :: 0 <= i < j < |moves| ==> moves[i].now <= moves[j].now
  }

  /** after is db after the first m entries of source went to dest, all of them due by now. */
  ghost predicate Shifted(db: Db, after: Db, source: Key, dest: Key, m: nat, now: int) {
    var z := db.Ranks(source);
    && m <= |z| && after.Ranks(source) == z[m..] && after.List(dest) == db.List(dest) + Ids(z[..m])
    && forall i :: 0 <= i < m ==> z[i].score <= now
  }

  lemma ShiftedTwice(db: Db, mid: Db, after: Db, source: Key, dest: Key, n: nat, rest: nat, early: int, now: int)
    requires Shifted(db, mid, source, dest, n, early) && Shifted(mid, after, source, dest, rest, now) && early <= now
    ensures Shifted(db, after, source, dest, n + rest, now)
  {
    var z := db.Ranks(source);
    PrefixGrows(z, n, rest, db.List(dest));
    forall i | 0 <= i < n + rest ensures z[i].score <= now {
      if i >= n { assert z[n..][i - n] == z[i]; }
    }
  }

  lemma OneShift(db: Db, source: Key, dest: Key, move: Move)
    ensures Shifted(db, db.MoveDue(source, dest, move.now, move.batch), source, dest,
                    BatchCount(db.Ranks(source), move.now, move.batch), move.now)
  {
    MoveEffect(db, source, dest, move.now, move.batch);
  }

  lemma ShiftThen(db: Db, after: Db, source: Key, dest: Key, move: Move, rest: nat, now: int)
    requires Shifted(db.MoveDue(source, dest, move.now, move.batch), after, source, dest, rest, now) && move.now <= now
    ensures Shifted(db, after, source, dest, BatchCount(db.Ranks(source), move.now, move.batch) + rest, now)
  {
    OneShift(db, source, dest, move);
    ShiftedTwice(db, db.MoveDue(source, dest, move.now, move.batch), after, source, dest,
                 BatchCount(db.Ranks(source), move.now, move.batch), rest, move.now, now);
  }

  lemma RestRises(moves: seq<Move>)
    requires NowsRise(moves) && |moves| > 1
    ensures var rest := moves[1..];
            NowsRise(rest) && rest != [] && Last(rest) == Last(moves) && moves[0].now <= Last(moves).now
  {
  }

  function Last(moves: seq<Move>): Move
    requires moves != []
  {
    moves[|moves| - 1]
  }

  lemma MoveAllOne(db: Db, source: Key, dest: Key, move: Move)
    ensures MoveAll(db, source, dest, [move]) == db.MoveDue(source, dest, move.now, move.batch)
  {
    assert MoveAll(db.MoveDue(source, dest, move.now, move.batch), source, dest, []) == db.MoveDue(source, dest, move.now, move.batch);
  }

  lemma {:induction false} MovesShift(db: Db, source: Key, dest: Key, moves: seq<Move>) returns (m: nat)
    requires NowsRise(moves) && moves != []
    ensures Shifted(db, MoveAll(db, source, dest, moves), source, dest, m, Last(moves).now)
    decreases |moves|
  {
    var n := BatchCount(db.Ranks(source), moves[0].now, moves[0].batch);
    if |moves| == 1 {
      m := n;
      assert moves == [moves[0]];
      MoveAllOne(db, source, dest, moves[0]);
      OneShift(db, source, dest, moves[0]);
    } else {
      RestRises(moves);
      var rest := MovesShift(db.MoveDue(source, dest, moves[0].now, moves[0].batch), source, dest, moves[1..]);
      m := n + rest;
      ShiftThen(db, MoveAll(db, source, dest, moves), source, dest, moves[0], rest, Last(moves).now);
    }
  }

  /**
   * Any sequence of moves at rising times appends a prefix of the source's ranks to the
   * destination and keeps the rest: in the order of (score, id), without loss or duplicate, and
   * never a task whose time is after the last move.
   */
  lemma MovesTakePrefix(db: Db, source: Key, dest: Key, moves: seq<Move>)
    requires Valid(db.Ranks(source)) && NowsRise(moves) && moves != []
    ensures var z := db.Ranks(source); var after := MoveAll(db, source, dest, moves);
            && (exists m :: 0 <= m <= |z| && after.Ranks(source) == z[m..] && after.List(dest) == db.List(dest) + Ids(z[..m]) &&
                  Ranked(z[..m]) && forall i :: 0 <= i < m ==> z[i].score <= moves[|moves| - 1].now)
            && multiset(Ids(after.Ranks(source))) + multiset(after.List(dest))
            == multiset(Ids(z)) + multiset(db.List(dest))
  {
    var m := MovesShift(db, source, dest, moves);
    TailValid(db.Ranks(source), m);
    SameContents(db.Ranks(source), m, db.List(dest));
  }

  lemma PrefixGrows(z: ZSet, n: nat, rest: nat, l: seq<Id>)
    requires n + rest <= |z|
    ensures z[n..][rest..] == z[n + rest..] && (l + Ids(z[..n])) + Ids(z[n..][..rest]) == l + Ids(z[..n + rest])
  {
    IdsJoin(z, n, n + rest);
    assert (l + Ids(z[..n])) + Ids(z[n..][..rest]) == l + (Ids(z[..n]) + Ids(z[n..][..rest]));
  }

  lemma SameContents(z: ZSet, m: nat, l: seq<Id>)
    requires m <= |z|
    ensures multiset(Ids(z[m..])) + multiset(l + Ids(z[..m])) == multiset(Ids(z)) + multiset(l)
  {
    assert Ids(z) == Ids(z[..m]) + Ids(z[m..]);
  }
}
