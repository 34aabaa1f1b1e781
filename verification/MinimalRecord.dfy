/**
  No record is shorter: turning the clock order into the observed order by moving single elements
  takes at least n - L moves, where L is the length of a longest increasing subsequence.
 */
module MinimalRecord {
  import opened Collections
  import opened EditScripts

  /** Positions, left to right, of a subsequence of p with increasing values. */
  ghost predicate Increasing(p: seq<nat>, rows: seq<nat>) {
    && (forall i :: 0 <= i < |rows| ==> rows[i] < |p|)
    && (forall i, j :: 0 <= i < j < |rows| ==> rows[i] < rows[j] && p[rows[i]] < p[rows[j]])
  }

  ghost predicate LongestIncreasing(p: seq<nat>, rows: seq<nat>) {
    && Increasing(p, rows)
    && forall other: seq<nat> :: Increasing(p, other) ==> |other| <= |rows|
  }

  /** The elements of the list that lie in u, in list order. */
  ghost function Within(list: seq<nat>, u: set<nat>): seq<nat> {
    if list == [] then []
    else Within(list[..|list| - 1], u) + (if list[|list| - 1] in u then [list[|list| - 1]] else [])
  }

  /** Their positions. */
  ghost function RowsWithin(list: seq<nat>, u: set<nat>): seq<nat> {
    if list == [] then []
    else RowsWithin(list[..|list| - 1], u) + (if list[|list| - 1] in u then [|list| - 1] else [])
  }

  lemma {:induction false} WithinConcat(a: seq<nat>, b: seq<nat>, u: set<nat>)
    ensures Within(a + b, u) == Within(a, u) + Within(b, u)
  {
    if b == [] {
      assert a + b == a;
    } else {
      WithinConcat(a, b[..|b| - 1], u);
      assert (a + b)[..|a + b| - 1] == a + b[..|b| - 1];
    }
  }

  lemma WithinInsert(a: seq<nat>, x: nat, b: seq<nat>, u: set<nat>)
    requires x !in u
    ensures Within(a + [x] + b, u) == Within(a + b, u)
  {
    WithinConcat(a + [x], b, u);
    WithinConcat(a, b, u);
    assert (a + [x])[..|a|] == a;
  }

  /** A move keeps the relative order of everything it does not move. */
  lemma MoveKeepsTheRest(list: seq<nat>, m: Move, next: seq<nat>, u: set<nat>)
    requires ApplyMove(list, m) == Some(next) && m.id !in u
    ensures Within(next, u) == Within(list, u)
  {
    var k := Find(list, m.id);
    var erased := list[..k] + list[k + 1..];
    assert list == list[..k] + [m.id] + list[k + 1..];
    WithinInsert(list[..k], m.id, list[k + 1..], u);
    var target := k + m.delay;
    assert erased == erased[..target] + erased[target..];
    WithinInsert(erased[..target], m.id, erased[target..], u);
  }

  ghost function MovedIds(moves: seq<Move>): set<nat> {
    set k | 0 <= k < |moves| :: moves[k].id
  }

  lemma {:induction false} MovesKeepTheRest(list: seq<nat>, moves: seq<Move>, p: seq<nat>, u: set<nat>)
    requires ApplyMoves(list, moves) == Some(p) && u !! MovedIds(moves)
    ensures Within(p, u) == Within(list, u)
    decreases |moves|
  {
    if moves != [] {
      var next := ApplyMove(list, moves[0]).value;
      assert moves[0].id in MovedIds(moves);
      MoveKeepsTheRest(list, moves[0], next, u);
      assert forall k :: 0 <= k < |moves[1..]| ==> moves[1..][k] == moves[k + 1];
      MovesKeepTheRest(next, moves[1..], p, u);
    }
  }

  lemma {:induction false} MovedIdsSize(moves: seq<Move>)
    ensures |MovedIds(moves)| <= |moves|
  {
    if moves == [] {
      assert MovedIds(moves) == {};
    } else {
      var front := moves[..|moves| - 1];
      MovedIdsSize(front);
      assert MovedIds(moves) == MovedIds(front) + {moves[|moves| - 1].id};
    }
  }

  lemma {:induction false} RowsReadValues(p: seq<nat>, u: set<nat>)
    ensures |RowsWithin(p, u)| == |Within(p, u)|
    ensures forall i :: 0 <= i < |RowsWithin(p, u)| ==> RowsWithin(p, u)[i] < |p| && p[RowsWithin(p, u)[i]] == Within(p, u)[i]
    ensures forall i, j :: 0 <= i < j < |RowsWithin(p, u)| ==> RowsWithin(p, u)[i] < RowsWithin(p, u)[j]
  {
    if p != [] {
      RowsReadValues(p[..|p| - 1], u);
    }
  }

  lemma {:induction false} WithinIota(n: nat, u: set<nat>)
    requires forall x :: x in u ==> x < n
    ensures |Within(Iota(n), u)| == |u| && IncreasingIn(Within(Iota(n), u), 0, n)
  {
    hide Within, IncreasingIn;
    if n == 0 {
      assert u == {} && Iota(0) == [];
      WithinNothing(u);
    } else {
      var v := u - {n - 1};
      WithinIota(n - 1, v);
      assert u == if n - 1 in u then v + {n - 1} else v;
      WithinIotaStep(n, u);
      IncreasingSnoc(Within(Iota(n - 1), v), 0, n - 1);
      assert Within(Iota(n - 1), v) + [] == Within(Iota(n - 1), v);
    }
  }

  lemma WithinNothing(u: set<nat>)
    ensures Within([], u) == [] && IncreasingIn([], 0, 0)
  {
  }

  lemma WithinIotaStep(n: nat, u: set<nat>)
    requires n > 0
    ensures Within(Iota(n), u) == Within(Iota(n - 1), u - {n - 1}) + (if n - 1 in u then [n - 1] else [])
  {
    assert Iota(n)[..n - 1] == Iota(n - 1);
    WithinAgrees(Iota(n - 1), u, u - {n - 1});
  }

  lemma {:induction false} WithinAgrees(list: seq<nat>, u: set<nat>, v: set<nat>)
    requires forall i :: 0 <= i < |list| ==> (list[i] in u <==> list[i] in v)
    ensures Within(list, u) == Within(list, v)
  {
    if list != [] {
      WithinAgrees(list[..|list| - 1], u, v);
    }
  }

  /** What k moves leave in place is an increasing subsequence of n - k elements at least. */
  lemma UnmovedElementsIncrease(p: seq<nat>, moves: seq<Move>) returns (rows: seq<nat>)
    requires ApplyMoves(Iota(|p|), moves) == Some(p)
    ensures Increasing(p, rows) && |rows| >= |p| - |moves|
  {
    hide Within, RowsWithin, IncreasingIn, ApplyMoves;
    var all := Elements(Iota(|p|));
    var u := all - MovedIds(moves);
    DistinctSetSize(Iota(|p|));
    MovedIdsSize(moves);
    assert |u| >= |all| - |MovedIds(moves)| by {
      assert |all| == |u| + |all * MovedIds(moves)| by {
        assert all == u + all * MovedIds(moves);
      }
      SubsetSize(all * MovedIds(moves), MovedIds(moves));
    }
    MovesKeepTheRest(Iota(|p|), moves, p, u);
    WithinIota(|p|, u);
    RowsIncrease(p, u);
    rows := RowsWithin(p, u);
  }

  lemma RowsIncrease(p: seq<nat>, u: set<nat>)
    requires IncreasingIn(Within(p, u), 0, |p|)
    ensures Increasing(p, RowsWithin(p, u)) && |RowsWithin(p, u)| == |Within(p, u)|
  {
    RowsReadValues(p, u);
  }

  /** A script that ignores a longest increasing subsequence yields a record of minimal length. */
  lemma RecordIsMinimal(p: seq<nat>, s: seq<Edit>, rows: seq<nat>, moves: seq<Move>)
    requires IsPermutation(p) && Explains(s, p)
    requires LongestIncreasing(p, rows) && Ignores(s) == |rows|
    requires ApplyMoves(Iota(|p|), moves) == Some(p)
    ensures |Moves(s)| == |p| - |rows| <= |moves|
  {
    MoveCount(s, p);
    var other := UnmovedElementsIncrease(p, moves);
  }
}
