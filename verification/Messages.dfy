/**
  Messages and their total order: by clock, ties by source rank.
 */
module Messages {
  import opened Collections
  import opened EditScripts

  datatype Msg = Msg(source: int, clock: int)

  /** A message and its matching set. */
  datatype Tagged = Tagged(msg: Msg, id: int)

  /** compare: the order in which one rank sorts the messages of an epoch. */
  predicate Less(a: Msg, b: Msg) {
    a.clock < b.clock || (a.clock == b.clock && a.source < b.source)
  }

  predicate LessEq(a: Msg, b: Msg) {
    a == b || Less(a, b)
  }

  ghost predicate StrictlySorted(s: seq<Msg>) {
    forall i, j :: 0 <= i < j < |s| ==> Less(s[i], s[j])
  }

  ghost predicate NoRepeats(s: seq<Msg>) {
    forall i, j :: 0 <= i < j < |s| ==> s[i] != s[j]
  }

  /** std::sort and list::sort with compare. */
  function Sort(s: seq<Msg>): (t: seq<Msg>)
    ensures |t| == |s|
    ensures forall m :: m in t <==> m in s
    ensures NoRepeats(s) ==> StrictlySorted(t)
    ensures forall i, j :: 0 <= i < j < |t| ==> LessEq(t[i], t[j])
  {
    if s == [] then []
    else
      var front, last := s[..|s| - 1], s[|s| - 1];
      assert s == front + [last];
      Insert(Sort(front), last)
  }

  function Insert(s: seq<Msg>, m: Msg): (t: seq<Msg>)
    requires forall i, j :: 0 <= i < j < |s| ==> LessEq(s[i], s[j])
    ensures |t| == |s| + 1
    ensures forall x :: x in t <==> x == m || x in s
    ensures StrictlySorted(s) && m !in s ==> StrictlySorted(t)
    ensures forall i, j :: 0 <= i < j < |t| ==> LessEq(t[i], t[j])
  {
    assert forall i :: 0 <= i < |s| ==> LessEq(s[i], s[|s| - 1]);
    if s == [] || LessEq(s[|s| - 1], m) then s + [m]
    else
      var front, last := s[..|s| - 1], s[|s| - 1];
      assert s == front + [last];
      assert StrictlySorted(s) ==> StrictlySorted(front) && forall x :: x in front ==> Less(x, last);
      assert forall x :: x in front ==> LessEq(x, last);
      var t := Insert(front, m);
      assert forall i :: 0 <= i < |t| ==> t[i] in t && LessEq(t[i], last);
      t + [last]
  }

  lemma {:induction false} InsertCounts(s: seq<Msg>, m: Msg)
    requires forall i, j :: 0 <= i < j < |s| ==> LessEq(s[i], s[j])
    ensures multiset(Insert(s, m)) == multiset(s) + multiset{m}
  {
    if !(s == [] || LessEq(s[|s| - 1], m)) {
      InsertCounts(s[..|s| - 1], m);
      assert s == s[..|s| - 1] + [s[|s| - 1]];
    }
  }

  /** Sorting loses and invents nothing. */
  lemma {:induction false} SortCounts(s: seq<Msg>)
    ensures multiset(Sort(s)) == multiset(s)
  {
    if s != [] {
      SortCounts(s[..|s| - 1]);
      InsertCounts(Sort(s[..|s| - 1]), s[|s| - 1]);
      assert s == s[..|s| - 1] + [s[|s| - 1]];
    }
  }

  lemma {:induction false} TwiceMeansTwoPlaces(s: seq<Msg>, m: Msg)
    ensures multiset(s)[m] >= 2 <==> exists i, j :: 0 <= i < j < |s| && s[i] == m && s[j] == m
  {
    if s != [] {
      var front, last := s[..|s| - 1], s[|s| - 1];
      assert s == front + [last];
      TwiceMeansTwoPlaces(front, m);
      if multiset(front)[m] >= 2 {
        var i, j :| 0 <= i < j < |front| && front[i] == m && front[j] == m;
        assert s[i] == m && s[j] == m;
      } else if multiset(s)[m] >= 2 {
        assert m in front;
        var i :| 0 <= i < |front| && front[i] == m;
        assert s[i] == m && s[|front|] == m;
      }
    }
  }

  /** A set of messages has one sorted sequence. */
  lemma {:induction false} SortedUnique(a: seq<Msg>, b: seq<Msg>)
    requires StrictlySorted(a) && StrictlySorted(b)
    requires forall m :: m in a <==> m in b
    ensures a == b
  {
    assert b != [] ==> b[0] in b;
    if a != [] {
      assert a[0] in b;
      assert b[0] in b && b[0] in a;
      assert a[0] == b[0];
      assert a == [a[0]] + a[1..] && b == [b[0]] + b[1..];
      assert forall m :: m in a[1..] <==> m in a && m != a[0];
      assert forall m :: m in b[1..] <==> m in b && m != b[0];
      SortedUnique(a[1..], b[1..]);
    }
  }

  function IndexOf(s: seq<Msg>, m: Msg): (k: nat)
    requires m in s
    ensures k < |s| && s[k] == m
  {
    if s[0] == m then 0 else 1 + IndexOf(s[1..], m)
  }

  /** clock_order: where the i-th observed message stands in the sorted order. */
  function ClockOrders(observed: seq<Msg>): (p: seq<nat>)
    ensures |p| == |observed|
  {
    seq(|observed|, i requires 0 <= i < |observed| => IndexOf(Sort(observed), observed[i]))
  }

  lemma ClockOrdersPermute(observed: seq<Msg>)
    requires NoRepeats(observed)
    ensures IsPermutation(ClockOrders(observed))
    ensures forall i :: 0 <= i < |observed| ==> Sort(observed)[ClockOrders(observed)[i]] == observed[i]
  {
    var p, t := ClockOrders(observed), Sort(observed);
    assert forall i :: 0 <= i < |p| ==> p[i] < |t| && t[p[i]] == observed[i];
    forall i, j | 0 <= i < j < |p| ensures p[i] != p[j] {
      assert observed[i] != observed[j];
    }
    assert Distinct(p);
  }

  // ----- merging arrivals -----

  lemma NoRepeatsConcat(a: seq<Msg>, b: seq<Msg>)
    requires NoRepeats(a) && NoRepeats(b) && forall m :: m in a ==> m !in b
    ensures NoRepeats(a + b)
  {
    forall i, j | 0 <= i < j < |a + b| ensures (a + b)[i] != (a + b)[j] {
      if i < |a| <= j {
        assert (a + b)[i] in a && (a + b)[j] in b;
      }
    }
  }

  lemma SortedNoRepeats(a: seq<Msg>)
    requires StrictlySorted(a)
    ensures NoRepeats(a)
  {
    forall i, j | 0 <= i < j < |a| ensures a[i] != a[j] {
      assert Less(a[i], a[j]);
    }
  }
}
