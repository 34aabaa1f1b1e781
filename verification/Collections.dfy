/**
  Facts about sets and sequences that several modules need.
 */
module Collections {
  lemma SubsetSize<T>(a: set<T>, b: set<T>)
    requires a <= b
    ensures |a| <= |b|
  {
    assert b == a + (b - a);
  }

  ghost predicate Distinct(s: seq<int>) {
    forall i, j :: 0 <= i < j < |s| ==> s[i] != s[j]
  }

  ghost function SetOf(s: seq<int>): set<int> {
    set x | x in s
  }

  lemma {:induction false} SetSize(s: seq<int>)
    requires Distinct(s)
    ensures |SetOf(s)| == |s|
  {
    if s == [] {
      assert SetOf(s) == {};
    } else {
      var front, last := s[..|s| - 1], s[|s| - 1];
      SetSize(front);
      assert s == front + [last];
      assert SetOf(s) == SetOf(front) + {last} && last !in front;
    }
  }

  /** An increasing sequence with all elements in low .. high - 1. */
  ghost predicate IncreasingIn(s: seq<int>, low: int, high: int) {
    && (forall i :: 0 <= i < |s| ==> low <= s[i] < high)
    && (forall i, j :: 0 <= i < j < |s| ==> s[i] < s[j])
  }

  lemma IncreasingSnoc(s: seq<int>, low: int, x: int)
    requires IncreasingIn(s, low, x) && low <= x
    ensures IncreasingIn(s, low, x + 1) && IncreasingIn(s + [x], low, x + 1)
  {
  }
}
