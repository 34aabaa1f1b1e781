/**
  rempi_cp_remote_indexing: how every rank learns in which slot of another rank's window its own
  clock and send count are kept.
 */
module RemoteIndexing {
  import opened Collections

  // ----- who reads from whom -----

  /** preds[p]: the ranks that p receives from, as read from its record. */
  ghost predicate Ranks(preds: seq<seq<nat>>) {
    forall p, i :: 0 <= p < |preds| && 0 <= i < |preds[p]| ==> preds[p][i] < |preds|
  }

  ghost predicate Increasing(s: seq<nat>) {
    forall i, j :: 0 <= i < j < |s| ==> s[i] < s[j]
  }

  ghost predicate Sorted(s: seq<nat>) {
    forall i, j :: 0 <= i < j < |s| ==> s[i] <= s[j]
  }

  /** Step 1: the sum over all ranks of the flag for s. */
  ghost function SuccCount(preds: seq<seq<nat>>, s: nat): nat {
    if preds == [] then 0
    else SuccCount(preds[..|preds| - 1], s) + (if s in preds[|preds| - 1] then 1 else 0)
  }

  /** Step 2: the ranks that are sent to s, one message for each entry of a list. */
  ghost function SentTo(preds: seq<seq<nat>>, s: nat): seq<nat> {
    if preds == [] then []
    else SentTo(preds[..|preds| - 1], s) + seq(multiset(preds[|preds| - 1])[s], i => |preds| - 1)
  }

  lemma {:induction false} TimesIn(list: seq<nat>, s: nat)
    ensures s in list <==> multiset(list)[s] >= 1
    ensures Distinct(list) ==> multiset(list)[s] <= 1
  {
    if list != [] {
      var front, last := list[..|list| - 1], list[|list| - 1];
      assert list == front + [last];
      TimesIn(front, s);
      if Distinct(list) && last == s {
        assert s !in front;
      }
    }
  }

  lemma {:induction false} TwiceIn(list: seq<nat>)
    ensures !Distinct(list) ==> exists s :: s in list && multiset(list)[s] >= 2
  {
    if !Distinct(list) {
      var i, j :| 0 <= i < j < |list| && list[i] == list[j];
      assert list == list[..j] + list[j..];
      assert multiset(list)[list[i]] == multiset(list[..j])[list[i]] + multiset(list[j..])[list[i]];
      assert list[..j][i] == list[i] && list[j..][0] == list[i];
      TimesIn(list[..j], list[i]);
      TimesIn(list[j..], list[i]);
    }
  }

  lemma {:induction false} AtLeastCounted(preds: seq<seq<nat>>, s: nat)
    ensures |SentTo(preds, s)| >= SuccCount(preds, s)
  {
    if preds != [] {
      AtLeastCounted(preds[..|preds| - 1], s);
      TimesIn(preds[|preds| - 1], s);
    }
  }

  lemma {:induction false} TwiceIsTooMany(preds: seq<seq<nat>>, p: nat, s: nat)
    requires p < |preds| && multiset(preds[p])[s] >= 2
    ensures |SentTo(preds, s)| > SuccCount(preds, s)
  {
    var n := |preds| - 1;
    TimesIn(preds[n], s);
    if p == n {
      AtLeastCounted(preds[..n], s);
    } else {
      TwiceIsTooMany(preds[..n], p, s);
    }
  }

  lemma {:induction false} DistinctAreCounted(preds: seq<seq<nat>>, s: nat)
    requires forall p :: 0 <= p < |preds| ==> Distinct(preds[p])
    ensures |SentTo(preds, s)| == SuccCount(preds, s)
    ensures Increasing(SentTo(preds, s))
    ensures forall p: nat :: p in SentTo(preds, s) <==> p < |preds| && s in preds[p]
  {
    if preds != [] {
      var n := |preds| - 1;
      DistinctAreCounted(preds[..n], s);
      TimesIn(preds[n], s);
      var before, last := SentTo(preds[..n], s), seq(multiset(preds[n])[s], i => n);
      assert forall i :: 0 <= i < |before| ==> before[i] in before;
      assert n in last <==> s in preds[n] by {
        if s in preds[n] {
          assert last[0] == n;
        }
      }
      forall p: nat | p in before + last || (p < |preds| && s in preds[p]) ensures p in before + last && p < |preds| && s in preds[p] {
        if p in last {
          assert p == n;
        }
        if p != n {
          assert preds[..n][p] == preds[p];
        }
      }
    }
  }

  /** Every rank posts as many receives as are sent to it if and only if no list names a rank twice. */
  lemma ReceivesMatchIffDistinct(preds: seq<seq<nat>>)
    requires Ranks(preds)
    ensures (forall s :: 0 <= s < |preds| ==> |SentTo(preds, s)| == SuccCount(preds, s))
      <==> (forall p :: 0 <= p < |preds| ==> Distinct(preds[p]))
  {
    if forall p :: 0 <= p < |preds| ==> Distinct(preds[p]) {
      forall s | 0 <= s < |preds| ensures |SentTo(preds, s)| == SuccCount(preds, s) {
        DistinctAreCounted(preds, s);
      }
    } else {
      var p :| 0 <= p < |preds| && !Distinct(preds[p]);
      TwiceIn(preds[p]);
      var s :| s in preds[p] && multiset(preds[p])[s] >= 2;
      TwiceIsTooMany(preds, p, s);
    }
  }

  // ----- gather, sort, reply -----

  /**
    What the ranks hold after the exchange: the gathered ranks came from any source in any order,
    succs[s] is their sorted form, and slots[p][i] is the index that preds[p][i] sent back to p.
   */
  ghost predicate Exchanged(preds: seq<seq<nat>>, gathered: seq<seq<nat>>, succs: seq<seq<nat>>, slots: seq<seq<nat>>) {
    && |gathered| == |succs| == |slots| == |preds| && Ranks(preds)
    && (forall s :: 0 <= s < |preds| ==> multiset(gathered[s]) == multiset(SentTo(preds, s)))
    && (forall s :: 0 <= s < |preds| ==> Sorted(succs[s]) && multiset(succs[s]) == multiset(gathered[s]))
    && (forall p :: 0 <= p < |preds| ==> |slots[p]| == |preds[p]|)
    && (forall p, i :: 0 <= p < |preds| && 0 <= i < |preds[p]| ==> SlotFits(succs[preds[p][i]], slots[p][i], p))
  }

  ghost predicate SlotFits(succ: seq<nat>, slot: nat, p: nat) {
    slot < |succ| && succ[slot] == p
  }

  /** Sorting what was gathered gives one sequence, whatever the order of arrival. */
  lemma {:induction false} SortedIsUnique(a: seq<nat>, b: seq<nat>)
    requires Sorted(a) && Sorted(b) && multiset(a) == multiset(b)
    ensures a == b
  {
    hide Sorted;
    SameLength(a, b);
    if a != [] {
      var x := WithoutLast(a);
      var y := WithoutLast(b);
      LastIsLargest(a, y);
      LastIsLargest(b, x);
      assert x == y && multiset(a[..|a| - 1]) == multiset(a) - multiset{x};
      assert multiset(b[..|b| - 1]) == multiset(a) - multiset{x};
      SortedIsUnique(a[..|a| - 1], b[..|b| - 1]);
    }
  }

  lemma SameLength(a: seq<nat>, b: seq<nat>)
    requires multiset(a) == multiset(b)
    ensures |a| == |b|
  {
    assert |multiset(a)| == |a| && |multiset(b)| == |b|;
  }

  lemma WithoutLast(a: seq<nat>) returns (last: nat)
    requires a != [] && Sorted(a)
    ensures last == a[|a| - 1] && Sorted(a[..|a| - 1]) && a == a[..|a| - 1] + [last]
    ensures multiset(a[..|a| - 1]) == multiset(a) - multiset{last} && last in multiset(a)
  {
    last := a[|a| - 1];
    assert a == a[..|a| - 1] + [last];
    assert multiset(a) == multiset(a[..|a| - 1]) + multiset{last};
  }

  lemma LastIsLargest(a: seq<nat>, x: nat)
    requires Sorted(a) && x in multiset(a)
    ensures a != [] && x <= a[|a| - 1]
  {
    var i :| 0 <= i < |a| && a[i] == x;
  }

  /** The window of s has one slot for each rank that receives from s, in the order of the ranks. */
  lemma WindowHoldsReaders(preds: seq<seq<nat>>, gathered: seq<seq<nat>>, succs: seq<seq<nat>>, slots: seq<seq<nat>>, s: nat)
    requires Exchanged(preds, gathered, succs, slots) && s < |preds|
    requires forall p :: 0 <= p < |preds| ==> Distinct(preds[p])
    ensures succs[s] == SentTo(preds, s) && |succs[s]| == SuccCount(preds, s)
    ensures Increasing(succs[s]) && forall p: nat :: p in succs[s] <==> p < |preds| && s in preds[p]
  {
    DistinctAreCounted(preds, s);
    SortedIsUnique(succs[s], SentTo(preds, s));
  }

  // ----- the index maps -----

  /** rempi_pred_ranks_indices_umap and rempi_succ_ranks_indices_umap: rank to index. */
  method IndexMap(ranks: seq<nat>) returns (indices: map<nat, nat>)
    ensures forall r :: r in indices <==> r in ranks
    ensures forall r :: r in indices ==> indices[r] < |ranks| && ranks[indices[r]] == r
    ensures Distinct(ranks) ==> forall i :: 0 <= i < |ranks| ==> ranks[i] in indices && indices[ranks[i]] == i
  {
    indices := map[];
    for i := 0 to |ranks|
      invariant forall r :: r in indices <==> r in ranks[..i]
      invariant forall r :: r in indices ==> indices[r] < i && ranks[indices[r]] == r
    {
      assert ranks[..i + 1] == ranks[..i] + [ranks[i]];
      indices := indices[ranks[i] := i];
    }
    assert ranks[..|ranks|] == ranks;
    forall i | 0 <= i < |ranks| && Distinct(ranks) ensures ranks[i] in indices && indices[ranks[i]] == i {
      assert ranks[i] in ranks && ranks[indices[ranks[i]]] == ranks[i];
    }
  }

  // ----- readers and writers agree -----

  /**
    The slot that p reads from s is the one that s writes for p, and no two readers of s share a
    slot; `written` is what s looks up when it sends to p.
   */
  lemma SlotsAgree(preds: seq<seq<nat>>, gathered: seq<seq<nat>>, succs: seq<seq<nat>>, slots: seq<seq<nat>>,
        p: nat, i: nat, written: map<nat, nat>)
    requires Exchanged(preds, gathered, succs, slots) && forall q :: 0 <= q < |preds| ==> Distinct(preds[q])
    requires p < |preds| && i < |preds[p]|
    requires forall k :: 0 <= k < |succs[preds[p][i]]| ==>
      succs[preds[p][i]][k] in written && written[succs[preds[p][i]][k]] == k
    ensures p in written && slots[p][i] == written[p] < SuccCount(preds, preds[p][i])
    ensures forall q, j :: 0 <= q < |preds| && 0 <= j < |preds[q]| && preds[q][j] == preds[p][i] && slots[q][j] == slots[p][i] ==> q == p
  {
    var s := preds[p][i];
    WindowHoldsReaders(preds, gathered, succs, slots, s);
    assert SlotFits(succs[s], slots[p][i], p);
    forall q, j | 0 <= q < |preds| && 0 <= j < |preds[q]| && preds[q][j] == s && slots[q][j] == slots[p][i] ensures q == p {
      assert SlotFits(succs[s], slots[q][j], q);
    }
  }
}
