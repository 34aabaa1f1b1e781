/**
  Replay reproduces the recorded stream, whatever the order in which messages of different
  sources arrive: the invariant of one table over all calls of cdc_decode_ordering.
 */
module ReplayFidelity {
  import opened Collections
  import opened EditScripts
  import opened Messages
  import opened EpochTables
  import opened Clocks
  import opened ReplayOrdering

  /** One epoch of one matching set, as recorded. */
  datatype Recording = Recording(events: seq<Item>, unmatched: map<nat, int>)

  /** What the recorder guarantees: real, distinct clocks, complete groups, no test inside a group. */
  ghost predicate ValidRecording(r: Recording) {
    && (forall i :: 0 <= i < |r.events| ==> r.events[i].Matched? && r.events[i].clock > 0)
    && NoRepeats(Keys(r.events))
    && !LastWithNext(r.events)
    && (forall k :: k in r.unmatched ==> k <= |r.events| && Boundary(r, k))
  }

  ghost predicate Boundary(r: Recording, k: nat)
    requires k <= |r.events|
  {
    k == 0 || !ItemWithNext(r.events[k - 1])
  }

  ghost function Ks(r: Recording): seq<Msg>
    requires ValidRecording(r)
  {
    Keys(r.events)
  }

  /** The messages of the epoch in (clock, source) order. */
  ghost function Ts(r: Recording): seq<Msg>
    requires ValidRecording(r)
  {
    Sort(Ks(r))
  }

  /** The decoded table describes the recording. */
  ghost predicate Describes(e: Epoch, r: Recording)
    requires ValidRecording(r)
  {
    var n := |r.events|;
    && e.count == n && |e.positions| == n
    && (forall k {:trigger e.positions[k]} :: 0 <= k < n ==> e.positions[k] < n && Ks(r)[e.positions[k]] == Ts(r)[k])
    && (e.withNext == [] || |e.withNext| == n)
    && (forall i :: 0 <= i < n ==> (r.events[i].withNext <==> e.withNext != [] && e.withNext[i]))
    && IndicesOf(e, r)
    && IsLine(Ks(r), e.line)
  }

  ghost predicate IndicesOf(e: Epoch, r: Recording) {
    |e.matchedIndex| == |r.events| && forall i :: 0 <= i < |r.events| && r.events[i].Matched? ==> e.matchedIndex[i] == r.events[i].index
  }

  lemma PositionsDistinct(e: Epoch, r: Recording)
    requires ValidRecording(r) && Describes(e, r)
    ensures StrictlySorted(Ts(r)) && |Ts(r)| == |r.events|
    ensures forall m :: m in Ts(r) <==> m in Ks(r)
    ensures EditScripts.IsPermutation(e.positions)
    ensures forall k :: 0 <= k < |r.events| ==> Ts(r)[k] == Ks(r)[e.positions[k]]
  {
    forall j, k | 0 <= j < k < |e.positions| ensures e.positions[j] != e.positions[k] {
      assert Less(Ts(r)[j], Ts(r)[k]);
    }
    assert Distinct(e.positions);
  }

  // ----- the solid list, spelled out -----

  /** Of the d smallest messages, those whose observed position is not replayed yet. */
  ghost function SolidOf(positions: seq<nat>, t: seq<Msg>, d: nat, replayed: nat): seq<Placed>
    requires d <= |t| && d <= |positions|
  {
    if d == 0 then []
    else SolidOf(positions, t, d - 1, replayed) + (if positions[d - 1] >= replayed then [Placed(t[d - 1], d - 1)] else [])
  }

  lemma {:induction false} SolidEntries(positions: seq<nat>, t: seq<Msg>, d: nat, replayed: nat)
    requires d <= |t| && d <= |positions|
    ensures var s := SolidOf(positions, t, d, replayed);
      && (forall p :: p in s ==> p.order < d && p.msg == t[p.order] && positions[p.order] >= replayed)
      && (forall k :: 0 <= k < d && positions[k] >= replayed ==> Placed(t[k], k) in s)
  {
    if d > 0 {
      SolidEntries(positions, t, d - 1, replayed);
    }
  }

  /** Positions of the d smallest messages that are not replayed yet. */
  ghost function Remaining(positions: seq<nat>, d: nat, replayed: nat): seq<nat>
    requires d <= |positions|
  {
    if d == 0 then []
    else Remaining(positions, d - 1, replayed) + (if positions[d - 1] >= replayed then [positions[d - 1]] else [])
  }

  lemma {:induction false} RemainingEntries(positions: seq<nat>, t: seq<Msg>, d: nat, replayed: nat)
    requires d <= |positions| && d <= |t| && Distinct(positions)
    ensures Distinct(Remaining(positions, d, replayed))
    ensures forall v :: v in Remaining(positions, d, replayed) <==> v >= replayed && v in positions[..d]
    ensures |SolidOf(positions, t, d, replayed)| == |Remaining(positions, d, replayed)|
  {
    if d > 0 {
      RemainingEntries(positions, t, d - 1, replayed);
      assert positions[..d] == positions[..d - 1] + [positions[d - 1]];
      assert positions[d - 1] !in positions[..d - 1];
    }
  }

  lemma {:induction false} RemainingGrows(positions: seq<nat>, d: nat, n: nat, replayed: nat)
    requires d <= n <= |positions| && forall k :: d <= k < n ==> positions[k] >= replayed
    ensures |Remaining(positions, n, replayed)| == |Remaining(positions, d, replayed)| + n - d
  {
    if n > d {
      RemainingGrows(positions, d, n - 1, replayed);
    }
  }

  /** Every replayed message was solid, so solid and replayed messages together are the d smallest. */
  lemma SolidCountsUp(positions: seq<nat>, t: seq<Msg>, d: nat, replayed: nat)
    requires |t| == |positions| && d <= |positions| && IsPermutation(positions) && replayed <= |positions|
    requires forall k :: d <= k < |positions| ==> positions[k] >= replayed
    ensures |SolidOf(positions, t, d, replayed)| + replayed == d
  {
    var n := |positions|;
    RemainingEntries(positions, t, d, replayed);
    RemainingEntries(positions, t, n, replayed);
    RemainingGrows(positions, d, n, replayed);
    var all, late := Remaining(positions, n, replayed), Iota(n)[replayed..];
    assert positions[..n] == positions;
    forall v ensures v in Elements(all) <==> v in Elements(late) {
      if replayed <= v < n {
        PermutationIsOnto(positions, v);
        assert late[v - replayed] == v;
      }
    }
    DistinctSetSize(all);
    DistinctSetSize(late);
    assert Elements(all) == Elements(late);
  }

  /** The d-th smallest messages extend the solid list in order; the "smaller event" error cannot occur. */
  lemma {:induction false} SolidifyExtends(positions: seq<nat>, t: seq<Msg>, d: nat, c: nat, replayed: nat)
    requires |t| == |positions| && d + c <= |t| && StrictlySorted(t)
    requires forall k :: d <= k < |positions| ==> positions[k] >= replayed
    ensures Solidify(SolidOf(positions, t, d, replayed), t[d..d + c], d) == Some(SolidOf(positions, t, d + c, replayed))
    decreases c
  {
    if c > 0 {
      var s, msgs := SolidOf(positions, t, d, replayed), t[d..d + c];
      assert s != [] ==> Less(s[|s| - 1].msg, msgs[0]) by {
        SolidEndsBelow(positions, t, d, replayed);
      }
      assert msgs[0] == t[d] && msgs[1..] == t[d + 1..d + c];
      SolidifyExtends(positions, t, d + 1, c - 1, replayed);
      assert SolidOf(positions, t, d + 1, replayed) == s + [Placed(t[d], d)];
    }
  }

  lemma {:induction false} SolidEndsBelow(positions: seq<nat>, t: seq<Msg>, d: nat, replayed: nat)
    requires d < |t| && d <= |positions| && StrictlySorted(t)
    ensures var s := SolidOf(positions, t, d, replayed); s != [] ==> Less(s[|s| - 1].msg, t[d])
  {
    var s := SolidOf(positions, t, d, replayed);
    SolidEntries(positions, t, d, replayed);
    if s != [] {
      var last := s[|s| - 1];
      assert last in s;
      assert Less(t[last.order], t[d]);
    }
  }

  /** Handing out the group takes exactly its messages from the solid list. */
  lemma {:induction false} WithoutGroup(positions: seq<nat>, t: seq<Msg>, d: nat, replayed: nat, o: nat, slots: seq<Option<Msg>>)
    requires |t| == |positions| && d <= |t|
    requires forall k :: 0 <= k < d ==> (Some(t[k]) in slots <==> replayed <= positions[k] < replayed + o)
    ensures Without(SolidOf(positions, t, d, replayed), slots) == SolidOf(positions, t, d, replayed + o)
  {
    if d > 0 {
      WithoutGroup(positions, t, d - 1, replayed, o, slots);
      var s := SolidOf(positions, t, d - 1, replayed);
      if positions[d - 1] >= replayed {
        assert (s + [Placed(t[d - 1], d - 1)])[..|s|] == s;
      } else {
        assert SolidOf(positions, t, d, replayed) == s;
        assert SolidOf(positions, t, d, replayed + o) == SolidOf(positions, t, d - 1, replayed + o);
      }
    }
  }

  // ----- taking in arrivals -----

  ghost function AsSet(s: seq<Msg>): set<Msg> {
    set m | m in s
  }

  /** The reached clocks separate the messages taken in from the others. */
  ghost predicate ReachedIs(t: seq<Msg>, reached: map<int, int>, known: set<Msg>) {
    forall m :: m in t ==> (m.clock <= Lookup(reached, m.source) <==> m in known)
  }

  /** Message w is new, and everything its source sent before in this epoch came before it. */
  ghost predicate ComesInOrder(t: seq<Msg>, known: set<Msg>, waiting: seq<Msg>, w: nat)
    requires w < |waiting|
  {
    && waiting[w] in t && waiting[w] !in known && waiting[w] !in waiting[..w]
    && forall m :: m in t && m.source == waiting[w].source && m.clock < waiting[w].clock ==> m in known || m in waiting[..w]
  }

  ghost predicate InOrder(e: Epoch, t: seq<Msg>, known: set<Msg>, waiting: seq<Msg>) {
    forall w {:trigger ComesInOrder(t, known, waiting, w)} :: 0 <= w < |waiting| && WithinEpoch(e, waiting[w]) ==> ComesInOrder(t, known, waiting, w)
  }

  lemma {:induction false} AdmittedAre(e: Epoch, waiting: seq<Msg>)
    ensures forall m :: m in Admitted(e, waiting) <==> m in waiting && WithinEpoch(e, m)
    ensures forall m :: m in Postponed(e, waiting) <==> m in waiting && !WithinEpoch(e, m)
  {
    if waiting != [] {
      AdmittedAre(e, waiting[..|waiting| - 1]);
      assert waiting == waiting[..|waiting| - 1] + [waiting[|waiting| - 1]];
    }
  }

  lemma {:induction false} AdmitInOrder(e: Epoch, t: seq<Msg>, known: set<Msg>, reached: map<int, int>, waiting: seq<Msg>)
    requires forall m :: m in t ==> WithinEpoch(e, m)
    requires ReachedIs(t, reached, known) && InOrder(e, t, known, waiting)
    ensures NoRepeats(Admitted(e, waiting))
    ensures forall m :: m in Admitted(e, waiting) ==> m in t && m !in known
    ensures ReachedIs(t, ReachedAfter(reached, Admitted(e, waiting)), known + AsSet(Admitted(e, waiting)))
  {
    if waiting == [] {
      assert known + AsSet([]) == known;
    } else {
      var w := |waiting| - 1;
      var front, last := waiting[..w], waiting[w];
      forall v | 0 <= v < w && WithinEpoch(e, front[v]) ensures ComesInOrder(t, known, front, v) {
        assert ComesInOrder(t, known, waiting, v);
        assert front[..v] == waiting[..v];
      }
      AdmitInOrder(e, t, known, reached, front);
      if WithinEpoch(e, last) {
        assert ComesInOrder(t, known, waiting, w);
        assert waiting[..w] == front;
        AdmittedAre(e, front);
        hide InOrder, ComesInOrder;
        AdmitLast(t, known, reached, Admitted(e, front), last);
      } else {
        assert Admitted(e, waiting) == Admitted(e, front);
      }
    }
  }

  lemma AdmitLast(t: seq<Msg>, known: set<Msg>, reached: map<int, int>, before: seq<Msg>, last: Msg)
    requires NoRepeats(before) && (forall m :: m in before ==> m in t && m !in known)
    requires ReachedIs(t, ReachedAfter(reached, before), known + AsSet(before))
    requires last in t && last !in known && last !in before
    requires forall m :: m in t && m.source == last.source && m.clock < last.clock ==> m in known || m in before
    ensures NoRepeats(before + [last]) && (forall m :: m in before + [last] ==> m in t && m !in known)
    ensures ReachedIs(t, ReachedAfter(reached, before + [last]), known + AsSet(before + [last]))
  {
    assert (before + [last])[..|before|] == before;
    ReachedStep(t, ReachedAfter(reached, before), known + AsSet(before), last);
    assert known + AsSet(before + [last]) == known + AsSet(before) + {last};
  }

  lemma ReachedStep(t: seq<Msg>, reached: map<int, int>, known: set<Msg>, x: Msg)
    requires ReachedIs(t, reached, known) && x in t && x !in known
    requires forall m :: m in t && m.source == x.source && m.clock < x.clock ==> m in known
    ensures ReachedIs(t, reached[x.source := x.clock], known + {x})
  {
  }

  // ----- solid messages -----

  /** No message still to come is smaller than ordered[j]. */
  ghost predicate BeforeTheRest(t: seq<Msg>, d: nat, ordered: seq<Msg>, j: nat)
    requires d <= |t| && j < |ordered|
  {
    forall m :: m in t[d..] && m !in ordered ==> Less(ordered[j], m)
  }

  ghost predicate AllIn(s: seq<Msg>, t: seq<Msg>, d: nat)
    requires d <= |t|
  {
    forall m :: m in s ==> m in t[d..]
  }

  lemma SolidHead(t: seq<Msg>, d: nat, ordered: seq<Msg>)
    requires d <= |t| && ordered != [] && StrictlySorted(t) && StrictlySorted(ordered)
    requires AllIn(ordered, t, d) && BeforeTheRest(t, d, ordered, 0)
    ensures d < |t| && ordered[0] == t[d]
  {
    assert ordered[0] in t[d..];
    var k :| d <= k < |t| && t[k] == ordered[0];
    assert t[d] in t[d..];
    assert k == d || Less(t[d], t[k]);
    if t[d] in ordered {
      var i :| 0 <= i < |ordered| && ordered[i] == t[d];
      assert i == 0 || Less(ordered[0], ordered[i]);
    }
  }

  lemma SolidTail(t: seq<Msg>, d: nat, ordered: seq<Msg>)
    requires d < |t| && ordered != [] && StrictlySorted(t) && StrictlySorted(ordered)
    requires AllIn(ordered, t, d) && ordered[0] == t[d]
    ensures AllIn(ordered[1..], t, d + 1) && StrictlySorted(ordered[1..])
  {
    var rest := ordered[1..];
    assert t[d..] == [t[d]] + t[d + 1..];
    forall m | m in rest ensures m in t[d + 1..] {
      var i :| 0 <= i < |rest| && rest[i] == m;
      assert ordered[i + 1] == m && m in t[d..];
      assert Less(ordered[0], ordered[i + 1]);
    }
  }

  lemma RestStaysBefore(t: seq<Msg>, d: nat, ordered: seq<Msg>, j: nat)
    requires d < |t| && StrictlySorted(t) && j + 1 < |ordered| && ordered[0] == t[d]
    requires BeforeTheRest(t, d, ordered, j + 1)
    ensures BeforeTheRest(t, d + 1, ordered[1..], j)
  {
    forall m | m in t[d + 1..] && m !in ordered[1..] ensures Less(ordered[j + 1], m) {
      var i :| d + 1 <= i < |t| && t[i] == m;
      assert Less(t[d], t[i]) && t[d..][i - d] == m;
      assert ordered == [ordered[0]] + ordered[1..];
      assert m !in ordered;
    }
  }

  /** What is ordered and certainly smaller than everything still to come continues the total order. */
  lemma {:induction false} SolidPrefix(t: seq<Msg>, d: nat, ordered: seq<Msg>, c: nat)
    requires d <= |t| && c <= |ordered| && StrictlySorted(t) && StrictlySorted(ordered)
    requires AllIn(ordered, t, d)
    requires forall j :: 0 <= j < c ==> BeforeTheRest(t, d, ordered, j)
    ensures d + c <= |t| && ordered[..c] == t[d..d + c]
    ensures AllIn(ordered[c..], t, d + c) && StrictlySorted(ordered[c..])
    decreases c
  {
    if c > 0 {
      SolidHead(t, d, ordered);
      SolidTail(t, d, ordered);
      var after, rest := d + 1, ordered[1..];
      forall j | 0 <= j < c - 1 ensures BeforeTheRest(t, after, rest, j) {
        RestStaysBefore(t, d, ordered, j);
      }
      SolidPrefix(t, after, rest, c - 1);
      assert ordered[1..][c - 1..] == ordered[c..];
      assert ordered[..c] == [ordered[0]] + ordered[1..][..c - 1];
      assert t[d..d + c] == [t[d]] + t[d + 1..d + c];
    } else {
      assert ordered[0..] == ordered;
    }
  }

  // ----- the slots of a group -----

  ghost function CountSome(slots: seq<Option<Msg>>): nat {
    if slots == [] then 0
    else CountSome(slots[..|slots| - 1]) + (if slots[|slots| - 1].Some? then 1 else 0)
  }

  lemma {:induction false} CountSomeUpdate(slots: seq<Option<Msg>>, i: nat, m: Msg)
    requires i < |slots| && slots[i].None?
    ensures CountSome(slots[i := Some(m)]) == CountSome(slots) + 1
  {
    var more, last := slots[i := Some(m)], |slots| - 1;
    if i == last {
      assert more[..last] == slots[..last];
    } else {
      CountSomeUpdate(slots[..last], i, m);
      assert more[..last] == slots[..last][i := Some(m)];
    }
  }

  lemma {:induction false} CountSomeFull(slots: seq<Option<Msg>>)
    ensures CountSome(slots) <= |slots|
    ensures CountSome(slots) == |slots| <==> forall i :: 0 <= i < |slots| ==> slots[i].Some?
  {
    if slots != [] {
      CountSomeFull(slots[..|slots| - 1]);
    }
  }

  /** Slot j holds the message observed at replayed + j, if it is among the first k solid ones. */
  ghost predicate SlotsFrom(e: Epoch, keys: seq<Msg>, solid: seq<Placed>, k: nat, replayed: nat, f: Filling)
    requires k <= |solid| && forall i :: 0 <= i < |solid| ==> solid[i].order < |e.positions|
  {
    && f.Filling? && replayed + |f.slots| <= |keys| && f.added == CountSome(f.slots)
    && (forall j :: 0 <= j < |f.slots| && f.slots[j].Some? ==> f.slots[j].value == keys[replayed + j])
    && (forall j :: 0 <= j < |f.slots| ==> (f.slots[j].Some? <==> Hits(e, solid, k, replayed + j)))
  }

  /** One of the first k solid messages was observed in this position. */
  ghost predicate Hits(e: Epoch, solid: seq<Placed>, k: nat, position: nat)
    requires k <= |solid| && forall i :: 0 <= i < |solid| ==> solid[i].order < |e.positions|
  {
    k > 0 && (e.positions[solid[k - 1].order] == position || Hits(e, solid, k - 1, position))
  }

  lemma {:induction false} HitsAt(e: Epoch, solid: seq<Placed>, k: nat, position: nat)
    requires k <= |solid| && forall i :: 0 <= i < |solid| ==> solid[i].order < |e.positions|
    ensures Hits(e, solid, k, position) <==> exists i :: 0 <= i < k && e.positions[solid[i].order] == position
  {
    if k > 0 {
      HitsAt(e, solid, k - 1, position);
    }
  }

  /** The solid list the slots are filled from: each entry has its own position, not replayed yet. */
  ghost predicate FillSource(e: Epoch, keys: seq<Msg>, solid: seq<Placed>, replayed: nat) {
    && (forall i :: 0 <= i < |solid| ==> solid[i].order < |e.positions| && replayed <= e.positions[solid[i].order] < |keys|)
    && (forall i :: 0 <= i < |solid| ==> solid[i].msg == keys[e.positions[solid[i].order]])
    && (forall i, j :: 0 <= i < j < |solid| ==> e.positions[solid[i].order] != e.positions[solid[j].order])
  }

  lemma FillStep(e: Epoch, keys: seq<Msg>, solid: seq<Placed>, k: nat, replayed: nat, f: Filling)
    requires k < |solid| && FillSource(e, keys, solid, replayed) && SlotsFrom(e, keys, solid, k, replayed, f)
    ensures SlotsFrom(e, keys, solid, k + 1, replayed, FillOne(e, solid[k], replayed, f))
  {
    var p := solid[k];
    var index := e.positions[p.order] - replayed;
    if index < |f.slots| {
      HitsAt(e, solid, k, replayed + index);
      assert f.slots[index].None?;
      CountSomeUpdate(f.slots, index, p.msg);
    }
  }

  /** No error can occur, and filling stops early only when every slot is taken. */
  lemma {:induction false} FillFromCorrect(e: Epoch, keys: seq<Msg>, solid: seq<Placed>, k: nat, replayed: nat, f: Filling) returns (end: nat)
    requires k <= |solid| && FillSource(e, keys, solid, replayed) && SlotsFrom(e, keys, solid, k, replayed, f)
    ensures var g := FillFrom(e, solid, k, replayed, f);
      g.Filling? && |g.slots| == |f.slots| && end <= |solid| && SlotsFrom(e, keys, solid, end, replayed, g)
      && (end == |solid| || g.added == |g.slots|)
    decreases |solid| - k
  {
    end := k;
    if k < |solid| && f.added != |f.slots| {
      FillStep(e, keys, solid, k, replayed, f);
      end := FillFromCorrect(e, keys, solid, k + 1, replayed, FillOne(e, solid[k], replayed, f));
    }
  }

  // ----- the invariant -----

  /** What the list operations rely on: t is the total order, positions the observed places. */
  ghost predicate Frame(e: Epoch, t: seq<Msg>) {
    && StrictlySorted(t) && |e.positions| == |t| && IsPermutation(e.positions)
    && (forall m :: m in t ==> WithinEpoch(e, m) && m.clock > 0 && m.source in e.line)
    && (forall source :: source in e.line ==> Msg(source, e.line[source]) in t)
  }

  lemma FrameOf(e: Epoch, r: Recording)
    requires ValidRecording(r) && Describes(e, r)
    ensures Frame(e, Ts(r))
  {
    PositionsDistinct(e, r);
    forall m | m in Ts(r) ensures WithinEpoch(e, m) && m.clock > 0 && m.source in e.line {
      assert m in Ks(r);
    }
  }

  /** How many of the smallest messages are solid or replayed. */
  ghost function Settled(s: Progress): nat {
    |s.solid| + s.replayed
  }

  ghost function KnownSet(t: seq<Msg>, s: Progress): set<Msg>
    requires Settled(s) <= |t|
  {
    AsSet(t[..Settled(s)]) + AsSet(s.ordered)
  }

  /** Solid and ordered messages are in the total order of the epoch. */
  ghost predicate ListsOk(e: Epoch, t: seq<Msg>, s: Progress)
    requires |e.positions| == |t|
  {
    var d := Settled(s);
    && d <= |t| && s.solid == SolidOf(e.positions, t, d, s.replayed)
    && (forall k :: d <= k < |t| ==> e.positions[k] >= s.replayed)
    && StrictlySorted(s.ordered) && AllIn(s.ordered, t, d)
  }

  ghost predicate BelowLine(e: Epoch, reached: map<int, int>) {
    forall source :: source in e.line ==> Lookup(reached, source) <= e.line[source]
  }

  lemma {:induction false} AdmittedBelowLine(e: Epoch, reached: map<int, int>, waiting: seq<Msg>)
    requires BelowLine(e, reached)
    ensures BelowLine(e, ReachedAfter(reached, Admitted(e, waiting)))
  {
    if waiting != [] {
      var front, last := waiting[..|waiting| - 1], waiting[|waiting| - 1];
      AdmittedBelowLine(e, reached, front);
      var before, after := Admitted(e, front), Admitted(e, waiting);
      if WithinEpoch(e, last) {
        assert after == before + [last] && after[..|before|] == before;
      } else {
        assert after == before;
      }
    }
  }

  /** Every message of the epoch that arrived is waiting, ordered, solid or replayed. */
  ghost predicate ArrivalsOk(e: Epoch, t: seq<Msg>, s: Progress, arrived: set<Msg>)
    requires Settled(s) <= |t|
  {
    var known := KnownSet(t, s);
    && ReachedIs(t, s.reached, known) && BelowLine(e, s.reached)
    && InOrder(e, t, known, s.waiting)
    && (forall m :: m in t ==> (m in arrived <==> m in known || m in s.waiting))
  }

  /** What was handed out is the stream up to here, and nothing else is left of the unmatched runs. */
  ghost predicate OutputOk(r: Recording, s: Progress, out: seq<Item>)
    requires ValidRecording(r)
  {
    && s.replayed <= |r.events| && Boundary(r, s.replayed)
    && (forall k :: k in s.unmatched ==> k in r.unmatched && s.unmatched[k] == r.unmatched[k] && k >= s.replayed)
    && (forall k :: k in r.unmatched && k > s.replayed ==> k in s.unmatched)
    && out == ItemsBefore(r.events, r.unmatched, s.replayed)
      + (if s.replayed in s.unmatched then [] else RunAt(r.unmatched, s.replayed))
  }

  ghost predicate Inv(e: Epoch, r: Recording, s: Progress, out: seq<Item>, arrived: set<Msg>)
    requires ValidRecording(r)
  {
    |e.positions| == |Ts(r)| && ListsOk(e, Ts(r), s) && OutputOk(r, s, out) && ArrivalsOk(e, Ts(r), s, arrived)
  }

  lemma StartInv(e: Epoch, r: Recording)
    requires ValidRecording(r) && Describes(e, r)
    ensures Inv(e, r, Start(r.unmatched), [], {})
  {
    FrameOf(e, r);
    StartLists(e, Ts(r), r.unmatched);
    StartOutput(r);
  }

  lemma StartLists(e: Epoch, t: seq<Msg>, unmatched: map<nat, int>)
    requires Frame(e, t)
    ensures ListsOk(e, t, Start(unmatched)) && ArrivalsOk(e, t, Start(unmatched), {})
  {
    forall source | source in e.line ensures 0 <= e.line[source] {
      assert Msg(source, e.line[source]) in t;
    }
    assert KnownSet(t, Start(unmatched)) == {};
  }

  lemma StartOutput(r: Recording)
    requires ValidRecording(r)
    ensures OutputOk(r, Start(r.unmatched), [])
  {
  }

  // ----- arrivals -----

  /** A message arrives after everything its source sent before in the epoch, and only once. */
  ghost predicate ArrivesOk(e: Epoch, t: seq<Msg>, arrived: set<Msg>, m: Msg) {
    WithinEpoch(e, m) ==>
      && m in t && m !in arrived
      && forall x :: x in t && x.source == m.source && x.clock < m.clock ==> x in arrived
  }

  lemma ArriveKeeps(e: Epoch, t: seq<Msg>, s: Progress, arrived: set<Msg>, m: Msg)
    requires Frame(e, t) && ListsOk(e, t, s) && ArrivalsOk(e, t, s, arrived) && ArrivesOk(e, t, arrived, m)
    ensures var next := s.(waiting := s.waiting + [m]);
      ListsOk(e, t, next) && ArrivalsOk(e, t, next, arrived + {m})
  {
    var more, known := s.waiting + [m], KnownSet(t, s);
    forall w | 0 <= w < |more| && WithinEpoch(e, more[w]) ensures ComesInOrder(t, known, more, w) {
      if w < |s.waiting| {
        assert ComesInOrder(t, known, s.waiting, w);
        assert more[..w] == s.waiting[..w];
      } else {
        assert more[..w] == s.waiting;
      }
    }
    assert KnownSet(t, s.(waiting := more)) == known;
  }

  lemma NothingWithinIsLeft(e: Epoch, t: seq<Msg>, known: set<Msg>, waiting: seq<Msg>)
    ensures InOrder(e, t, known, Postponed(e, waiting))
  {
    AdmittedAre(e, waiting);
    forall w | 0 <= w < |Postponed(e, waiting)| ensures !WithinEpoch(e, Postponed(e, waiting)[w]) {
      assert Postponed(e, waiting)[w] in Postponed(e, waiting);
    }
  }

  lemma TakeInKeepsLists(e: Epoch, t: seq<Msg>, s: Progress)
    requires Frame(e, t) && ListsOk(e, t, s)
    requires NoRepeats(Admitted(e, s.waiting))
    requires forall m :: m in Admitted(e, s.waiting) ==> m in t && m !in KnownSet(t, s)
    ensures ListsOk(e, t, TakeIn(e, s))
    ensures KnownSet(t, TakeIn(e, s)) == KnownSet(t, s) + AsSet(Admitted(e, s.waiting))
  {
    var d, admitted, next := Settled(s), Admitted(e, s.waiting), TakeIn(e, s);
    SortedNoRepeats(s.ordered);
    assert forall m :: m in s.ordered ==> m in KnownSet(t, s);
    NoRepeatsConcat(s.ordered, admitted);
    assert t == t[..d] + t[d..];
    assert forall m :: m in t[..d] ==> m in KnownSet(t, s);
    assert forall m :: m in next.ordered <==> m in s.ordered + admitted;
  }

  lemma TakeInKeeps(e: Epoch, t: seq<Msg>, s: Progress, arrived: set<Msg>)
    requires Frame(e, t) && ListsOk(e, t, s) && ArrivalsOk(e, t, s, arrived)
    ensures ListsOk(e, t, TakeIn(e, s)) && ArrivalsOk(e, t, TakeIn(e, s), arrived)
    ensures forall m :: m in t ==> (m in arrived <==> m in KnownSet(t, TakeIn(e, s)))
  {
    AdmitInOrder(e, t, KnownSet(t, s), s.reached, s.waiting);
    AdmittedBelowLine(e, s.reached, s.waiting);
    TakeInKeepsLists(e, t, s);
    NothingWithinIsLeft(e, t, KnownSet(t, TakeIn(e, s)), s.waiting);
    AdmittedAre(e, s.waiting);
  }

  // ----- soundness of the look-ahead bound -----

  /** Nothing that has not arrived is smaller than the bound (in a collective: than what arrived). */
  ghost predicate SoundBound(t: seq<Msg>, arrived: set<Msg>, bound: Msg) {
    forall u :: u in t && u !in arrived ==>
      if bound.clock == COLLECTIVE_CLOCK then forall a :: a in t && a in arrived ==> Less(a, u)
      else !Less(u, bound)
  }

  ghost predicate AllArrived(t: seq<Msg>, arrived: set<Msg>) {
    forall m :: m in t ==> m in arrived
  }

  ghost predicate NotBefore(later: seq<Msg>, bound: Msg) {
    bound.clock != COLLECTIVE_CLOCK ==> forall m :: m in later ==> m.clock >= bound.clock
  }

  lemma SolidAreSmaller(e: Epoch, t: seq<Msg>, s: Progress, arrived: set<Msg>, bound: Msg, j: nat, u: Msg)
    requires Frame(e, t) && ListsOk(e, t, s) && ArrivalsOk(e, t, s, arrived) && SoundBound(t, arrived, bound)
    requires forall m :: m in t ==> (m in arrived <==> m in KnownSet(t, s))
    requires j < SolidCount(e, s, bound) && u in t[Settled(s)..] && u !in s.ordered
    ensures Less(s.ordered[j], u)
  {
    var d, a := Settled(s), s.ordered[j];
    var k :| d <= k < |t| && t[k] == u;
    NotSettled(t, s, k);
    assert u !in KnownSet(t, s) && u !in arrived;
    assert a in s.ordered && a in t[d..] && a in KnownSet(t, s);
    assert a in t;
    if bound.clock != COLLECTIVE_CLOCK {
      assert u.clock > Lookup(s.reached, u.source);
      assert u.source in e.line && u.clock <= e.line[u.source];
      assert !ReachedEpochLine(e, s.reached);
      assert IsSolid(a, bound, false);
    }
  }

  lemma AllArrivedReachesLine(e: Epoch, t: seq<Msg>, s: Progress, arrived: set<Msg>)
    requires Frame(e, t) && ListsOk(e, t, s) && ArrivalsOk(e, t, s, arrived)
    requires forall m :: m in t ==> m in KnownSet(t, s)
    ensures ReachedEpochLine(e, s.reached)
  {
    forall source | source in e.line ensures Lookup(s.reached, source) == e.line[source] {
      assert Msg(source, e.line[source]) in KnownSet(t, s);
    }
  }

  lemma SolidArePrefix(e: Epoch, t: seq<Msg>, s: Progress, arrived: set<Msg>, bound: Msg)
    requires Frame(e, t) && ListsOk(e, t, s) && ArrivalsOk(e, t, s, arrived) && SoundBound(t, arrived, bound)
    requires forall m :: m in t ==> (m in arrived <==> m in KnownSet(t, s))
    ensures var n, d := SolidCount(e, s, bound), Settled(s);
      && d + n <= |t| && s.ordered[..n] == t[d..d + n]
      && AllIn(s.ordered[n..], t, d + n) && StrictlySorted(s.ordered[n..])
  {
    var n, d := SolidCount(e, s, bound), Settled(s);
    forall j | 0 <= j < n ensures BeforeTheRest(t, d, s.ordered, j) {
      forall u | u in t[d..] && u !in s.ordered ensures Less(s.ordered[j], u) {
        SolidAreSmaller(e, t, s, arrived, bound, j, u);
      }
    }
    SolidPrefix(t, d, s.ordered, n);
  }

  /** The solid messages are the next ones of the total order, numbered by their place in it. */
  lemma SolidMoves(e: Epoch, t: seq<Msg>, s: Progress, n: nat) returns (next: Progress)
    requires StrictlySorted(t) && |e.positions| == |t| && IsPermutation(e.positions) && ListsOk(e, t, s) && s.replayed <= |t|
    requires n <= |s.ordered| && Settled(s) + n <= |t| && s.ordered[..n] == t[Settled(s)..Settled(s) + n]
    requires AllIn(s.ordered[n..], t, Settled(s) + n) && StrictlySorted(s.ordered[n..])
    ensures next == s.(ordered := s.ordered[n..], solid := next.solid)
    ensures Solidify(s.solid, s.ordered[..n], |s.solid| + s.replayed) == Some(next.solid)
    ensures ListsOk(e, t, next) && KnownSet(t, next) == KnownSet(t, s)
  {
    hide AllIn, StrictlySorted;
    var d := Settled(s);
    SolidifyExtends(e.positions, t, d, n, s.replayed);
    SolidCountsUp(e.positions, t, d + n, s.replayed);
    next := s.(ordered := s.ordered[n..], solid := SolidOf(e.positions, t, d + n, s.replayed));
    KnownUnchanged(t, s, next, n);
  }

  lemma SolidStep(e: Epoch, t: seq<Msg>, s: Progress, arrived: set<Msg>, bound: Msg) returns (next: Progress)
    requires Frame(e, t) && ListsOk(e, t, s) && ArrivalsOk(e, t, s, arrived) && SoundBound(t, arrived, bound)
    requires forall m :: m in t ==> (m in arrived <==> m in KnownSet(t, s))
    ensures next == s.(ordered := s.ordered[SolidCount(e, s, bound)..], solid := next.solid)
    ensures Solidify(s.solid, s.ordered[..SolidCount(e, s, bound)], |s.solid| + s.replayed) == Some(next.solid)
    ensures ListsOk(e, t, next) && ArrivalsOk(e, t, next, arrived)
    ensures AllArrived(t, arrived) ==> Settled(next) == |t|
    ensures NotBefore(t[Settled(next)..], bound)
  {
    SolidArePrefix(e, t, s, arrived, bound);
    next := SolidMoves(e, t, s, SolidCount(e, s, bound));
    if AllArrived(t, arrived) {
      AllArrivedReachesLine(e, t, s, arrived);
      NothingBehind(t, next);
    }
    forall m | m in t[Settled(next)..] && bound.clock != COLLECTIVE_CLOCK ensures m.clock >= bound.clock {
      UnsettledAboveBound(e, t, s, next, arrived, bound, m);
    }
  }

  lemma KnownUnchanged(t: seq<Msg>, s: Progress, next: Progress, n: nat)
    requires n <= |s.ordered| && Settled(next) == Settled(s) + n <= |t| && next.ordered == s.ordered[n..]
    requires s.ordered[..n] == t[Settled(s)..Settled(s) + n]
    ensures KnownSet(t, next) == KnownSet(t, s)
  {
    var d := Settled(s);
    assert t[..d + n] == t[..d] + t[d..d + n];
    assert s.ordered == s.ordered[..n] + s.ordered[n..];
  }

  lemma NotSettled(t: seq<Msg>, s: Progress, k: nat)
    requires StrictlySorted(t) && Settled(s) <= k < |t|
    ensures t[k] !in t[..Settled(s)]
  {
    forall i | 0 <= i < Settled(s) ensures t[i] != t[k] {
      assert Less(t[i], t[k]);
    }
  }

  lemma NothingBehind(t: seq<Msg>, s: Progress)
    requires StrictlySorted(t) && Settled(s) <= |t| && s.ordered == []
    requires forall m :: m in t ==> m in KnownSet(t, s)
    ensures Settled(s) == |t|
  {
    var d := Settled(s);
    if d < |t| {
      assert t[d] in t && t[d] in KnownSet(t, s) && t[d] !in s.ordered;
      assert t[d] in t[..d];
      NotSettled(t, s, d);
    }
  }

  lemma UnsettledAboveBound(e: Epoch, t: seq<Msg>, s: Progress, next: Progress, arrived: set<Msg>, bound: Msg, m: Msg)
    requires Frame(e, t) && ListsOk(e, t, next) && SoundBound(t, arrived, bound) && bound.clock != COLLECTIVE_CLOCK
    requires next.ordered == s.ordered[SolidCount(e, s, bound)..] && StrictlySorted(s.ordered)
    requires forall m :: m in t ==> (m in arrived <==> m in KnownSet(t, next))
    requires m in t[Settled(next)..]
    ensures m.clock >= bound.clock
  {
    var d, n := Settled(next), SolidCount(e, s, bound);
    var k :| d <= k < |t| && t[k] == m;
    NotSettled(t, next, k);
    if m in next.ordered {
      assert !IsSolid(s.ordered[n], bound, ReachedEpochLine(e, s.reached));
      var i :| 0 <= i < |next.ordered| && next.ordered[i] == m;
      assert i == 0 || Less(s.ordered[n], s.ordered[n + i]);
    } else {
      assert m !in arrived;
    }
  }

  // ----- the next group -----

  /** The group that starts at position i: o events, all but the last with a next one. */
  ghost predicate IsGroup(r: Recording, i: nat, o: nat)
    requires ValidRecording(r)
  {
    && 1 <= o && i + o <= |r.events|
    && (forall j :: i <= j < i + o ==> (r.events[j].withNext <==> j < i + o - 1))
  }

  ghost function GroupOf(r: Recording, i: nat, o: nat): (group: seq<Item>)
    requires ValidRecording(r) && IsGroup(r, i, o)
    ensures |group| == o
  {
    r.events[i..i + o]
  }

  lemma {:induction false} FlagRunFinds(flags: seq<bool>, i: nat)
    requires i < |flags| && !flags[|flags| - 1]
    ensures FlagRun(flags, i).Some?
    ensures var n := FlagRun(flags, i).value;
      i + n < |flags| && !flags[i + n] && forall j :: i <= j < i + n ==> flags[j]
    decreases |flags| - i
  {
    if flags[i] {
      FlagRunFinds(flags, i + 1);
    }
  }

  /** outcount is the size of the recorded group. */
  lemma OutCountIsGroup(e: Epoch, r: Recording, i: nat) returns (o: nat)
    requires ValidRecording(r) && Describes(e, r) && i < |r.events|
    ensures OutCount(e, i) == Some(o) && IsGroup(r, i, o)
  {
    if e.withNext == [] {
      o := 1;
    } else {
      FlagRunFinds(e.withNext, i);
      o := FlagRun(e.withNext, i).value + 1;
    }
  }

  lemma {:induction false} SolidOrders(positions: seq<nat>, t: seq<Msg>, d: nat, replayed: nat)
    requires d <= |t| && d <= |positions|
    ensures forall i, j :: 0 <= i < j < |SolidOf(positions, t, d, replayed)| ==>
      SolidOf(positions, t, d, replayed)[i].order < SolidOf(positions, t, d, replayed)[j].order
  {
    if d > 0 {
      SolidOrders(positions, t, d - 1, replayed);
      SolidEntries(positions, t, d - 1, replayed);
    }
  }

  lemma SolidFillsSlots(e: Epoch, keys: seq<Msg>, t: seq<Msg>, d: nat, replayed: nat)
    requires |e.positions| == |t| == |keys| && d <= |t| && IsPermutation(e.positions)
    requires forall k :: 0 <= k < |t| ==> t[k] == keys[e.positions[k]]
    ensures FillSource(e, keys, SolidOf(e.positions, t, d, replayed), replayed)
  {
    var s := SolidOf(e.positions, t, d, replayed);
    SolidEntries(e.positions, t, d, replayed);
    SolidOrders(e.positions, t, d, replayed);
    assert forall i :: 0 <= i < |s| ==> s[i] in s;
  }

  lemma {:induction false} EmptySlotsCount(n: nat)
    ensures CountSome(EmptySlots(n)) == 0
  {
    if n > 0 {
      EmptySlotsCount(n - 1);
      assert EmptySlots(n)[..n - 1] == EmptySlots(n - 1);
    }
  }

  /** A position is hit only by one of the d smallest messages, and by each of them in the end. */
  lemma HitsSolid(e: Epoch, t: seq<Msg>, d: nat, replayed: nat, end: nat, k: nat)
    requires |e.positions| == |t| && d <= |t| && IsPermutation(e.positions) && k < |t| && e.positions[k] >= replayed
    requires end <= |SolidOf(e.positions, t, d, replayed)|
    requires forall i :: 0 <= i < |SolidOf(e.positions, t, d, replayed)| ==> SolidOf(e.positions, t, d, replayed)[i].order < |t|
    ensures Hits(e, SolidOf(e.positions, t, d, replayed), end, e.positions[k]) ==> k < d
    ensures end == |SolidOf(e.positions, t, d, replayed)| && k < d ==> Hits(e, SolidOf(e.positions, t, d, replayed), end, e.positions[k])
  {
    var solid := SolidOf(e.positions, t, d, replayed);
    SolidEntries(e.positions, t, d, replayed);
    HitsAt(e, solid, end, e.positions[k]);
    if Hits(e, solid, end, e.positions[k]) {
      var i :| 0 <= i < end && e.positions[solid[i].order] == e.positions[k];
      assert solid[i] in solid && solid[i].order == k;
    }
    if k < d {
      assert Placed(t[k], k) in solid;
    }
  }

  /** A slot is taken only by the message recorded there, and by it whenever that message is solid. */
  lemma SlotsHoldTheGroup(e: Epoch, keys: seq<Msg>, t: seq<Msg>, d: nat, replayed: nat, o: nat) returns (slots: seq<Option<Msg>>, added: nat)
    requires |e.positions| == |t| == |keys| && d <= |t| && IsPermutation(e.positions) && replayed + o <= |keys|
    requires forall k :: 0 <= k < |t| ==> t[k] == keys[e.positions[k]]
    requires forall k :: d <= k < |t| ==> e.positions[k] >= replayed
    ensures FillFrom(e, SolidOf(e.positions, t, d, replayed), 0, replayed, Filling(EmptySlots(o), 0)) == Filling(slots, added)
    ensures |slots| == o && (added == o <==> forall j :: 0 <= j < o ==> slots[j].Some?)
    ensures forall j :: 0 <= j < o && slots[j].Some? ==> slots[j].value == keys[replayed + j]
    ensures added == o ==> forall k :: d <= k < |t| ==> e.positions[k] >= replayed + o
    ensures added != o ==> forall j :: 0 <= j < o && slots[j].None? ==> keys[replayed + j] in t[d..]
  {
    var solid, f := SolidOf(e.positions, t, d, replayed), Filling(EmptySlots(o), 0);
    SolidFillsSlots(e, keys, t, d, replayed);
    EmptySlotsCount(o);
    var end := FillFromCorrect(e, keys, solid, 0, replayed, f);
    var g := FillFrom(e, solid, 0, replayed, f);
    slots, added := g.slots, g.added;
    CountSomeFull(slots);
    if added == o {
      FullGroupIsSolid(e, keys, t, d, replayed, o, end, g);
    } else {
      EmptySlotsComeLater(e, keys, t, d, replayed, o, g);
    }
  }

  lemma FullGroupIsSolid(e: Epoch, keys: seq<Msg>, t: seq<Msg>, d: nat, replayed: nat, o: nat, end: nat, g: Filling)
    requires |e.positions| == |t| == |keys| && d <= |t| && IsPermutation(e.positions)
    requires forall k :: d <= k < |t| ==> e.positions[k] >= replayed
    requires end <= |SolidOf(e.positions, t, d, replayed)|
    requires FillSource(e, keys, SolidOf(e.positions, t, d, replayed), replayed)
    requires SlotsFrom(e, keys, SolidOf(e.positions, t, d, replayed), end, replayed, g) && |g.slots| == o
    requires forall j :: 0 <= j < o ==> g.slots[j].Some?
    ensures forall k :: d <= k < |t| ==> e.positions[k] >= replayed + o
  {
    forall k | d <= k < |t| ensures e.positions[k] >= replayed + o {
      var j: nat := e.positions[k] - replayed;
      assert j < o ==> g.slots[j].Some?;
      HitsSolid(e, t, d, replayed, end, k);
    }
  }

  lemma EmptySlotsComeLater(e: Epoch, keys: seq<Msg>, t: seq<Msg>, d: nat, replayed: nat, o: nat, g: Filling)
    requires |e.positions| == |t| == |keys| && d <= |t| && IsPermutation(e.positions) && replayed + o <= |keys|
    requires forall k :: 0 <= k < |t| ==> t[k] == keys[e.positions[k]]
    requires FillSource(e, keys, SolidOf(e.positions, t, d, replayed), replayed)
    requires SlotsFrom(e, keys, SolidOf(e.positions, t, d, replayed), |SolidOf(e.positions, t, d, replayed)|, replayed, g) && |g.slots| == o
    ensures forall j :: 0 <= j < o && g.slots[j].None? ==> keys[replayed + j] in t[d..]
  {
    forall j | 0 <= j < o && g.slots[j].None? ensures keys[replayed + j] in t[d..] {
      PermutationIsOnto(e.positions, replayed + j);
      var k :| 0 <= k < |t| && e.positions[k] == replayed + j;
      HitsSolid(e, t, d, replayed, |SolidOf(e.positions, t, d, replayed)|, k);
      assert t[d..][k - d] == t[k];
    }
  }

  // ----- the output grows by the recorded group -----

  lemma {:induction false} ItemsThroughGroup(events: seq<Item>, unmatched: map<nat, int>, i: nat, k: nat)
    requires k > 0 && i + k <= |events| && forall j :: i < j < i + k ==> j !in unmatched
    ensures ItemsBefore(events, unmatched, i + k) == ItemsBefore(events, unmatched, i) + RunAt(unmatched, i) + events[i..i + k]
  {
    if k == 1 {
      assert events[i..i + 1] == [events[i]];
    } else {
      ItemsThroughGroup(events, unmatched, i, k - 1);
      assert RunAt(unmatched, i + k - 1) == [];
      var before, group := ItemsBefore(events, unmatched, i) + RunAt(unmatched, i), events[i..i + k - 1];
      assert events[i..i + k] == group + [events[i + k - 1]];
      assert before + group + [] + [events[i + k - 1]] == before + (group + [events[i + k - 1]]);
    }
  }

  lemma GroupItemsAreRecorded(e: Epoch, r: Recording, i: nat, o: nat, slots: seq<Option<Msg>>)
    requires ValidRecording(r) && IsGroup(r, i, o) && |slots| == o && IndicesOf(e, r)
    requires forall j :: 0 <= j < o ==> slots[j] == Some(Ks(r)[i + j])
    ensures i + o <= |e.matchedIndex| && GroupItems(e, slots, i) == r.events[i..i + o]
  {
  }

  /** No unmatched run lies inside a group. */
  lemma NoRunInside(r: Recording, i: nat, o: nat)
    requires ValidRecording(r) && IsGroup(r, i, o)
    ensures Boundary(r, i + o)
    ensures forall k :: k in r.unmatched && k > i ==> k >= i + o
  {
    forall k | k in r.unmatched && k > i ensures k >= i + o {
      assert Boundary(r, k);
    }
  }

  lemma OutputGrows(r: Recording, s: Progress, out: seq<Item>, o: nat, next: Progress)
    requires ValidRecording(r) && OutputOk(r, s, out) && s.replayed !in s.unmatched && IsGroup(r, s.replayed, o)
    requires next.replayed == s.replayed + o && next.unmatched == s.unmatched
    ensures OutputOk(r, next, out + r.events[s.replayed..s.replayed + o])
  {
    hide ItemsBefore, NoRepeats, Keys;
    var i := s.replayed;
    NoRunInside(r, i, o);
    forall k | k in next.unmatched ensures k in r.unmatched && next.unmatched[k] == r.unmatched[k] && k >= i + o {
      assert k != i;
    }
    assert forall k :: k in r.unmatched && k > i + o ==> k in next.unmatched;
    ItemsThroughGroup(r.events, r.unmatched, i, o);
    var tail := if i + o in next.unmatched then [] else RunAt(r.unmatched, i + o);
    assert tail == [];
    assert ItemsBefore(r.events, r.unmatched, i + o) + tail == ItemsBefore(r.events, r.unmatched, i + o);
  }

  lemma GroupInSlots(e: Epoch, keys: seq<Msg>, t: seq<Msg>, replayed: nat, o: nat, slots: seq<Option<Msg>>)
    requires |e.positions| == |t| == |keys| && NoRepeats(keys) && replayed + o <= |t| && IsPermutation(e.positions)
    requires forall k :: 0 <= k < |t| ==> t[k] == keys[e.positions[k]]
    requires |slots| == o && forall j :: 0 <= j < o ==> slots[j] == Some(keys[replayed + j])
    ensures forall k :: 0 <= k < |t| ==> (Some(t[k]) in slots <==> replayed <= e.positions[k] < replayed + o)
  {
    forall k | 0 <= k < |t| && replayed <= e.positions[k] < replayed + o ensures Some(t[k]) in slots {
      assert slots[e.positions[k] - replayed] == Some(t[k]);
    }
  }

  /** The lists after a group was handed out. */
  lemma ListsAfterGroup(e: Epoch, keys: seq<Msg>, t: seq<Msg>, s: Progress, o: nat, slots: seq<Option<Msg>>, next: Progress)
    requires |e.positions| == |t| == |keys| && IsPermutation(e.positions) && ListsOk(e, t, s) && NoRepeats(keys) && s.replayed + o <= |t|
    requires forall k :: 0 <= k < |t| ==> t[k] == keys[e.positions[k]]
    requires |slots| == o && forall j :: 0 <= j < o ==> slots[j] == Some(keys[s.replayed + j])
    requires forall k :: Settled(s) <= k < |t| ==> e.positions[k] >= s.replayed + o
    requires next == s.(solid := Without(s.solid, slots), replayed := s.replayed + o, interim := next.interim)
    ensures ListsOk(e, t, next) && Settled(next) == Settled(s)
  {
    var d := Settled(s);
    assert next.solid == SolidOf(e.positions, t, d, next.replayed) by {
      GroupInSlots(e, keys, t, s.replayed, o, slots);
      WithoutGroup(e.positions, t, d, s.replayed, o, slots);
    }
    hide AllIn, StrictlySorted, NoRepeats;
    SolidCountsUp(e.positions, t, d, next.replayed);
  }

  // ----- one call -----

  lemma {:induction false} InterimBelow(clock: int, slots: seq<Option<Msg>>, ordered: seq<Msg>, boundClock: int, actual: int, msgs: seq<Msg>)
    requires |slots| == |msgs| && clock <= actual
    requires forall i :: 0 <= i < |slots| && slots[i].Some? ==> slots[i].value == msgs[i]
    requires forall i :: 0 <= i < |slots| && slots[i].None? ==> boundClock <= msgs[i].clock
    ensures InterimFrom(clock, slots, ordered, boundClock) <= SyncAll(actual, msgs)
    decreases |slots|
  {
    if slots != [] {
      var now := if slots[0].Some? then slots[0].value.clock
                 else if ordered != [] && ordered[0].clock < boundClock then ordered[0].clock else boundClock;
      var rest := if slots[0].None? && ordered != [] && ordered[0].clock < boundClock then ordered[1..] else ordered;
      InterimBelow(SyncClock(clock, now), slots[1..], rest, boundClock, SyncClock(actual, msgs[0].clock), msgs[1..]);
    }
  }

  /** The arrivals are untouched by whatever only hands out events. */
  lemma ArrivalsKept(e: Epoch, t: seq<Msg>, s: Progress, next: Progress, arrived: set<Msg>)
    requires Settled(s) <= |t| && ArrivalsOk(e, t, s, arrived)
    requires Settled(next) == Settled(s) && next.ordered == s.ordered
    requires next.waiting == s.waiting && next.reached == s.reached
    ensures ArrivalsOk(e, t, next, arrived)
  {
    assert KnownSet(t, next) == KnownSet(t, s);
  }

  lemma RunHandedOut(r: Recording, s: Progress, out: seq<Item>)
    requires ValidRecording(r) && OutputOk(r, s, out) && s.replayed in s.unmatched
    ensures OutputOk(r, s.(unmatched := s.unmatched - {s.replayed}), out + [Unmatched(s.unmatched[s.replayed])])
  {
    assert out + [] == out;
  }

  function InterimOf(s: Progress, slots: seq<Option<Msg>>, bound: Msg, localClock: int): int {
    if bound.clock == COLLECTIVE_CLOCK then s.interim else InterimFrom(localClock, slots, s.ordered, bound.clock)
  }

  lemma HandOutWaits(e: Epoch, s: Progress, o: nat, bound: Msg, localClock: int, slots: seq<Option<Msg>>, added: nat)
    requires FillFrom(e, s.solid, 0, s.replayed, Filling(EmptySlots(o), 0)) == Filling(slots, added)
    requires added != o && !DecodedAll(e, s)
    ensures HandOut(e, s, o, bound, localClock) == Decoded(s.(interim := InterimOf(s, slots, bound, localClock)), [], false)
  {
  }

  lemma HandOutGives(e: Epoch, s: Progress, o: nat, bound: Msg, localClock: int, slots: seq<Option<Msg>>)
    requires FillFrom(e, s.solid, 0, s.replayed, Filling(EmptySlots(o), 0)) == Filling(slots, o)
    requires |slots| == o && (forall j :: 0 <= j < o ==> slots[j].Some?) && s.replayed + o <= |e.matchedIndex|
    ensures var next := s.(interim := InterimOf(s, slots, bound, localClock), solid := Without(s.solid, slots), replayed := s.replayed + o);
      HandOut(e, s, o, bound, localClock) == Decoded(next, GroupItems(e, slots, s.replayed), DecodedAll(e, next))
  {
  }

  /** Slots against the group of recorded messages they stand for. */
  ghost predicate SlotsOf(keys: seq<Msg>, i: nat, o: nat, slots: seq<Option<Msg>>, later: seq<Msg>)
    requires i + o <= |keys|
  {
    && |slots| == o
    && (forall j :: 0 <= j < o && slots[j].Some? ==> slots[j].value == keys[i + j])
    && (forall j :: 0 <= j < o && slots[j].None? ==> keys[i + j] in later)
  }

  lemma {:induction false} InterimIsBelow(keys: seq<Msg>, msgs: seq<Msg>, s: Progress, i: nat, o: nat, slots: seq<Option<Msg>>, later: seq<Msg>, bound: Msg, localClock: int)
    requires i + o <= |keys| && SlotsOf(keys, i, o, slots, later) && NotBefore(later, bound)
    requires |msgs| == o && forall j :: 0 <= j < o ==> msgs[j] == keys[i + j]
    ensures bound.clock != COLLECTIVE_CLOCK ==> InterimOf(s, slots, bound, localClock) <= SyncAll(localClock, msgs)
  {
    if bound.clock != COLLECTIVE_CLOCK {
      InterimBelow(localClock, slots, s.ordered, bound.clock, localClock, msgs);
    }
  }

  /** The slots of the next group, for a state in order. */
  lemma SlotsAtHand(e: Epoch, keys: seq<Msg>, t: seq<Msg>, s: Progress, o: nat) returns (slots: seq<Option<Msg>>, added: nat)
    requires |e.positions| == |t| == |keys| && IsPermutation(e.positions) && ListsOk(e, t, s) && s.replayed + o <= |keys|
    requires forall k :: 0 <= k < |t| ==> t[k] == keys[e.positions[k]]
    ensures FillFrom(e, s.solid, 0, s.replayed, Filling(EmptySlots(o), 0)) == Filling(slots, added)
    ensures SlotsOf(keys, s.replayed, o, slots, t[Settled(s)..])
    ensures added == o <==> forall j :: 0 <= j < o ==> slots[j].Some?
    ensures added == o ==> forall k :: Settled(s) <= k < |t| ==> e.positions[k] >= s.replayed + o
  {
    slots, added := SlotsHoldTheGroup(e, keys, t, Settled(s), s.replayed, o);
  }

  /** A call that has to wait for messages. */
  lemma WaitStep(e: Epoch, r: Recording, t: seq<Msg>, s: Progress, out: seq<Item>, arrived: set<Msg>, next: Progress)
    requires ValidRecording(r) && OutputOk(r, s, out)
    requires |e.positions| == |t| && ListsOk(e, t, s) && ArrivalsOk(e, t, s, arrived) && next == s.(interim := next.interim)
    ensures OutputOk(r, next, out + []) && ListsOk(e, t, next) && ArrivalsOk(e, t, next, arrived)
  {
    ArrivalsKept(e, t, s, next, arrived);
    assert out + [] == out;
  }

  /** A call that hands out the recorded group. */
  lemma GiveStep(e: Epoch, keys: seq<Msg>, t: seq<Msg>, s: Progress, arrived: set<Msg>, o: nat, slots: seq<Option<Msg>>, next: Progress)
    requires |e.positions| == |t| == |keys| && IsPermutation(e.positions) && ListsOk(e, t, s) && NoRepeats(keys) && s.replayed + o <= |t|
    requires forall k :: 0 <= k < |t| ==> t[k] == keys[e.positions[k]]
    requires |slots| == o && forall j :: 0 <= j < o ==> slots[j] == Some(keys[s.replayed + j])
    requires forall k :: Settled(s) <= k < |t| ==> e.positions[k] >= s.replayed + o
    requires next == s.(solid := Without(s.solid, slots), replayed := s.replayed + o, interim := next.interim)
    requires ArrivalsOk(e, t, s, arrived)
    ensures ListsOk(e, t, next) && ArrivalsOk(e, t, next, arrived)
  {
    assert ListsOk(e, t, next) && Settled(next) == Settled(s) by {
      ListsAfterGroup(e, keys, t, s, o, slots, next);
    }
    ArrivalsKept(e, t, s, next, arrived);
  }

  /** The recorded keys, the total order and the positions that link them. */
  ghost predicate Linked(e: Epoch, r: Recording, keys: seq<Msg>, t: seq<Msg>)
    requires ValidRecording(r)
  {
    && keys == Keys(r.events) && NoRepeats(keys) && IndicesOf(e, r)
    && |e.positions| == |t| == |keys| == |r.events| && IsPermutation(e.positions)
    && (forall k :: 0 <= k < |t| ==> t[k] == keys[e.positions[k]])
  }

  /** What handing out does to the state, from the slots it found. */
  ghost predicate Hands(e: Epoch, s: Progress, o: nat, slots: seq<Option<Msg>>, added: nat, next: Progress, emitted: seq<Item>) {
    if added != o then next == s.(interim := next.interim) && emitted == []
    else
      && |slots| == o && (forall j :: 0 <= j < o ==> slots[j].Some?) && s.replayed + o <= |e.matchedIndex|
      && next == s.(interim := next.interim, solid := Without(s.solid, slots), replayed := s.replayed + o)
      && emitted == GroupItems(e, slots, s.replayed)
  }

  lemma HandsIsHandOut(e: Epoch, s: Progress, o: nat, bound: Msg, localClock: int, slots: seq<Option<Msg>>, added: nat, next: Progress, emitted: seq<Item>)
    requires FillFrom(e, s.solid, 0, s.replayed, Filling(EmptySlots(o), 0)) == Filling(slots, added)
    requires !DecodedAll(e, s) && Hands(e, s, o, slots, added, next, emitted) && next.interim == InterimOf(s, slots, bound, localClock)
    ensures HandOut(e, s, o, bound, localClock) == Decoded(next, emitted, DecodedAll(e, next))
  {
    if added != o {
      HandOutWaits(e, s, o, bound, localClock, slots, added);
    } else {
      HandOutGives(e, s, o, bound, localClock, slots);
    }
  }

  lemma GiveKeepsOutput(e: Epoch, r: Recording, s: Progress, out: seq<Item>, o: nat, slots: seq<Option<Msg>>, next: Progress, emitted: seq<Item>)
    requires ValidRecording(r) && IndicesOf(e, r) && OutputOk(r, s, out)
    requires s.replayed !in s.unmatched && IsGroup(r, s.replayed, o) && Hands(e, s, o, slots, o, next, emitted)
    requires forall j :: 0 <= j < o ==> slots[j] == Some(Keys(r.events)[s.replayed + j])
    ensures OutputOk(r, next, out + emitted) && emitted == r.events[s.replayed..s.replayed + o]
  {
    GroupItemsAreRecorded(e, r, s.replayed, o, slots);
    OutputGrows(r, s, out, o, next);
  }

  lemma SlotsFull(keys: seq<Msg>, i: nat, o: nat, slots: seq<Option<Msg>>, later: seq<Msg>)
    requires i + o <= |keys| && SlotsOf(keys, i, o, slots, later) && forall j :: 0 <= j < o ==> slots[j].Some?
    ensures forall j :: 0 <= j < o ==> slots[j] == Some(keys[i + j])
  {
  }

  lemma GroupStep(e: Epoch, r: Recording, keys: seq<Msg>, t: seq<Msg>, s: Progress, out: seq<Item>, arrived: set<Msg>, o: nat, group: seq<Item>, bound: Msg, localClock: int)
    returns (slots: seq<Option<Msg>>, added: nat, next: Progress, emitted: seq<Item>)
    requires ValidRecording(r) && Linked(e, r, keys, t)
    requires ListsOk(e, t, s) && ArrivalsOk(e, t, s, arrived) && OutputOk(r, s, out)
    requires s.replayed !in s.unmatched && IsGroup(r, s.replayed, o) && group == GroupOf(r, s.replayed, o)
    ensures FillFrom(e, s.solid, 0, s.replayed, Filling(EmptySlots(o), 0)) == Filling(slots, added)
    ensures SlotsOf(keys, s.replayed, o, slots, t[Settled(s)..])
    ensures Hands(e, s, o, slots, added, next, emitted) && next.interim == InterimOf(s, slots, bound, localClock)
    ensures ListsOk(e, t, next) && ArrivalsOk(e, t, next, arrived) && OutputOk(r, next, out + emitted)
    ensures emitted == if added != o then [] else group
    ensures Settled(s) == |t| ==> added == o
  {
    slots, added := SlotsAtHand(e, keys, t, s, o);
    var interim := InterimOf(s, slots, bound, localClock);
    if added != o {
      next, emitted := s.(interim := interim), [];
      WaitStep(e, r, t, s, out, arrived, next);
    } else {
      next, emitted := GiveGroup(e, r, keys, t, s, out, arrived, o, group, slots, interim);
    }
  }

  lemma GiveGroup(e: Epoch, r: Recording, keys: seq<Msg>, t: seq<Msg>, s: Progress, out: seq<Item>, arrived: set<Msg>, o: nat, group: seq<Item>, slots: seq<Option<Msg>>, interim: int)
    returns (next: Progress, emitted: seq<Item>)
    requires ValidRecording(r) && Linked(e, r, keys, t)
    requires ListsOk(e, t, s) && ArrivalsOk(e, t, s, arrived) && OutputOk(r, s, out)
    requires s.replayed !in s.unmatched && IsGroup(r, s.replayed, o) && group == GroupOf(r, s.replayed, o)
    requires SlotsOf(keys, s.replayed, o, slots, t[Settled(s)..]) && forall j :: 0 <= j < o ==> slots[j].Some?
    requires forall k :: Settled(s) <= k < |t| ==> e.positions[k] >= s.replayed + o
    ensures Hands(e, s, o, slots, o, next, emitted) && next.interim == interim
    ensures ListsOk(e, t, next) && ArrivalsOk(e, t, next, arrived) && OutputOk(r, next, out + emitted)
    ensures emitted == group
  {
    hide ArrivalsOk, OutputOk, ValidRecording;
    next := s.(interim := interim, solid := Without(s.solid, slots), replayed := s.replayed + o);
    emitted := GroupItems(e, slots, s.replayed);
    SlotsFull(keys, s.replayed, o, slots, t[Settled(s)..]);
    GiveKeepsOutput(e, r, s, out, o, slots, next, emitted);
    GiveStep(e, keys, t, s, arrived, o, slots, next);
  }

  // ----- one call of cdc_decode_ordering -----

  lemma GroupsLeft(e: Epoch, r: Recording, s: Progress, out: seq<Item>)
    requires ValidRecording(r) && OutputOk(r, s, out) && e.count == |r.events|
    requires !DecodedAll(e, s) && s.replayed !in s.unmatched
    ensures s.replayed < |r.events|
  {
    if s.unmatched != map[] {
      var k :| k in s.unmatched;
      assert k > s.replayed;
    }
  }

  lemma ReplayMatchedIs(e: Epoch, s: Progress, solid: seq<Placed>, o: nat, bound: Msg, localClock: int)
    requires Solidify(s.solid, s.ordered[..SolidCount(e, s, bound)], |s.solid| + s.replayed) == Some(solid)
    requires OutCount(e, s.replayed) == Some(o)
    ensures ReplayMatched(e, s, bound, localClock) ==
      HandOut(e, s.(ordered := s.ordered[SolidCount(e, s, bound)..], solid := solid), o, bound, localClock)
  {
  }

  /** The state in front of HandOut: arrivals taken in, solid messages moved. */
  lemma SettleStep(e: Epoch, t: seq<Msg>, s: Progress, arrived: set<Msg>, bound: Msg) returns (s1: Progress)
    requires Frame(e, t) && ListsOk(e, t, s) && ArrivalsOk(e, t, s, arrived) && SoundBound(t, arrived, bound)
    ensures var s0 := TakeIn(e, s);
      && s1 == s0.(ordered := s0.ordered[SolidCount(e, s0, bound)..], solid := s1.solid)
      && Solidify(s0.solid, s0.ordered[..SolidCount(e, s0, bound)], |s0.solid| + s0.replayed) == Some(s1.solid)
    ensures s1.replayed == s.replayed && s1.unmatched == s.unmatched
    ensures ListsOk(e, t, s1) && ArrivalsOk(e, t, s1, arrived)
    ensures AllArrived(t, arrived) ==> Settled(s1) == |t|
    ensures NotBefore(t[Settled(s1)..], bound)
  {
    TakeInKeeps(e, t, s, arrived);
    s1 := SolidStep(e, t, TakeIn(e, s), arrived, bound);
  }

  lemma OutputKept(r: Recording, s: Progress, next: Progress, out: seq<Item>)
    requires ValidRecording(r) && OutputOk(r, s, out) && next.replayed == s.replayed && next.unmatched == s.unmatched
    ensures OutputOk(r, next, out)
  {
  }

  lemma MatchedState(e: Epoch, r: Recording, keys: seq<Msg>, t: seq<Msg>, s: Progress, out: seq<Item>, arrived: set<Msg>, o: nat, group: seq<Item>, bound: Msg, localClock: int)
    returns (s1: Progress, slots: seq<Option<Msg>>, added: nat, next: Progress, emitted: seq<Item>)
    requires ValidRecording(r) && Linked(e, r, keys, t) && Frame(e, t)
    requires ListsOk(e, t, s) && ArrivalsOk(e, t, s, arrived) && OutputOk(r, s, out) && SoundBound(t, arrived, bound)
    requires s.replayed !in s.unmatched && IsGroup(r, s.replayed, o) && group == GroupOf(r, s.replayed, o)
    ensures var s0 := TakeIn(e, s);
      && s1 == s0.(ordered := s0.ordered[SolidCount(e, s0, bound)..], solid := s1.solid)
      && Solidify(s0.solid, s0.ordered[..SolidCount(e, s0, bound)], |s0.solid| + s0.replayed) == Some(s1.solid)
    ensures FillFrom(e, s1.solid, 0, s1.replayed, Filling(EmptySlots(o), 0)) == Filling(slots, added)
    ensures Hands(e, s1, o, slots, added, next, emitted) && next.interim == InterimOf(s1, slots, bound, localClock)
    ensures ListsOk(e, t, next) && ArrivalsOk(e, t, next, arrived) && OutputOk(r, next, out + emitted)
    ensures emitted == if added != o then [] else group
    ensures emitted == [] ==> next.replayed == s.replayed && next.unmatched == s.unmatched
    ensures AllArrived(t, arrived) ==> added == o
    ensures Settled(s1) <= |t| && SlotsOf(keys, s.replayed, o, slots, t[Settled(s1)..])
    ensures NotBefore(t[Settled(s1)..], bound)
  {
    assert s.replayed + o <= |keys|;
    hide ListsOk, ArrivalsOk, OutputOk, ValidRecording, Frame, SoundBound;
    s1 := SettleStep(e, t, s, arrived, bound);
    OutputKept(r, s, s1, out);
    slots, added, next, emitted := GroupStep(e, r, keys, t, s1, out, arrived, o, group, bound, localClock);
  }

  lemma StepIsHands(e: Epoch, s: Progress, s1: Progress, o: nat, bound: Msg, localClock: int, slots: seq<Option<Msg>>, added: nat, next: Progress, emitted: seq<Item>)
    requires !DecodedAll(e, s) && s.replayed !in s.unmatched && OutCount(e, s.replayed) == Some(o)
    requires var s0 := TakeIn(e, s);
      && s1 == s0.(ordered := s0.ordered[SolidCount(e, s0, bound)..], solid := s1.solid)
      && Solidify(s0.solid, s0.ordered[..SolidCount(e, s0, bound)], |s0.solid| + s0.replayed) == Some(s1.solid)
    requires FillFrom(e, s1.solid, 0, s1.replayed, Filling(EmptySlots(o), 0)) == Filling(slots, added)
    requires Hands(e, s1, o, slots, added, next, emitted) && next.interim == InterimOf(s1, slots, bound, localClock)
    ensures Step(e, s, bound, localClock) == Decoded(next, emitted, DecodedAll(e, next))
  {
    ReplayMatchedIs(e, TakeIn(e, s), s1.solid, o, bound, localClock);
    HandsIsHandOut(e, s1, o, bound, localClock, slots, added, next, emitted);
  }

  lemma LinkedOf(e: Epoch, r: Recording)
    requires ValidRecording(r) && Describes(e, r)
    ensures Linked(e, r, Ks(r), Ts(r))
  {
    PositionsDistinct(e, r);
  }

  /** A call with a group due: it waits or hands out the group. */
  lemma MatchedCall(e: Epoch, r: Recording, keys: seq<Msg>, t: seq<Msg>, s: Progress, out: seq<Item>, arrived: set<Msg>, o: nat, group: seq<Item>, bound: Msg, localClock: int)
    returns (next: Progress, emitted: seq<Item>, s1: Progress, slots: seq<Option<Msg>>, later: seq<Msg>)
    requires ValidRecording(r) && Linked(e, r, keys, t) && Frame(e, t)
    requires ListsOk(e, t, s) && ArrivalsOk(e, t, s, arrived) && OutputOk(r, s, out) && SoundBound(t, arrived, bound)
    requires s.replayed !in s.unmatched && IsGroup(r, s.replayed, o) && group == GroupOf(r, s.replayed, o)
    requires !DecodedAll(e, s) && OutCount(e, s.replayed) == Some(o)
    ensures Step(e, s, bound, localClock) == Decoded(next, emitted, DecodedAll(e, next))
    ensures ListsOk(e, t, next) && ArrivalsOk(e, t, next, arrived) && OutputOk(r, next, out + emitted)
    ensures emitted == group || emitted == []
    ensures AllArrived(t, arrived) ==> emitted == group
    ensures s.replayed + o <= |keys| && SlotsOf(keys, s.replayed, o, slots, later) && NotBefore(later, bound)
    ensures next.interim == InterimOf(s1, slots, bound, localClock)
    ensures emitted == [] ==> next.replayed == s.replayed && next.unmatched == s.unmatched
  {
    assert s.replayed + o <= |keys|;
    assert |group| == o;
    hide *;
    var added;
    s1, slots, added, next, emitted := MatchedState(e, r, keys, t, s, out, arrived, o, group, bound, localClock);
    later := t[Settled(s1)..];
    assert Step(e, s, bound, localClock) == Decoded(next, emitted, DecodedAll(e, next)) by {
      StepIsHands(e, s, s1, o, bound, localClock, slots, added, next, emitted);
    }
  }

  lemma MatchedCallOf(e: Epoch, r: Recording, s: Progress, out: seq<Item>, arrived: set<Msg>, bound: Msg, localClock: int)
    returns (next: Progress, emitted: seq<Item>, o: nat, s1: Progress, slots: seq<Option<Msg>>, later: seq<Msg>)
    requires ValidRecording(r) && Describes(e, r) && Inv(e, r, s, out, arrived) && SoundBound(Ts(r), arrived, bound)
    requires !DecodedAll(e, s) && s.replayed !in s.unmatched
    ensures Step(e, s, bound, localClock) == Decoded(next, emitted, DecodedAll(e, next))
    ensures Inv(e, r, next, out + emitted, arrived)
    ensures IsGroup(r, s.replayed, o) && (emitted == [] || emitted == GroupOf(r, s.replayed, o))
    ensures AllArrived(Ts(r), arrived) ==> emitted != []
    ensures emitted == [] ==> !DecodedAll(e, next)
    ensures SlotsOf(Ks(r), s.replayed, o, slots, later) && NotBefore(later, bound)
    ensures next.interim == InterimOf(s1, slots, bound, localClock)
  {
    FrameOf(e, r);
    LinkedOf(e, r);
    GroupsLeft(e, r, s, out);
    o := OutCountIsGroup(e, r, s.replayed);
    hide *;
    next, emitted, s1, slots, later := MatchedCall(e, r, Ks(r), Ts(r), s, out, arrived, o, GroupOf(r, s.replayed, o), bound, localClock);
  }

  lemma UnmatchedCall(e: Epoch, r: Recording, t: seq<Msg>, s: Progress, out: seq<Item>, arrived: set<Msg>)
    requires ValidRecording(r) && |e.positions| == |t| && s.replayed in s.unmatched
    requires ListsOk(e, t, s) && ArrivalsOk(e, t, s, arrived) && OutputOk(r, s, out)
    ensures var next := s.(unmatched := s.unmatched - {s.replayed});
      && ListsOk(e, t, next) && ArrivalsOk(e, t, next, arrived)
      && OutputOk(r, next, out + [Unmatched(s.unmatched[s.replayed])])
  {
    var next := s.(unmatched := s.unmatched - {s.replayed});
    RunHandedOut(r, s, out);
    ArrivalsKept(e, t, s, next, arrived);
  }

  /**
    One call, with sound bounds: no failure, the output stays a prefix of the recorded stream, the
    call that completes the table says so, and a call never comes back empty-handed once all
    messages of the epoch arrived.
   */
  lemma ReplayCall(e: Epoch, r: Recording, s: Progress, out: seq<Item>, arrived: set<Msg>, bound: Msg, localClock: int)
    returns (next: Progress, emitted: seq<Item>)
    requires ValidRecording(r) && Describes(e, r) && Inv(e, r, s, out, arrived) && SoundBound(Ts(r), arrived, bound)
    ensures Step(e, s, bound, localClock) == Decoded(next, emitted, !DecodedAll(e, s) && DecodedAll(e, next))
    ensures Inv(e, r, next, out + emitted, arrived)
    ensures AllArrived(Ts(r), arrived) && !DecodedAll(e, s) ==> emitted != []
    ensures DecodedAll(e, s) ==> DecodedAll(e, next)
  {
    if DecodedAll(e, s) {
      next, emitted := s, [];
      assert out + [] == out;
    } else if s.replayed in s.unmatched {
      next, emitted := s.(unmatched := s.unmatched - {s.replayed}), [Unmatched(s.unmatched[s.replayed])];
      UnmatchedCall(e, r, Ts(r), s, out, arrived);
    } else {
      var o, s1, slots, later;
      next, emitted, o, s1, slots, later := MatchedCallOf(e, r, s, out, arrived, bound, localClock);
    }
  }

  lemma GroupUnique(r: Recording, i: nat, o: nat, o': nat)
    requires ValidRecording(r) && IsGroup(r, i, o) && IsGroup(r, i, o')
    ensures o == o'
  {
    assert !r.events[i + o - 1].withNext && !r.events[i + o' - 1].withNext;
  }

  lemma GroupFits(r: Recording, i: nat, o: nat)
    requires ValidRecording(r) && IsGroup(r, i, o)
    ensures i + o <= |Ks(r)|
  {
  }

  lemma MatchedInterim(e: Epoch, r: Recording, s: Progress, out: seq<Item>, arrived: set<Msg>, bound: Msg, localClock: int, o: nat, msgs: seq<Msg>)
    returns (interim: int)
    requires ValidRecording(r) && Describes(e, r) && Inv(e, r, s, out, arrived) && SoundBound(Ts(r), arrived, bound)
    requires !DecodedAll(e, s) && s.replayed !in s.unmatched && bound.clock != COLLECTIVE_CLOCK
    requires IsGroup(r, s.replayed, o) && |msgs| == o && forall j :: 0 <= j < o ==> msgs[j] == Ks(r)[s.replayed + j]
    ensures Step(e, s, bound, localClock).Decoded? && Step(e, s, bound, localClock).next.interim == interim
    ensures interim <= SyncAll(localClock, msgs)
  {
    hide *;
    GroupFits(r, s.replayed, o);
    var next, emitted, o', s1, slots, later := MatchedCallOf(e, r, s, out, arrived, bound, localClock);
    GroupUnique(r, s.replayed, o, o');
    interim := next.interim;
    InterimIsBelow(Ks(r), msgs, s1, s.replayed, o, slots, later, bound, localClock);
  }

  /**
    The published lower bound: with a sound bound outside collectives, the interim clock is at most
    the local clock after the next group is received.
   */
  lemma InterimClockIsLowerBound(e: Epoch, r: Recording, s: Progress, out: seq<Item>, arrived: set<Msg>, bound: Msg, localClock: int, o: nat)
    requires ValidRecording(r) && Describes(e, r) && Inv(e, r, s, out, arrived) && SoundBound(Ts(r), arrived, bound)
    requires !DecodedAll(e, s) && s.replayed !in s.unmatched && bound.clock != COLLECTIVE_CLOCK
    requires IsGroup(r, s.replayed, o)
    ensures Step(e, s, bound, localClock).Decoded?
    ensures Step(e, s, bound, localClock).next.interim <= SyncAll(localClock, Ks(r)[s.replayed..s.replayed + o])
  {
    hide *;
    GroupFits(r, s.replayed, o);
    var msgs := Ks(r)[s.replayed..s.replayed + o];
    var interim := MatchedInterim(e, r, s, out, arrived, bound, localClock, o, msgs);
  }
}
