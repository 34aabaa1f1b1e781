/**
  What an epoch hands out whose line lets in messages of later epochs.
 */
module OutOfOrderCuts {
  import opened EditScripts
  import opened Messages
  import opened EpochTables
  import opened ReplayOrdering
  import opened ReplayFidelity
  import opened EpochCuts
  import opened EpochRuns
  import One = ReplayRuns

  // ----- the epoch as the replayer sees it -----

  /** The clock order of the event observed at position i. */
  ghost function Where(positions: seq<nat>, i: nat): (k: nat)
    requires IsPermutation(positions) && i < |positions|
    ensures k < |positions| && positions[k] == i
  {
    PermutationIsOnto(positions, i);
    var k: nat :| k < |positions| && positions[k] == i;
    k
  }

  /** The recorded events with the messages of t in the recorded permutation. */
  ghost function Reread(positions: seq<nat>, t: seq<Msg>, events: seq<Item>): (reread: seq<Item>)
    requires IsPermutation(positions) && |events| == |positions| <= |t|
    requires forall i :: 0 <= i < |events| ==> events[i].Matched?
  {
    seq(|events|, i requires 0 <= i < |events| =>
      var m := t[Where(positions, i)]; Matched(m.source, m.clock, events[i].withNext, events[i].index))
  }

  ghost predicate IsReread(positions: seq<nat>, t: seq<Msg>, events: seq<Item>, reread: seq<Item>)
    requires |positions| <= |t|
  {
    && |reread| == |events| == |positions|
    && (forall i :: 0 <= i < |events| ==> events[i].Matched? && reread[i].Matched?)
    && (forall i :: 0 <= i < |events| ==> reread[i].withNext == events[i].withNext && reread[i].index == events[i].index)
    && (forall k :: 0 <= k < |positions| ==> positions[k] < |events| && reread[positions[k]].Key() == t[k])
  }

  lemma RereadIs(positions: seq<nat>, t: seq<Msg>, events: seq<Item>)
    requires IsPermutation(positions) && |events| == |positions| <= |t|
    requires forall i :: 0 <= i < |events| ==> events[i].Matched?
    ensures IsReread(positions, t, events, Reread(positions, t, events))
  {
    var reread := Reread(positions, t, events);
    forall k | 0 <= k < |positions| ensures positions[k] < |events| && reread[positions[k]].Key() == t[k] {
      assert Where(positions, positions[k]) == k;
    }
  }

  lemma RereadUnique(positions: seq<nat>, t: seq<Msg>, events: seq<Item>, a: seq<Item>, b: seq<Item>)
    requires IsPermutation(positions) && |positions| <= |t|
    requires IsReread(positions, t, events, a) && IsReread(positions, t, events, b)
    ensures a == b
  {
    forall i | 0 <= i < |a| ensures a[i] == b[i] {
      assert positions[Where(positions, i)] == i;
    }
  }

  /** t: what counts as part of the epoch, sorted; it holds at least the epoch's own messages. */
  ghost predicate LetsIn(e: Epoch, r: Recording, t: seq<Msg>)
    requires ValidRecording(r)
  {
    && StrictlySorted(t) && (forall m :: m in t ==> m.clock > 0 && WithinEpoch(e, m))
    && (forall m :: m in Ks(r) ==> m in t)
  }

  const FILLER := Matched(0, 0, false, 0)

  /** The table, had all messages of t been recorded in it: the stray ones behind the last event. */
  function Widened(e: Epoch, n: nat, size: nat): Epoch
    requires n <= size
  {
    Epoch(size, e.positions + seq(size - n, i requires 0 <= i < size - n => n + i),
      if e.withNext == [] then [] else e.withNext + seq(size - n, i => false),
      e.matchedIndex + seq(size - n, i => 0), e.line)
  }

  ghost function WidenedRecording(e: Epoch, r: Recording, t: seq<Msg>): Recording
    requires |e.positions| == |r.events| <= |t| && IsPermutation(e.positions)
    requires forall i :: 0 <= i < |r.events| ==> r.events[i].Matched?
  {
    WidenedPositions(e, |r.events|, |t|);
    Recording(Reread(Widened(e, |r.events|, |t|).positions, t, r.events + seq(|t| - |r.events|, i => FILLER)), r.unmatched)
  }

  lemma WidenedPositions(e: Epoch, n: nat, size: nat)
    requires |e.positions| == n <= size && IsPermutation(e.positions)
    ensures IsPermutation(Widened(e, n, size).positions) && |Widened(e, n, size).positions| == size
  {
  }

  lemma {:induction false} NoRepeatsSize(s: seq<Msg>)
    requires NoRepeats(s)
    ensures |AsSet(s)| == |s|
  {
    if s == [] {
      assert AsSet(s) == {};
    } else {
      var front, last := s[..|s| - 1], s[|s| - 1];
      assert s == front + [last];
      NoRepeatsSize(front);
      assert AsSet(s) == AsSet(front) + {last};
    }
  }

  lemma SubsequenceIsShorter(a: seq<Msg>, b: seq<Msg>)
    requires NoRepeats(a) && NoRepeats(b) && forall m :: m in a ==> m in b
    ensures |a| <= |b|
  {
    NoRepeatsSize(a);
    NoRepeatsSize(b);
    assert AsSet(b) == AsSet(a) + (AsSet(b) - AsSet(a));
  }

  /** The epoch has at most as many messages as its line lets in. */
  lemma LetsInEnough(e: Epoch, r: Recording, t: seq<Msg>)
    requires ValidRecording(r) && LetsIn(e, r, t)
    ensures |r.events| <= |t|
  {
    SortedNoRepeats(t);
    SubsequenceIsShorter(Ks(r), t);
  }

  /** Every message of t has its place, and no message two. */
  lemma RereadKeys(positions: seq<nat>, t: seq<Msg>, events: seq<Item>, reread: seq<Item>)
    requires IsPermutation(positions) && |positions| == |t| && StrictlySorted(t)
    requires IsReread(positions, t, events, reread)
    ensures NoRepeats(Keys(reread)) && (forall m :: m in Keys(reread) <==> m in t)
    ensures Sort(Keys(reread)) == t
  {
    var keys := Keys(reread);
    forall i | 0 <= i < |keys| ensures keys[i] == t[Where(positions, i)] {
      assert positions[Where(positions, i)] == i;
    }
    forall i, j | 0 <= i < j < |keys| ensures keys[i] != keys[j] {
      var a, b := Where(positions, i), Where(positions, j);
      assert if a < b then Less(t[a], t[b]) else Less(t[b], t[a]);
    }
    forall m | m in t ensures m in keys {
      var k :| 0 <= k < |t| && t[k] == m;
      assert keys[positions[k]] == m;
    }
    SortedUnique(Sort(keys), t);
  }

  lemma WidenedEvents(e: Epoch, r: Recording, t: seq<Msg>) returns (all: seq<Item>)
    requires ValidRecording(r) && |e.positions| == |r.events| <= |t| && IsPermutation(e.positions)
    ensures all == r.events + seq(|t| - |r.events|, i => FILLER)
    ensures IsReread(Widened(e, |r.events|, |t|).positions, t, all, WidenedRecording(e, r, t).events)
    ensures WidenedRecording(e, r, t).unmatched == r.unmatched
    ensures IsPermutation(Widened(e, |r.events|, |t|).positions)
  {
    all := r.events + seq(|t| - |r.events|, i => FILLER);
    WidenedPositions(e, |r.events|, |t|);
    RereadIs(Widened(e, |r.events|, |t|).positions, t, all);
  }

  lemma WidenedIsValid(r: Recording, t: seq<Msg>, all: seq<Item>, wide: Recording)
    requires ValidRecording(r) && |r.events| <= |t| && all == r.events + seq(|t| - |r.events|, i => FILLER)
    requires |wide.events| == |all| && wide.unmatched == r.unmatched
    requires forall i :: 0 <= i < |all| ==> wide.events[i].Matched? && wide.events[i].withNext == all[i].withNext
    requires NoRepeats(Keys(wide.events)) && (forall m :: m in Keys(wide.events) ==> m.clock > 0)
    ensures ValidRecording(wide)
  {
    var events := wide.events;
    forall i | 0 <= i < |events| ensures events[i].clock > 0 {
      assert Keys(events)[i] in Keys(events);
    }
    assert forall i :: |r.events| <= i < |all| ==> all[i] == FILLER;
    assert !LastWithNext(events);
    forall k | k in wide.unmatched ensures k <= |events| && Boundary(wide, k) {
      assert k <= |r.events| && Boundary(r, k);
      assert k > 0 ==> all[k - 1] == r.events[k - 1];
    }
  }

  lemma LineOfAll(e: Epoch, r: Recording, t: seq<Msg>)
    requires ValidRecording(r) && LetsIn(e, r, t) && IsLine(Ks(r), e.line)
    ensures IsLine(t, e.line)
  {
  }

  lemma LineOfSame(a: seq<Msg>, b: seq<Msg>, line: map<int, int>)
    requires IsLine(a, line) && forall m :: m in a <==> m in b
    ensures IsLine(b, line)
  {
  }

  /** The widened table describes a recording of all the messages that the line lets in. */
  lemma WidenedDescribes(e: Epoch, r: Recording, t: seq<Msg>) returns (e': Epoch, r': Recording)
    requires ValidRecording(r) && Describes(e, r) && LetsIn(e, r, t)
    ensures |e.positions| == |r.events| <= |t| && IsPermutation(e.positions)
    ensures e' == Widened(e, |r.events|, |t|) && r' == WidenedRecording(e, r, t)
    ensures ValidRecording(r') && Describes(e', r') && Ts(r') == t && r'.unmatched == r.unmatched
    ensures IsReread(e'.positions, t, r.events + seq(|t| - |r.events|, i => FILLER), r'.events)
    ensures IsPermutation(e'.positions)
  {
    PositionsDistinct(e, r);
    LetsInEnough(e, r, t);
    e', r' := Widened(e, |r.events|, |t|), WidenedRecording(e, r, t);
    var all := WidenedEvents(e, r, t);
    RereadKeys(e'.positions, t, all, r'.events);
    WidenedIsValid(r, t, all, r');
    LineOfAll(e, r, t);
    LineOfSame(t, Keys(r'.events), e.line);
    WidenedFlags(e, r, t, all, e', r');
  }

  lemma WidenedFlags(e: Epoch, r: Recording, t: seq<Msg>, all: seq<Item>, e': Epoch, r': Recording)
    requires ValidRecording(r) && Describes(e, r) && |r.events| <= |t| && all == r.events + seq(|t| - |r.events|, i => FILLER)
    requires e' == Widened(e, |r.events|, |t|) && IsReread(e'.positions, t, all, r'.events)
    requires ValidRecording(r') && Sort(Keys(r'.events)) == t && IsLine(Keys(r'.events), e.line)
    ensures Describes(e', r')
  {
    var n := |t|;
    hide NoRepeats, StrictlySorted, IsLine, Sort;
    forall i | 0 <= i < n ensures r'.events[i].withNext <==> e'.withNext != [] && e'.withNext[i] {
      assert i < |r.events| ==> all[i] == r.events[i];
    }
    assert IndicesOf(e', r') by {
      forall i | 0 <= i < n ensures e'.matchedIndex[i] == r'.events[i].index {
        assert i < |r.events| ==> all[i] == r.events[i];
      }
    }
    forall k | 0 <= k < n ensures e'.positions[k] < n && Ks(r')[e'.positions[k]] == Ts(r')[k] {
    }
  }

  // ----- a call with the narrow table -----

  /** e' continues e behind its n events. */
  ghost predicate Continues(e: Epoch, e': Epoch, n: nat) {
    && n > 0 && e.count == |e.positions| == |e.matchedIndex| == n <= e'.count == |e'.positions| == |e'.matchedIndex|
    && (forall k :: 0 <= k < n ==> e.positions[k] == e'.positions[k] && e.matchedIndex[k] == e'.matchedIndex[k])
    && (forall k :: n <= k < |e'.positions| ==> e'.positions[k] >= n)
    && e.line == e'.line
    && (e.withNext == [] <==> e'.withNext == [])
    && (e.withNext != [] ==> |e.withNext| == n <= |e'.withNext| && !e.withNext[n - 1] && e.withNext == e'.withNext[..n])
  }

  /** The vectors of a table that describes a recording fit, and its last event ends a group. */
  lemma VectorsFit(e: Epoch, r: Recording)
    requires ValidRecording(r) && Describes(e, r)
    ensures e.count == |e.positions| == |e.matchedIndex| == |r.events| && (e.withNext == [] || |e.withNext| == |r.events|)
    ensures r.events != [] && e.withNext != [] ==> !e.withNext[|r.events| - 1]
  {
    assert r.events != [] ==> !ItemWithNext(r.events[|r.events| - 1]);
  }

  lemma WidenedContinues(e: Epoch, n: nat, size: nat)
    requires e.count == |e.positions| == |e.matchedIndex| == n && (e.withNext == [] || |e.withNext| == n) && 0 < n <= size
    requires e.withNext != [] ==> !e.withNext[n - 1]
    ensures Continues(e, Widened(e, n, size), n)
  {
  }

  lemma {:induction false} SameAdmitted(e: Epoch, e': Epoch, waiting: seq<Msg>)
    requires e.line == e'.line
    ensures Admitted(e, waiting) == Admitted(e', waiting) && Postponed(e, waiting) == Postponed(e', waiting)
  {
    if waiting != [] {
      SameAdmitted(e, e', waiting[..|waiting| - 1]);
    }
  }

  lemma {:induction false} SameFlagRun(a: seq<bool>, b: seq<bool>, i: nat)
    requires i < |a| <= |b| && !a[|a| - 1] && forall k :: 0 <= k < |a| ==> a[k] == b[k]
    ensures FlagRun(a, i).Some? && FlagRun(a, i) == FlagRun(b, i) && i + FlagRun(a, i).value < |a|
    decreases |a| - i
  {
    if a[i] {
      SameFlagRun(a, b, i + 1);
    }
  }

  lemma SameOutCount(e: Epoch, e': Epoch, n: nat, replayed: nat)
    requires Continues(e, e', n) && replayed < n
    ensures OutCount(e, replayed).Some? && OutCount(e, replayed) == OutCount(e', replayed)
    ensures replayed + OutCount(e, replayed).value <= n
  {
    if e.withNext != [] {
      SameFlagRun(e.withNext, e'.withNext, replayed);
    }
  }

  /** Messages behind the n smallest fill no slot. */
  lemma {:induction false} StrayFillNothing(e': Epoch, n: nat, solid: seq<Placed>, k: nat, replayed: nat, f: Filling)
    requires forall j :: n <= j < |e'.positions| ==> e'.positions[j] >= n
    requires f.Filling? && replayed + |f.slots| <= n
    requires forall i :: k <= i < |solid| ==> n <= solid[i].order < |e'.positions|
    ensures FillFrom(e', solid, k, replayed, f) == f
    decreases |solid| - k
  {
    if k < |solid| && f.added != |f.slots| {
      assert FillOne(e', solid[k], replayed, f) == f;
      StrayFillNothing(e', n, solid, k + 1, replayed, f);
    }
  }

  /** With all messages there, a group is full before the first stray message is looked at. */
  lemma {:induction false} SameFilling(e: Epoch, e': Epoch, n: nat, solid: seq<Placed>, k: nat, replayed: nat, f: Filling)
    requires Continues(e, e', n) && f.Filling? && replayed + |f.slots| <= n
    requires forall i :: 0 <= i < |solid| ==> solid[i].order < |e'.positions|
    requires forall i, j :: 0 <= i < j < |solid| ==> solid[i].order < solid[j].order
    requires FillFrom(e', solid, k, replayed, f).Filling? && FillFrom(e', solid, k, replayed, f).added == |f.slots|
    ensures FillFrom(e, solid, k, replayed, f) == FillFrom(e', solid, k, replayed, f)
    decreases |solid| - k
  {
    if k < |solid| && f.added != |f.slots| {
      if solid[k].order >= n {
        StrayFillNothing(e', n, solid, k, replayed, f);
        assert false;
      }
      var one := FillOne(e', solid[k], replayed, f);
      assert FillOne(e, solid[k], replayed, f) == one;
      SameFilling(e, e', n, solid, k + 1, replayed, one);
    }
  }

  lemma EmittedMeansFull(e: Epoch, s: Progress, o: nat, bound: Msg, localClock: int)
    requires HandOut(e, s, o, bound, localClock).Decoded? && HandOut(e, s, o, bound, localClock).emitted != []
    ensures var f := FillFrom(e, s.solid, 0, s.replayed, Filling(EmptySlots(o), 0));
      f.Filling? && |f.slots| == o && f.added == o
  {
    hide Without, DecodedAll, GroupItems, InterimFrom;
  }

  lemma SameHandOut(e: Epoch, e': Epoch, n: nat, s: Progress, o: nat, bound: Msg, localClock: int)
    requires Continues(e, e', n) && s.replayed + o <= n
    requires forall i :: 0 <= i < |s.solid| ==> s.solid[i].order < |e'.positions|
    requires forall i, j :: 0 <= i < j < |s.solid| ==> s.solid[i].order < s.solid[j].order
    requires HandOut(e', s, o, bound, localClock).Decoded? && HandOut(e', s, o, bound, localClock).emitted != []
    ensures var there, here := HandOut(e', s, o, bound, localClock), HandOut(e, s, o, bound, localClock);
      here.Decoded? && here.next == there.next && here.emitted == there.emitted
      && here.next.replayed == s.replayed + o && here.next.unmatched == s.unmatched
  {
    EmittedMeansFull(e', s, o, bound, localClock);
    SameFilling(e, e', n, s.solid, 0, s.replayed, Filling(EmptySlots(o), 0));
    var slots := FillFrom(e', s.solid, 0, s.replayed, Filling(EmptySlots(o), 0)).slots;
    hide FillFrom, Without, DecodedAll, InterimFrom;
    assert forall i :: 0 <= i < |slots| ==> slots[i].Some?;
    assert GroupItems(e, slots, s.replayed) == GroupItems(e', slots, s.replayed);
  }

  lemma SameSolidCount(e: Epoch, e': Epoch, s: Progress, bound: Msg)
    requires e.line == e'.line
    ensures SolidCount(e, s, bound) == SolidCount(e', s, bound)
  {
    assert ReachedEpochLine(e, s.reached) == ReachedEpochLine(e', s.reached);
  }

  lemma SameTakeIn(e: Epoch, e': Epoch, s: Progress)
    requires e.line == e'.line
    ensures TakeIn(e, s) == TakeIn(e', s)
  {
    SameAdmitted(e, e', s.waiting);
  }

  lemma StepIs(e: Epoch, s: Progress, s1: Progress, o: nat, bound: Msg, localClock: int)
    requires !DecodedAll(e, s) && s.replayed !in s.unmatched && OutCount(e, s.replayed) == Some(o)
    requires var s0 := TakeIn(e, s);
      && s1 == s0.(ordered := s0.ordered[SolidCount(e, s0, bound)..], solid := s1.solid)
      && Solidify(s0.solid, s0.ordered[..SolidCount(e, s0, bound)], |s0.solid| + s0.replayed) == Some(s1.solid)
    ensures Step(e, s, bound, localClock) == HandOut(e, s1, o, bound, localClock)
  {
    hide Admitted, Postponed, Sort, ReachedAfter, SolidCount, Solidify, OutCount, HandOut, DecodedAll;
    ReplayMatchedIs(e, TakeIn(e, s), s1.solid, o, bound, localClock);
  }

  lemma SolidOrdersOf(e: Epoch, t: seq<Msg>, s: Progress)
    requires |e.positions| == |t| && ListsOk(e, t, s)
    ensures forall i :: 0 <= i < |s.solid| ==> s.solid[i].order < |e.positions|
    ensures forall i, j :: 0 <= i < j < |s.solid| ==> s.solid[i].order < s.solid[j].order
  {
    SolidEntries(e.positions, t, Settled(s), s.replayed);
    SolidOrders(e.positions, t, Settled(s), s.replayed);
    assert forall i :: 0 <= i < |s.solid| ==> s.solid[i] in s.solid;
  }

  /** A call for a group, with everything there: the stray messages make no difference to it. */
  lemma SameGroup(e: Epoch, e': Epoch, n: nat, t: seq<Msg>, s: Progress, arrived: set<Msg>, bound: Msg, localClock: int)
    requires Continues(e, e', n) && Frame(e', t) && ListsOk(e', t, s) && ArrivalsOk(e', t, s, arrived) && SoundBound(t, arrived, bound)
    requires s.replayed < n && s.replayed !in s.unmatched
    requires Step(e', s, bound, localClock).Decoded? && Step(e', s, bound, localClock).emitted != []
    ensures var there, here := Step(e', s, bound, localClock), Step(e, s, bound, localClock);
      here.Decoded? && here.next == there.next && here.emitted == there.emitted && here.next.replayed <= n
  {
    hide *;
    GroupIsDue(e, e', n, s);
    SameOutCount(e, e', n, s.replayed);
    var o := OutCount(e, s.replayed).value;
    var s1 := SettleStep(e', t, s, arrived, bound);
    SameTakeIn(e, e', s);
    SameSolidCount(e, e', TakeIn(e, s), bound);
    StepIs(e, s, s1, o, bound, localClock);
    StepIs(e', s, s1, o, bound, localClock);
    PositionsFit(e', t);
    SolidOrdersOf(e', t, s1);
    SameHandOut(e, e', n, s1, o, bound, localClock);
  }

  lemma GroupIsDue(e: Epoch, e': Epoch, n: nat, s: Progress)
    requires Continues(e, e', n) && s.replayed < n
    ensures !DecodedAll(e, s) && !DecodedAll(e', s) && e.line == e'.line
  {
  }

  lemma PositionsFit(e: Epoch, t: seq<Msg>)
    requires Frame(e, t)
    ensures |e.positions| == |t|
  {
  }

  /** One call with everything there: the narrow table hands out what the widened one would. */
  lemma SameStep(e: Epoch, e': Epoch, r': Recording, n: nat, s: Progress, out: seq<Item>, arrived: set<Msg>, bound: Msg, localClock: int)
    requires ValidRecording(r') && Describes(e', r') && Continues(e, e', n)
    requires Inv(e', r', s, out, arrived) && AllArrived(Ts(r'), arrived)
    requires (forall k :: k in r'.unmatched ==> k <= n) && s.replayed <= n && !DecodedAll(e, s)
    ensures var there, here := Step(e', s, bound, localClock), Step(e, s, bound, localClock);
      && here.Decoded? && there.Decoded? && here.next == there.next && here.emitted == there.emitted
      && Inv(e', r', here.next, out + here.emitted, arrived) && here.emitted != [] && here.next.replayed <= n
  {
    assert SoundBound(Ts(r'), arrived, bound);
    FrameOf(e', r');
    StillGroups(e, e', r', n, s, out);
    hide Describes, AllArrived, SoundBound, OutCount, TakeIn, ReplayMatched, ListsOk, ArrivalsOk;
    var next, emitted := ReplayCall(e', r', s, out, arrived, bound, localClock);
    if s.replayed !in s.unmatched {
      hide OutputOk, ValidRecording, Continues, DecodedAll, Frame, Step;
      SameGroup(e, e', n, Ts(r'), s, arrived, bound, localClock);
    }
  }

  lemma StillGroups(e: Epoch, e': Epoch, r': Recording, n: nat, s: Progress, out: seq<Item>)
    requires ValidRecording(r') && Continues(e, e', n) && OutputOk(r', s, out)
    requires (forall k :: k in r'.unmatched ==> k <= n) && s.replayed <= n && !DecodedAll(e, s)
    ensures !DecodedAll(e', s) && (s.replayed !in s.unmatched ==> s.replayed < n)
  {
    if s.replayed == n {
      assert s.unmatched != map[];
      var k :| k in s.unmatched;
      assert k in r'.unmatched && k >= n;
    }
  }

  // ----- what an epoch hands out when everything has arrived -----

  /** The messages from epoch k on that its line lets in, sorted. */
  ghost function LetIn(plans: seq<Plan>, k: nat): seq<Msg>
    requires k < |plans|
  {
    Sort(Admitted(plans[k].epoch, KeysFrom(plans, k)))
  }

  /** The events that epoch k hands out: the smallest messages let in, in the recorded permutation. */
  ghost function Misread(plans: seq<Plan>, k: nat): Recording
    requires k < |plans| && ValidPlan(plans[k]) && LetsIn(plans[k].epoch, plans[k].recording, LetIn(plans, k))
  {
    var p, t := plans[k], LetIn(plans, k);
    LetsInEnough(p.epoch, p.recording, t);
    PositionsDistinct(p.epoch, p.recording);
    Recording(Reread(p.epoch.positions, t[..|p.recording.events|], p.recording.events), p.recording.unmatched)
  }

  lemma {:induction false} AdmittedNoRepeats(e: Epoch, waiting: seq<Msg>)
    requires NoRepeats(waiting)
    ensures NoRepeats(Admitted(e, waiting))
  {
    if waiting != [] {
      var front, last := waiting[..|waiting| - 1], waiting[|waiting| - 1];
      AdmittedNoRepeats(e, front);
      AdmittedAre(e, front);
      assert last !in front;
    }
  }

  lemma LetInIsLetIn(plans: seq<Plan>, k: nat)
    requires ValidPlans(plans) && k < |plans|
    ensures ValidPlan(plans[k]) && LetsIn(plans[k].epoch, plans[k].recording, LetIn(plans, k))
    ensures forall m :: m in LetIn(plans, k) <==> m in KeysFrom(plans, k) && WithinEpoch(plans[k].epoch, m)
  {
    var p, t := plans[k], LetIn(plans, k);
    EpochKeys(plans, k);
    KeysFromSuffix(plans, 0, k);
    KeysPositive(plans, k);
    AdmittedNoRepeats(p.epoch, KeysFrom(plans, k));
    AdmittedAre(p.epoch, KeysFrom(plans, k));
    OwnAreWithin(p);
  }

  lemma OwnAreWithin(p: Plan)
    requires ValidPlan(p)
    ensures forall m :: m in KeysOf(p) ==> WithinEpoch(p.epoch, m)
  {
    FrameOf(p.epoch, p.recording);
  }

  /** Epoch k replayed as if it were the widened one. */
  ghost predicate WideInv(plans: seq<Plan>, k: nat, s: Progress, out: seq<Item>, arrived: set<Msg>)
    requires k < |plans| && ValidPlan(plans[k]) && LetsIn(plans[k].epoch, plans[k].recording, LetIn(plans, k))
  {
    var e, r, t := plans[k].epoch, plans[k].recording, LetIn(plans, k);
    && |e.positions| == |r.events| <= |t| && IsPermutation(e.positions)
    && ValidRecording(WidenedRecording(e, r, t)) && Inv(Widened(e, |r.events|, |t|), WidenedRecording(e, r, t), s, out, arrived)
    && s.replayed <= |r.events|
  }

  /** What has been handed out when the narrow table is done. */
  lemma WideEnds(plans: seq<Plan>, k: nat, s: Progress, out: seq<Item>, arrived: set<Msg>)
    requires ValidPlans(plans) && k < |plans| && ValidPlan(plans[k]) && LetsIn(plans[k].epoch, plans[k].recording, LetIn(plans, k))
    requires WideInv(plans, k, s, out, arrived) && DecodedAll(plans[k].epoch, s)
    ensures out == Items(Misread(plans, k).events, plans[k].recording.unmatched)
  {
    hide *;
    var n := |plans[k].recording.events|;
    var wide := MisreadIs(plans, k);
    WideFacts(plans, k, s, out, arrived);
    WideOutput(plans[k].epoch, wide, s, out, n);
    FirstItems(wide.events, wide.unmatched, n);
  }

  lemma FirstItems(events: seq<Item>, unmatched: map<nat, int>, n: nat)
    requires n <= |events|
    ensures Items(events[..n], unmatched) == ItemsBefore(events, unmatched, n) + RunAt(unmatched, n)
  {
    ItemsBeforeAgree(events[..n], events, unmatched, unmatched, n);
  }

  lemma WideFacts(plans: seq<Plan>, k: nat, s: Progress, out: seq<Item>, arrived: set<Msg>)
    requires k < |plans| && ValidPlan(plans[k]) && LetsIn(plans[k].epoch, plans[k].recording, LetIn(plans, k))
    requires WideInv(plans, k, s, out, arrived)
    ensures var e, r, t := plans[k].epoch, plans[k].recording, LetIn(plans, k);
      && |e.positions| == |r.events| <= |t| && IsPermutation(e.positions) && (forall i :: 0 <= i < |r.events| ==> r.events[i].Matched?)
      && ValidRecording(WidenedRecording(e, r, t)) && OutputOk(WidenedRecording(e, r, t), s, out)
      && e.count == |r.events| && s.replayed <= |r.events|
  {
    hide LetIn, WidenedRecording, ListsOk, ArrivalsOk, OutputOk;
  }

  lemma WideOutput(e: Epoch, wide: Recording, s: Progress, out: seq<Item>, n: nat)
    requires ValidRecording(wide) && OutputOk(wide, s, out) && DecodedAll(e, s)
    requires e.count == n && s.replayed <= n <= |wide.events|
    ensures out == ItemsBefore(wide.events, wide.unmatched, n) + RunAt(wide.unmatched, n)
  {
    assert s.replayed == n && s.unmatched == map[];
  }

  lemma MisreadIs(plans: seq<Plan>, k: nat) returns (wide: Recording)
    requires k < |plans| && ValidPlan(plans[k]) && LetsIn(plans[k].epoch, plans[k].recording, LetIn(plans, k))
    ensures |plans[k].epoch.positions| == |plans[k].recording.events| <= |LetIn(plans, k)| && IsPermutation(plans[k].epoch.positions)
    ensures wide == WidenedRecording(plans[k].epoch, plans[k].recording, LetIn(plans, k))
    ensures ValidRecording(wide) && wide.unmatched == plans[k].recording.unmatched
    ensures |plans[k].recording.events| <= |wide.events| && Misread(plans, k).events == wide.events[..|plans[k].recording.events|]
  {
    var e, r, t := plans[k].epoch, plans[k].recording, LetIn(plans, k);
    var e';
    e', wide := WidenedDescribes(e, r, t);
    MisreadEvents(plans, k);
    hide ValidPlan, ValidRecording, LetsIn, LetIn, Misread, Describes, WidenedRecording;
    RereadFront(e.positions, e'.positions, t, r.events, r.events + seq(|t| - |r.events|, i => FILLER), wide.events);
  }

  lemma MisreadEvents(plans: seq<Plan>, k: nat)
    requires k < |plans| && ValidPlan(plans[k]) && LetsIn(plans[k].epoch, plans[k].recording, LetIn(plans, k))
    ensures var e, r, t := plans[k].epoch, plans[k].recording, LetIn(plans, k);
      && |e.positions| == |r.events| <= |t| && IsPermutation(e.positions) && (forall i :: 0 <= i < |r.events| ==> r.events[i].Matched?)
      && Misread(plans, k).events == Reread(e.positions, t[..|r.events|], r.events)
  {
    LetsInEnough(plans[k].epoch, plans[k].recording, LetIn(plans, k));
    PositionsDistinct(plans[k].epoch, plans[k].recording);
  }

  lemma RereadFront(positions: seq<nat>, wide: seq<nat>, t: seq<Msg>, events: seq<Item>, all: seq<Item>, reread: seq<Item>)
    requires IsPermutation(positions) && |positions| == |events| && positions <= wide && events <= all && |wide| <= |t|
    requires IsReread(wide, t, all, reread)
    ensures Reread(positions, t[..|events|], events) == reread[..|events|]
  {
    var n := |events|;
    assert forall i :: 0 <= i < n ==> all[i] == events[i];
    assert IsReread(positions, t[..n], events, reread[..n]) by {
      forall k | 0 <= k < n ensures reread[..n][positions[k]].Key() == t[..n][k] {
        assert wide[k] == positions[k] && reread[wide[k]].Key() == t[k];
      }
    }
    RereadIs(positions, t[..n], events);
    RereadUnique(positions, t[..n], events, Reread(positions, t[..n], events), reread[..n]);
  }

  ghost predicate ReadsWide(plans: seq<Plan>, k: nat)
    requires k < |plans|
  {
    ValidPlan(plans[k]) && LetsIn(plans[k].epoch, plans[k].recording, LetIn(plans, k))
  }

  lemma WideBegins(plans: seq<Plan>, k: nat, s: Progress, arrived: set<Msg>)
    requires ValidPlans(plans) && k < |plans| && ReadsWide(plans, k)
    requires s == Opened(plans[k], s) && Held(KeysFrom(plans, k), s.waiting, arrived)
    requires forall m :: m in s.waiting ==> m in KeysFrom(plans, k)
    ensures WideInv(plans, k, s, [], arrived)
  {
    var e, r, t := plans[k].epoch, plans[k].recording, LetIn(plans, k);
    LetInIsLetIn(plans, k);
    var e', r' := WidenedDescribes(e, r, t);
    assert forall m :: m in s.waiting && WithinEpoch(e', m) ==> WithinEpoch(e, m);
    hide ValidPlans, ValidPlan, LetsIn, LetIn, ValidRecording, Describes, WidenedRecording, Inv, KeysFrom, Held;
    WaitingInOrder(e', t, KeysFrom(plans, k), s.waiting, arrived);
    BeginEpoch(e', r', s, arrived);
  }

  lemma WideStep(plans: seq<Plan>, k: nat, s: Progress, out: seq<Item>, arrived: set<Msg>, bound: Msg, localClock: int)
    requires ValidPlans(plans) && k < |plans| && ReadsWide(plans, k) && plans[k].recording.events != []
    requires WideInv(plans, k, s, out, arrived) && AllArrived(KeysFrom(plans, k), arrived) && !DecodedAll(plans[k].epoch, s)
    ensures var o := Step(plans[k].epoch, s, bound, localClock);
      o.Decoded? && WideInv(plans, k, o.next, out + o.emitted, arrived) && o.emitted != []
  {
    var e, r, t := plans[k].epoch, plans[k].recording, LetIn(plans, k);
    LetInIsLetIn(plans, k);
    VectorsFit(e, r);
    var e', r' := WidenedDescribes(e, r, t);
    WidenedContinues(e, |r.events|, |t|);
    assert forall i :: i in r'.unmatched ==> i <= |r.events|;
    hide ValidPlans, ValidPlan, LetsIn, LetIn, ValidRecording, Describes, WidenedRecording, Inv, KeysFrom, Continues, Step, DecodedAll;
    SameStep(e, e', r', |r.events|, s, out, arrived, bound, localClock);
  }

  // ----- everything arrives at once -----

  lemma SortedArrivesOnce(all: seq<Msg>)
    requires NoRepeats(all)
    ensures ArriveOnce(all, Sort(all))
  {
    var t := Sort(all);
    forall i | 0 <= i < |t| ensures Arrives(all, AsSet(t[..i]), t[i]) {
      forall j | 0 <= j < i ensures t[j] != t[i] {
        assert Less(t[j], t[i]);
      }
      forall x | x in all && x.source == t[i].source && x.clock < t[i].clock ensures x in t[..i] {
        var j :| 0 <= j < |t| && t[j] == x;
        SmallerIsBefore(t, j, i);
        assert t[..i][j] == x;
      }
    }
  }

  lemma FreshParts(plans: seq<Plan>, k: nat, s: Progress, out: seq<Item>, arrived: set<Msg>)
    requires ValidPlans(plans) && Fresh(plans, k, s, out, arrived)
    ensures k < |plans| && out == StreamTo(plans, k) && Held(KeysFrom(plans, k), s.waiting, arrived)
    ensures forall m :: m in s.waiting ==> m in KeysFrom(plans, k)
    ensures s.unmatched == plans[k].recording.unmatched && s.replayed == 0
    ensures forall waiting :: s.(waiting := waiting) == Opened(plans[k], s.(waiting := waiting))
    ensures NoRepeats(AllKeys(plans))
  {
  }

  lemma AllOfEpochsArrived(plans: seq<Plan>, k: nat)
    requires ValidPlans(plans) && k < |plans|
    ensures AllArrived(KeysFrom(plans, k), AsSet(Sort(AllKeys(plans))))
    ensures KeysFrom(plans, 0) == AllKeys(plans)
    ensures forall m :: m in Sort(AllKeys(plans)) <==> m in AllKeys(plans)
  {
    KeysFromSuffix(plans, 0, k);
  }

  lemma SortedIsHeld(all: seq<Msg>)
    requires NoRepeats(all)
    ensures Held(all, Sort(all), AsSet(Sort(all)))
  {
    SortedArrivesOnce(all);
    forall w | 0 <= w < |Sort(all)| ensures ComesInOrder(all, {}, Sort(all), w) {
      assert Arrives(all, AsSet(Sort(all)[..w]), Sort(all)[w]);
    }
  }

  /** What epoch k can still hand out is bounded. */
  lemma WideFits(plans: seq<Plan>, k: nat, s: Progress, out: seq<Item>, arrived: set<Msg>) returns (size: nat)
    requires k < |plans| && ReadsWide(plans, k) && WideInv(plans, k, s, out, arrived)
    ensures |out| <= size
    ensures |plans[k].epoch.positions| == |plans[k].recording.events| <= |LetIn(plans, k)| && IsPermutation(plans[k].epoch.positions)
    ensures forall i :: 0 <= i < |plans[k].recording.events| ==> plans[k].recording.events[i].Matched?
    ensures size == |StreamOf(Plan(plans[k].epoch, WidenedRecording(plans[k].epoch, plans[k].recording, LetIn(plans, k))))|
  {
    WideFacts(plans, k, s, out, arrived);
    hide LetIn, WideInv;
    var r' := WidenedRecording(plans[k].epoch, plans[k].recording, LetIn(plans, k));
    One.OutputIsPrefix(r', s, out);
    size := |StreamOf(Plan(plans[k].epoch, r'))|;
  }

  lemma WideIsDone(plans: seq<Plan>, k: nat, s: Progress, out: seq<Item>, arrived: set<Msg>)
    requires ValidPlans(plans) && k < |plans| && ReadsWide(plans, k)
    requires WideInv(plans, k, s, out, arrived) && DecodedAll(plans[k].epoch, s)
    ensures out == Items(Misread(plans, k).events, plans[k].recording.unmatched)
  {
    hide WideInv, DecodedAll, LetIn, Misread;
    WideEnds(plans, k, s, out, arrived);
  }

  // ----- when it is what was recorded -----

  /** The recorded events are their own rereading from the epoch's own messages. */
  lemma OwnRereading(e: Epoch, r: Recording)
    requires ValidRecording(r) && Describes(e, r)
    ensures |e.positions| == |r.events| == |Ts(r)| && IsPermutation(e.positions)
    ensures IsReread(e.positions, Ts(r), r.events, r.events)
  {
    PositionsDistinct(e, r);
  }

  lemma RereadSame(positions: seq<nat>, t: seq<Msg>, t': seq<Msg>, events: seq<Item>)
    requires |positions| <= |t| && |positions| <= |t'|
    requires IsReread(positions, t, events, events) && IsReread(positions, t', events, events)
    ensures t[..|positions|] == t'[..|positions|]
  {
    forall k | 0 <= k < |positions| ensures t[k] == t'[k] {
      assert events[positions[k]].Key() == t[k];
    }
  }

  /** The epoch is read as recorded exactly if its smallest admitted messages are its own. */
  lemma MisreadIffOthers(plans: seq<Plan>, k: nat)
    requires ValidPlans(plans) && k < |plans| && ReadsWide(plans, k)
    ensures |plans[k].recording.events| == |TotalOf(plans[k])| <= |LetIn(plans, k)|
    ensures Misread(plans, k).events == plans[k].recording.events <==> LetIn(plans, k)[..|plans[k].recording.events|] == TotalOf(plans[k])
  {
    var e, r := plans[k].epoch, plans[k].recording;
    MisreadEvents(plans, k);
    OwnRereading(e, r);
    var n, t := |r.events|, LetIn(plans, k)[..|r.events|];
    hide ValidPlan, ValidRecording, LetIn, Misread, Describes, Ts, LetsIn, Reread;
    RereadIs(e.positions, t, r.events);
    if Misread(plans, k).events == r.events {
      RereadSame(e.positions, t, Ts(r), r.events);
      assert t[..n] == t && Ts(r)[..n] == Ts(r);
    }
    if t == Ts(r) {
      RereadUnique(e.positions, t, r.events, Reread(e.positions, t, r.events), r.events);
    }
  }

  lemma IntruderIsSmaller(own: seq<Msg>, t: seq<Msg>, a: Msg, m: Msg)
    requires StrictlySorted(t) && |own| <= |t| && t[..|own|] == own && a in own && m in t && Less(m, a)
    ensures m in own
  {
    var i :| 0 <= i < |own| && own[i] == a;
    var j :| 0 <= j < |t| && t[j] == m;
    assert t[i] == a;
    SmallerIsBefore(t, j, i);
    assert own[j] == t[j];
  }

  lemma SmallerIsBefore(t: seq<Msg>, i: nat, j: nat)
    requires StrictlySorted(t) && i < |t| && j < |t| && Less(t[i], t[j])
    ensures i < j
  {
  }

  lemma SameAsOwn(own: seq<Msg>, t: seq<Msg>)
    requires StrictlySorted(own) && StrictlySorted(t) && forall m :: m in own <==> m in t
    ensures |own| <= |t| && t[..|own|] == own
  {
    SortedUnique(own, t);
  }

  /** Epoch k is read as recorded if and only if every source was cut in clock order behind it. */
  lemma MisreadIffOutOfOrder(plans: seq<Plan>, k: nat)
    requires ValidPlans(plans) && k < |plans|
    ensures ReadsWide(plans, k)
    ensures Misread(plans, k).events == plans[k].recording.events <==> CutAt(plans, k)
  {
    var p, t := plans[k], LetIn(plans, k);
    LetInIsLetIn(plans, k);
    MisreadIffOthers(plans, k);
    EpochKeys(plans, k);
    OwnAreWithin(p);
    if CutAt(plans, k) {
      LaterIsNotWithin(plans, k);
      SameAsOwn(TotalOf(p), t);
    } else {
      hide Misread;
      CutIsCrossed(plans, k, TotalOf(p), t);
    }
  }

  lemma {:induction false} CutIsCrossed(plans: seq<Plan>, k: nat, own: seq<Msg>, t: seq<Msg>)
    requires k < |plans| && !CutAt(plans, k)
    requires forall m :: m in own <==> m in KeysOf(plans[k])
    requires forall m :: m in KeysOf(plans[k]) ==> m !in KeysFrom(plans, k + 1)
    requires forall m :: m in KeysOf(plans[k]) ==> WithinEpoch(plans[k].epoch, m)
    requires forall m :: m in KeysFrom(plans, k + 1) && WithinEpoch(plans[k].epoch, m) ==> m in t
    requires StrictlySorted(t) && |own| <= |t|
    ensures t[..|own|] != own
  {
    var a, m :| a in KeysOf(plans[k]) && m in KeysFrom(plans, k + 1) && a.source == m.source && a.clock >= m.clock;
    assert a != m && Less(m, a);
    assert WithinEpoch(plans[k].epoch, a) && WithinEpoch(plans[k].epoch, m);
    if t[..|own|] == own {
      IntruderIsSmaller(own, t, a, m);
    }
  }

  lemma {:induction false} ItemsBeforeInjective(a: seq<Item>, b: seq<Item>, u: map<nat, int>, r: nat)
    requires r <= |a| && r <= |b|
    ensures |ItemsBefore(a, u, r)| == |ItemsBefore(b, u, r)|
    ensures ItemsBefore(a, u, r) == ItemsBefore(b, u, r) ==> a[..r] == b[..r]
  {
    if r > 0 {
      ItemsBeforeInjective(a, b, u, r - 1);
      assert a[..r] == a[..r - 1] + [a[r - 1]] && b[..r] == b[..r - 1] + [b[r - 1]];
      if ItemsBefore(a, u, r) == ItemsBefore(b, u, r) {
        SameParts(ItemsBefore(a, u, r - 1), ItemsBefore(b, u, r - 1), RunAt(u, r - 1), a[r - 1], b[r - 1]);
      }
    }
  }

  lemma SameParts(x: seq<Item>, y: seq<Item>, run: seq<Item>, a: Item, b: Item)
    requires |x| == |y| && x + run + [a] == y + run + [b]
    ensures x == y && a == b
  {
    var v, w := x + run + [a], y + run + [b];
    assert v[..|x|] == x && w[..|y|] == y;
    assert v[|v| - 1] == a && w[|w| - 1] == b;
  }

  lemma ItemsInjective(a: seq<Item>, b: seq<Item>, u: map<nat, int>)
    requires |a| == |b|
    ensures |Items(a, u)| == |Items(b, u)|
    ensures Items(a, u) == Items(b, u) ==> a == b
  {
    var n := |a|;
    ItemsBeforeInjective(a, b, u, n);
    if Items(a, u) == Items(b, u) {
      var c := |ItemsBefore(a, u, n)|;
      assert Items(a, u)[..c] == ItemsBefore(a, u, n) && Items(b, u)[..c] == ItemsBefore(b, u, n);
      assert a[..n] == a && b[..n] == b;
    }
  }

  // ----- the exact condition -----

  lemma WideBound(plans: seq<Plan>, k: nat, all: set<Msg>, size: nat)
    requires k < |plans| && ReadsWide(plans, k)
    requires |plans[k].epoch.positions| == |plans[k].recording.events| <= |LetIn(plans, k)| && IsPermutation(plans[k].epoch.positions)
    requires forall i :: 0 <= i < |plans[k].recording.events| ==> plans[k].recording.events[i].Matched?
    requires size == |StreamOf(Plan(plans[k].epoch, WidenedRecording(plans[k].epoch, plans[k].recording, LetIn(plans, k))))|
    ensures forall s, out :: WideInv(plans, k, s, out, all) ==> |out| <= size
  {
    forall s, out | WideInv(plans, k, s, out, all) ensures |out| <= size {
      hide *;
      var same := WideFits(plans, k, s, out, all);
    }
  }

  lemma CutHasEvents(plans: seq<Plan>, k: nat, s: Progress)
    requires ValidPlans(plans) && k < |plans| && !CutAt(plans, k) && s.replayed == 0
    ensures plans[k].recording.events != [] && !DecodedAll(plans[k].epoch, s)
  {
    EpochKeys(plans, k);
    assert KeysOf(plans[k]) != [];
  }

  lemma SameTail(base: seq<Item>, a: seq<Item>, b: seq<Item>, whole: seq<Item>)
    requires base + a <= whole && base + b <= whole && |a| == |b|
    ensures a == b
  {
    assert base + a == base + b;
    assert (base + a)[|base|..] == a && (base + b)[|base|..] == b;
  }

  lemma NotThePrefix(plans: seq<Plan>, k: nat, events: seq<Item>)
    requires k < |plans| && |events| == |plans[k].recording.events| && events != plans[k].recording.events
    ensures !(StreamTo(plans, k) + Items(events, plans[k].recording.unmatched) <= Stream(plans))
  {
    var r, base := plans[k].recording, StreamTo(plans, k);
    StreamExtends(plans, k + 1, |plans|);
    ItemsInjective(events, r.events, r.unmatched);
    hide Items, StreamTo, Stream;
    if base + Items(events, r.unmatched) <= Stream(plans) {
      SameTail(base, Items(events, r.unmatched), Items(r.events, r.unmatched), Stream(plans));
    }
  }

  // ----- the smallest case -----

  /**
    An epoch in which one message was recorded, and an older one of its source that was recorded in
    the next epoch: the older one is handed out in its place.
   */
  lemma OlderMessageIsReadInstead(older: Msg, recorded: Msg)
    requires older.source == recorded.source && 0 < older.clock < recorded.clock
    ensures var plans := [OnePlan(recorded), OnePlan(older)];
      && ValidPlans(plans) && !CutAt(plans, 0) && ReadsWide(plans, 0)
      && Misread(plans, 0).events == [Matched(older.source, older.clock, false, 0)]
  {
    var plans := [OnePlan(recorded), OnePlan(older)];
    OlderIsLetIn(older, recorded);
    hide *;
    LetInIsLetIn(plans, 0);
    MisreadIffOutOfOrder(plans, 0);
    MisreadEvents(plans, 0);
    assert [older, recorded][..1] == [older];
    RereadOne(recorded, older);
  }

  lemma RereadOne(recorded: Msg, m: Msg)
    ensures IsPermutation(OnePlan(recorded).epoch.positions) && |OnePlan(recorded).recording.events| == 1
    ensures OnePlan(recorded).recording.events[0].Matched?
    ensures Reread(OnePlan(recorded).epoch.positions, [m], OnePlan(recorded).recording.events) == [Matched(m.source, m.clock, false, 0)]
  {
    assert Where([0], 0) == 0;
  }

  lemma OlderIsLetIn(older: Msg, recorded: Msg)
    requires older.source == recorded.source && 0 < older.clock < recorded.clock
    ensures var plans := [OnePlan(recorded), OnePlan(older)]; ValidPlans(plans) && !CutAt(plans, 0) && LetIn(plans, 0) == [older, recorded]
  {
    hide *;
    var plans := [OnePlan(recorded), OnePlan(older)];
    OnePlanIsValid(older);
    OnePlanIsValid(recorded);
    OutOfOrderPair(older, recorded);
    TwoPlansAreValid(plans);
    LetInIsLetIn(plans, 0);
    BothWithin(older, recorded);
    LetInSorted(plans, 0);
    PairIs(older, recorded, LetIn(plans, 0), KeysFrom(plans, 0), plans[0].epoch);
  }

  lemma BothWithin(older: Msg, recorded: Msg)
    requires older.source == recorded.source && older.clock < recorded.clock
    ensures WithinEpoch(OnePlan(recorded).epoch, recorded) && WithinEpoch(OnePlan(recorded).epoch, older)
  {
  }

  lemma PairIs(older: Msg, recorded: Msg, t: seq<Msg>, keys: seq<Msg>, e: Epoch)
    requires older.clock < recorded.clock && keys == [recorded] + [older] && WithinEpoch(e, recorded) && WithinEpoch(e, older)
    requires StrictlySorted(t) && forall m :: m in t <==> m in keys && WithinEpoch(e, m)
    ensures t == [older, recorded]
  {
    hide WithinEpoch;
    SortedPair(older, recorded);
    hide StrictlySorted;
    SortedUnique(t, [older, recorded]);
  }

  lemma OutOfOrderPair(older: Msg, recorded: Msg)
    requires older.source == recorded.source && older.clock < recorded.clock
    ensures NoRepeats([recorded] + [older]) && !CutInClockOrder([recorded], [older])
  {
    assert recorded in [recorded] && older in [older];
  }

  lemma SortedPair(older: Msg, recorded: Msg)
    requires older.clock < recorded.clock
    ensures StrictlySorted([older, recorded])
  {
  }

  lemma LetInSorted(plans: seq<Plan>, k: nat)
    requires k < |plans| && ValidPlan(plans[k]) && LetsIn(plans[k].epoch, plans[k].recording, LetIn(plans, k))
    ensures StrictlySorted(LetIn(plans, k))
  {
    hide LetIn, ValidPlan;
  }
}
