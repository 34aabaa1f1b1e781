/**
  What one call of the replayer achieves: which messages it holds back, when it hands out the next
  group, and the interim clock it computes, each without going through the call's own steps.
 */
module ReplayProgress {
  import opened EditScripts
  import opened Messages
  import opened EpochTables
  import opened Clocks
  import opened ReplayOrdering
  import opened ReplayFidelity
  import opened ReplayRuns

  // ----- what is held back -----

  /** The messages of the epoch that arrived last from every source are there. */
  predicate LineReached(e: Epoch, reached: map<int, int>) {
    forall source :: source in e.line ==> e.line[source] == if source in reached then reached[source] else 0
  }

  lemma HandOutKeepsLists(e: Epoch, s: Progress, o: nat, bound: Msg, localClock: int)
    requires HandOut(e, s, o, bound, localClock).Decoded?
    ensures var next := HandOut(e, s, o, bound, localClock).next; next.ordered == s.ordered && next.reached == s.reached && next.waiting == s.waiting
  {
    hide FillFrom, InterimFrom, GroupItems, Without, DecodedAll;
  }

  /** The solid part of a sorted list, told by the bound and the line alone. */
  lemma BehindSolid(e: Epoch, s: Progress, bound: Msg, m: Msg)
    requires forall i, j :: 0 <= i < j < |s.ordered| ==> LessEq(s.ordered[i], s.ordered[j])
    ensures m in s.ordered[SolidCount(e, s, bound)..] <==>
      m in s.ordered && bound.clock != COLLECTIVE_CLOCK && Less(bound, m) && !ReachedEpochLine(e, s.reached)
  {
    var n, ordered, atLine := SolidCount(e, s, bound), s.ordered, ReachedEpochLine(e, s.reached);
    if bound.clock != COLLECTIVE_CLOCK {
      assert n == LeadingSolid(ordered, bound, atLine);
      hide ReachedEpochLine, LeadingSolid;
      assert forall i :: 0 <= i < n ==> IsSolid(ordered[i], bound, atLine);
      assert n < |ordered| ==> !IsSolid(ordered[n], bound, atLine);
      if m in ordered[n..] {
        var i :| n <= i < |ordered| && ordered[i] == m;
        assert i == n || LessEq(ordered[n], ordered[i]);
      }
      if m in ordered && Less(bound, m) && !atLine {
        var i :| 0 <= i < |ordered| && ordered[i] == m;
        assert i >= n;
        assert ordered[n..][i - n] == m;
      }
    }
  }

  lemma LineIsReached(e: Epoch, reached: map<int, int>)
    ensures ReachedEpochLine(e, reached) <==> LineReached(e, reached)
  {
  }

  /**
    After a call for a group the ordered list holds exactly the messages of the epoch that are there,
    not yet certain by an earlier call, and above the bound in (clock, source) order, and none at all
    in a collective or once every source reached the epoch line.
   */
  lemma HeldBackIffAboveBound(e: Epoch, s: Progress, bound: Msg, localClock: int, m: Msg)
    requires !DecodedAll(e, s) && s.replayed !in s.unmatched && Step(e, s, bound, localClock).Decoded?
    ensures var next := Step(e, s, bound, localClock).next;
      m in next.ordered <==>
        && (m in s.ordered || (m in s.waiting && WithinEpoch(e, m)))
        && bound.clock != COLLECTIVE_CLOCK && Less(bound, m) && !LineReached(e, next.reached)
  {
    var s0 := TakeIn(e, s);
    var n := SolidCount(e, s0, bound);
    AdmittedAre(e, s.waiting);
    TakenIn(e, s);
    LineIsReached(e, s0.reached);
    BehindSolid(e, s0, bound, m);
    hide TakeIn, SolidCount, Solidify, OutCount, HandOut, ReachedEpochLine, LineReached;
    var solid := Solidify(s0.solid, s0.ordered[..n], |s0.solid| + s0.replayed).value;
    HandOutKeepsLists(e, s0.(ordered := s0.ordered[n..], solid := solid), OutCount(e, s.replayed).value, bound, localClock);
  }

  lemma TakenIn(e: Epoch, s: Progress)
    ensures var s0 := TakeIn(e, s);
      && s0.replayed == s.replayed && s0.unmatched == s.unmatched && s0.solid == s.solid
      && (forall m :: m in s0.ordered <==> m in s.ordered || m in Admitted(e, s.waiting))
      && (forall i, j :: 0 <= i < j < |s0.ordered| ==> LessEq(s0.ordered[i], s0.ordered[j]))
  {
    hide Admitted, Postponed, ReachedAfter;
  }

  // ----- when the group comes -----

  /**
    A message is certain: it was already, or it arrived and is not above the bound in (clock, source)
    order, or the rank is in a collective, or everything of the epoch arrived.
   */
  ghost predicate Certain(s: Progress, t: seq<Msg>, arrived: set<Msg>, bound: Msg, m: Msg) {
    || IsSolidNow(s, m)
    || (m in arrived && (bound.clock == COLLECTIVE_CLOCK || !Less(bound, m) || AllArrived(t, arrived)))
  }

  /** What the decoder expects of the next group: certain messages as they are, for the others the bound. */
  ghost function Expected(s: Progress, t: seq<Msg>, arrived: set<Msg>, bound: Msg, group: seq<Msg>): (msgs: seq<Msg>)
    ensures |msgs| == |group|
  {
    seq(|group|, j requires 0 <= j < |group| => if Certain(s, t, arrived, bound, group[j]) then group[j] else bound)
  }

  lemma LineIffAll(e: Epoch, t: seq<Msg>, s: Progress, arrived: set<Msg>)
    requires Frame(e, t) && ListsOk(e, t, s) && ArrivalsOk(e, t, s, arrived)
    requires forall m :: m in t ==> (m in arrived <==> m in KnownSet(t, s))
    ensures ReachedEpochLine(e, s.reached) <==> AllArrived(t, arrived)
  {
    if AllArrived(t, arrived) {
      AllArrivedReachesLine(e, t, s, arrived);
    }
    if ReachedEpochLine(e, s.reached) {
      forall m | m in t ensures m in arrived {
        assert WithinEpoch(e, m) && m.source in e.line;
        assert m.clock <= Lookup(s.reached, m.source);
      }
    }
  }

  lemma OrderedOrSettled(t: seq<Msg>, s: Progress, e: Epoch, k: nat)
    requires StrictlySorted(t) && |e.positions| == |t| && ListsOk(e, t, s) && k < |t|
    ensures t[k] in t[..Settled(s)] <==> k < Settled(s)
    ensures t[k] in s.ordered ==> k >= Settled(s)
    ensures t[k] in KnownSet(t, s) <==> k < Settled(s) || t[k] in s.ordered
  {
    var d := Settled(s);
    if k < d {
      assert t[..d][k] == t[k];
      if t[k] in s.ordered {
        OrderedIsLater(t, d, s.ordered, k);
      }
    } else {
      NotSettled(t, s, k);
    }
  }

  /** A message that is not replayed becomes settled exactly if it is certain. */
  lemma SettledIffCertain(e: Epoch, keys: seq<Msg>, t: seq<Msg>, s: Progress, arrived: set<Msg>, bound: Msg, s1: Progress, k: nat)
    requires Frame(e, t) && ListsOk(e, t, s) && ArrivalsOk(e, t, s, arrived) && NoRepeats(keys) && |keys| == |t| && s.replayed <= |t|
    requires forall i :: 0 <= i < |t| ==> t[i] == keys[e.positions[i]]
    requires s1 == TakeIn(e, s).(ordered := TakeIn(e, s).ordered[SolidCount(e, TakeIn(e, s), bound)..], solid := s1.solid)
    requires ListsOk(e, t, s1) && ArrivalsOk(e, t, s1, arrived) && k < |t| && e.positions[k] >= s.replayed
    ensures k < Settled(s1) <==> Certain(s, t, arrived, bound, t[k])
  {
    var s0, m := TakeIn(e, s), t[k];
    SortedFrame(e, t);
    SettledPlace(e, keys, t, s, k);
    TakeInKeeps(e, t, s, arrived);
    TakenIn(e, s);
    LineIffAll(e, t, s0, arrived);
    BehindSolid(e, s0, bound, m);
    NothingOfEpochWaits(e, t, s, s1, arrived, m);
    hide TakeIn, SolidCount, ListsOk, ArrivalsOk, Frame, NoRepeats, AllArrived, ReachedEpochLine, Admitted, IsSolidNow, KnownSet, Settled;
    OrderedOrSettled(t, s0, e, k);
    OrderedOrSettled(t, s1, e, k);
    SameSettled(s, s0);
  }

  lemma SameSettled(s: Progress, s0: Progress)
    requires s0.replayed == s.replayed && s0.solid == s.solid
    ensures Settled(s0) == Settled(s)
  {
  }

  lemma SortedFrame(e: Epoch, t: seq<Msg>)
    requires Frame(e, t)
    ensures StrictlySorted(t) && |e.positions| == |t| && IsPermutation(e.positions)
  {
  }

  lemma NothingOfEpochWaits(e: Epoch, t: seq<Msg>, s: Progress, s1: Progress, arrived: set<Msg>, m: Msg)
    requires Frame(e, t) && ListsOk(e, t, s1) && ArrivalsOk(e, t, s1, arrived) && s1.waiting == TakeIn(e, s).waiting && m in t
    ensures m in arrived <==> m in KnownSet(t, s1)
  {
    AdmittedAre(e, s.waiting);
    assert WithinEpoch(e, m) && m !in s1.waiting;
  }

  /** A slot is taken exactly if its message is among the d smallest. */
  lemma SlotsAreSettled(e: Epoch, keys: seq<Msg>, t: seq<Msg>, d: nat, replayed: nat, o: nat, slots: seq<Option<Msg>>, added: nat, j: nat, k: nat)
    requires |e.positions| == |t| == |keys| && d <= |t| && IsPermutation(e.positions) && replayed + o <= |keys|
    requires forall k :: 0 <= k < |t| ==> t[k] == keys[e.positions[k]]
    requires forall k :: d <= k < |t| ==> e.positions[k] >= replayed
    requires FillFrom(e, SolidOf(e.positions, t, d, replayed), 0, replayed, Filling(EmptySlots(o), 0)) == Filling(slots, added)
    requires j < o && k < |t| && e.positions[k] == replayed + j
    ensures |slots| == o && (slots[j].Some? <==> k < d)
    ensures slots[j].Some? ==> slots[j].value == keys[replayed + j]
  {
    hide *;
    var end := SlotsAreHit(e, keys, t, d, replayed, o, slots, added);
    var solid := SolidOf(e.positions, t, d, replayed);
    HitAt(e, keys, solid, end, replayed, slots, added, j);
    CountSomeFull(slots);
    SolidEntriesFit(e, keys, t, d, replayed);
    HitsSolid(e, t, d, replayed, end, k);
  }

  lemma SolidEntriesFit(e: Epoch, keys: seq<Msg>, t: seq<Msg>, d: nat, replayed: nat)
    requires |e.positions| == |t| == |keys| && d <= |t| && IsPermutation(e.positions)
    requires forall k :: 0 <= k < |t| ==> t[k] == keys[e.positions[k]]
    ensures forall i :: 0 <= i < |SolidOf(e.positions, t, d, replayed)| ==> SolidOf(e.positions, t, d, replayed)[i].order < |t|
  {
    SolidFillsSlots(e, keys, t, d, replayed);
  }

  lemma SlotsAreHit(e: Epoch, keys: seq<Msg>, t: seq<Msg>, d: nat, replayed: nat, o: nat, slots: seq<Option<Msg>>, added: nat) returns (end: nat)
    requires |e.positions| == |t| == |keys| && d <= |t| && IsPermutation(e.positions) && replayed + o <= |keys|
    requires forall k :: 0 <= k < |t| ==> t[k] == keys[e.positions[k]]
    requires FillFrom(e, SolidOf(e.positions, t, d, replayed), 0, replayed, Filling(EmptySlots(o), 0)) == Filling(slots, added)
    ensures var solid := SolidOf(e.positions, t, d, replayed);
      && end <= |solid| && (forall i :: 0 <= i < |solid| ==> solid[i].order < |e.positions|)
      && SlotsFrom(e, keys, solid, end, replayed, Filling(slots, added)) && |slots| == o && (end == |solid| || added == |slots|)
  {
    SolidFillsSlots(e, keys, t, d, replayed);
    EmptySlotsCount(o);
    hide CountSome;
    end := FillFromCorrect(e, keys, SolidOf(e.positions, t, d, replayed), 0, replayed, Filling(EmptySlots(o), 0));
  }

  lemma HitAt(e: Epoch, keys: seq<Msg>, solid: seq<Placed>, end: nat, replayed: nat, slots: seq<Option<Msg>>, added: nat, j: nat)
    requires end <= |solid| && (forall i :: 0 <= i < |solid| ==> solid[i].order < |e.positions|) && j < |slots|
    requires SlotsFrom(e, keys, solid, end, replayed, Filling(slots, added))
    ensures replayed + |slots| <= |keys| && added == CountSome(slots)
    ensures slots[j].Some? <==> Hits(e, solid, end, replayed + j)
    ensures slots[j].Some? ==> slots[j].value == keys[replayed + j]
  {
    hide CountSome, Hits;
  }

  // ----- the interim clock -----

  /** With no ordered message below the bound, the bound stands in everywhere. */
  lemma InterimWithBound(clock: int, slots: seq<Option<Msg>>, ordered: seq<Msg>, bound: Msg, msgs: seq<Msg>)
    requires |msgs| == |slots| && forall j :: 0 <= j < |slots| ==> msgs[j] == if slots[j].Some? then slots[j].value else bound
    requires forall m :: m in ordered ==> Less(bound, m)
    ensures InterimFrom(clock, slots, ordered, bound.clock) == SyncAll(clock, msgs)
  {
    assert ordered != [] ==> ordered[0] in ordered && ordered[0].clock >= bound.clock;
    assert forall i: nat :: !StartsBelow(ordered, i, bound.clock);
    InterimIsReplayed(clock, slots, ordered, bound.clock, msgs);
  }

  // ----- the call for a group -----

  /** The messages of the group that starts at position i. */
  ghost function GroupKeys(r: Recording, i: nat, o: nat): (msgs: seq<Msg>)
    requires ValidRecording(r) && IsGroup(r, i, o)
    ensures |msgs| == o
  {
    Ks(r)[i..i + o]
  }

  lemma MatchedParts(e: Epoch, r: Recording, s: Progress, out: seq<Item>, arrived: set<Msg>)
    requires ValidRecording(r) && Describes(e, r) && Inv(e, r, s, out, arrived)
    ensures Frame(e, Ts(r)) && Linked(e, r, Ks(r), Ts(r)) && ListsOk(e, Ts(r), s) && ArrivalsOk(e, Ts(r), s, arrived) && OutputOk(r, s, out)
    ensures |e.positions| == |Ts(r)| == |Ks(r)| == |r.events| && IsPermutation(e.positions) && NoRepeats(Ks(r)) && s.replayed <= |r.events|
    ensures forall k :: 0 <= k < |Ts(r)| ==> Ts(r)[k] == Ks(r)[e.positions[k]]
  {
    FrameOf(e, r);
    LinkedOf(e, r);
  }

  /** The slots that a call finds for the next group: taken exactly for the certain messages. */
  lemma GroupSlots(e: Epoch, r: Recording, s: Progress, out: seq<Item>, arrived: set<Msg>, bound: Msg, localClock: int, o: nat)
    returns (next: Progress, emitted: seq<Item>, slots: seq<Option<Msg>>, ordered: seq<Msg>, s1: Progress)
    requires ValidRecording(r) && Describes(e, r) && Inv(e, r, s, out, arrived) && SoundBound(Ts(r), arrived, bound)
    requires !DecodedAll(e, s) && s.replayed !in s.unmatched && IsGroup(r, s.replayed, o)
    ensures Step(e, s, bound, localClock) == Decoded(next, emitted, DecodedAll(e, next)) && |slots| == o
    ensures forall j :: 0 <= j < o ==> (slots[j].Some? <==> Certain(s, Ts(r), arrived, bound, GroupKeys(r, s.replayed, o)[j]))
    ensures forall j :: 0 <= j < o && slots[j].Some? ==> slots[j].value == GroupKeys(r, s.replayed, o)[j]
    ensures emitted == if forall j :: 0 <= j < o ==> slots[j].Some? then GroupOf(r, s.replayed, o) else []
    ensures ordered == s1.ordered == next.ordered && s1.interim == s.interim && next.interim == InterimOf(s1, slots, bound, localClock)
  {
    hide *;
    MatchedParts(e, r, s, out, arrived);
    GroupFound(e, r, s, out, o);
    var t, keys, group := Ts(r), Ks(r), GroupOf(r, s.replayed, o);
    var added;
    s1, slots, added, next, emitted := MatchedState(e, r, keys, t, s, out, arrived, o, group, bound, localClock);
    StepIsHands(e, s, s1, o, bound, localClock, slots, added, next, emitted);
    ordered := s1.ordered;
    HandsKeep(e, s1, o, slots, added, next, emitted);
    KeptInterim(e, s);
    var same := SettleStep(e, t, s, arrived, bound);
    GroupKeysAre(r, s.replayed, o);
    SlotsAreCertain(e, keys, t, s, arrived, bound, s1, o, slots, added, GroupKeys(r, s.replayed, o));
    var slots', added' := SlotsAtHand(e, keys, t, s1, o);
  }

  lemma SlotsAreCertain(e: Epoch, keys: seq<Msg>, t: seq<Msg>, s: Progress, arrived: set<Msg>, bound: Msg, s1: Progress, o: nat,
                        slots: seq<Option<Msg>>, added: nat, group: seq<Msg>)
    requires Frame(e, t) && ListsOk(e, t, s) && ArrivalsOk(e, t, s, arrived) && NoRepeats(keys) && |e.positions| == |keys| == |t| && s.replayed + o <= |t|
    requires IsPermutation(e.positions) && forall i :: 0 <= i < |t| ==> t[i] == keys[e.positions[i]]
    requires s1 == TakeIn(e, s).(ordered := TakeIn(e, s).ordered[SolidCount(e, TakeIn(e, s), bound)..], solid := s1.solid)
    requires ListsOk(e, t, s1) && ArrivalsOk(e, t, s1, arrived) && s1.replayed == s.replayed
    requires FillFrom(e, s1.solid, 0, s1.replayed, Filling(EmptySlots(o), 0)) == Filling(slots, added)
    requires |group| == o && forall j :: 0 <= j < o ==> group[j] == keys[s.replayed + j]
    ensures |slots| == o && forall j :: 0 <= j < o ==> (slots[j].Some? <==> Certain(s, t, arrived, bound, group[j]))
    ensures forall j :: 0 <= j < o && slots[j].Some? ==> slots[j].value == group[j]
  {
    hide *;
    SolidIs(e, t, s1);
    FilledSize(e, s1.solid, s1.replayed, o, slots, added);
    forall j | 0 <= j < o
      ensures (slots[j].Some? <==> Certain(s, t, arrived, bound, group[j])) && (slots[j].Some? ==> slots[j].value == group[j])
    {
      PermutationIsOnto(e.positions, s.replayed + j);
      var k: nat :| k < |t| && e.positions[k] == s.replayed + j;
      SettledIffCertain(e, keys, t, s, arrived, bound, s1, k);
      SlotsAreSettled(e, keys, t, Settled(s1), s.replayed, o, slots, added, j, k);
    }
  }

  lemma FilledSize(e: Epoch, solid: seq<Placed>, replayed: nat, o: nat, slots: seq<Option<Msg>>, added: nat)
    requires FillFrom(e, solid, 0, replayed, Filling(EmptySlots(o), 0)) == Filling(slots, added)
    ensures |slots| == o
  {
  }

  /** The group at hand is the one that the call counts. */
  lemma GroupFound(e: Epoch, r: Recording, s: Progress, out: seq<Item>, o: nat)
    requires ValidRecording(r) && Describes(e, r) && OutputOk(r, s, out)
    requires !DecodedAll(e, s) && s.replayed !in s.unmatched && IsGroup(r, s.replayed, o)
    ensures OutCount(e, s.replayed) == Some(o) && s.replayed + o <= |r.events|
  {
    GroupsLeft(e, r, s, out);
    var o' := OutCountIsGroup(e, r, s.replayed);
    GroupUnique(r, s.replayed, o, o');
  }

  lemma HandsKeep(e: Epoch, s: Progress, o: nat, slots: seq<Option<Msg>>, added: nat, next: Progress, emitted: seq<Item>)
    requires Hands(e, s, o, slots, added, next, emitted)
    ensures next.ordered == s.ordered
  {
  }

  lemma KeptInterim(e: Epoch, s: Progress)
    ensures TakeIn(e, s).interim == s.interim
  {
  }

  lemma GroupKeysAre(r: Recording, i: nat, o: nat)
    requires ValidRecording(r) && IsGroup(r, i, o)
    ensures i + o <= |Ks(r)| && forall j :: 0 <= j < o ==> GroupKeys(r, i, o)[j] == Ks(r)[i + j]
  {
  }

  lemma SolidIs(e: Epoch, t: seq<Msg>, s: Progress)
    requires |e.positions| == |t| && ListsOk(e, t, s)
    ensures Settled(s) <= |t| && s.solid == SolidOf(e.positions, t, Settled(s), s.replayed)
    ensures forall k :: Settled(s) <= k < |t| ==> e.positions[k] >= s.replayed
  {
  }

  /**
    Exactly when a call hands out the next group: if and only if every message of it is certain.
    Otherwise it hands out nothing.
   */
  lemma GroupComesIffCertain(e: Epoch, r: Recording, s: Progress, out: seq<Item>, arrived: set<Msg>, bound: Msg, localClock: int, o: nat)
    requires ValidRecording(r) && Describes(e, r) && Inv(e, r, s, out, arrived) && SoundBound(Ts(r), arrived, bound)
    requires !DecodedAll(e, s) && s.replayed !in s.unmatched && IsGroup(r, s.replayed, o)
    ensures Step(e, s, bound, localClock).Decoded?
    ensures Step(e, s, bound, localClock).emitted ==
      if forall m :: m in GroupKeys(r, s.replayed, o) ==> Certain(s, Ts(r), arrived, bound, m) then GroupOf(r, s.replayed, o) else []
  {
    hide *;
    var next, emitted, slots, ordered, s1 := GroupSlots(e, r, s, out, arrived, bound, localClock, o);
    var group := GroupKeys(r, s.replayed, o);
    assert forall j :: 0 <= j < o ==> group[j] in group;
    forall m | m in group ensures exists j :: 0 <= j < o && group[j] == m {
    }
  }

  /**
    The exact interim clock of a call for a group: outside collectives it is the local clock after a
    receive set with the certain messages of the group and the bound in place of each other one; in a
    collective it stays.
   */
  lemma InterimIsExact(e: Epoch, r: Recording, s: Progress, out: seq<Item>, arrived: set<Msg>, bound: Msg, localClock: int, o: nat)
    requires ValidRecording(r) && Describes(e, r) && Inv(e, r, s, out, arrived) && SoundBound(Ts(r), arrived, bound)
    requires !DecodedAll(e, s) && s.replayed !in s.unmatched && IsGroup(r, s.replayed, o)
    ensures Step(e, s, bound, localClock).Decoded?
    ensures Step(e, s, bound, localClock).next.interim ==
      if bound.clock == COLLECTIVE_CLOCK then s.interim
      else SyncAll(localClock, Expected(s, Ts(r), arrived, bound, GroupKeys(r, s.replayed, o)))
  {
    hide *;
    var next, emitted, slots, ordered, s1 := GroupSlots(e, r, s, out, arrived, bound, localClock, o);
    var group := GroupKeys(r, s.replayed, o);
    var msgs := Expected(s, Ts(r), arrived, bound, group);
    InterimOfIs(s1, slots, bound, localClock);
    if bound.clock != COLLECTIVE_CLOCK {
      forall m | m in ordered ensures Less(bound, m) {
        HeldBackIffAboveBound(e, s, bound, localClock, m);
      }
      ExpectedIs(s, Ts(r), arrived, bound, group);
      InterimWithBound(localClock, slots, ordered, bound, msgs);
    }
  }

  lemma InterimOfIs(s: Progress, slots: seq<Option<Msg>>, bound: Msg, localClock: int)
    ensures InterimOf(s, slots, bound, localClock) ==
      if bound.clock == COLLECTIVE_CLOCK then s.interim else InterimFrom(localClock, slots, s.ordered, bound.clock)
  {
  }

  lemma ExpectedIs(s: Progress, t: seq<Msg>, arrived: set<Msg>, bound: Msg, group: seq<Msg>)
    ensures forall j :: 0 <= j < |group| ==>
      Expected(s, t, arrived, bound, group)[j] == if Certain(s, t, arrived, bound, group[j]) then group[j] else bound
  {
    hide Certain;
  }

  /** While a message of the group is missing, the interim clock is beyond the bound and the local clock, so a blocked rank's published clock rises. */
  lemma WaitingRaisesInterim(e: Epoch, r: Recording, s: Progress, out: seq<Item>, arrived: set<Msg>, bound: Msg, localClock: int)
    requires ValidRecording(r) && Describes(e, r) && Inv(e, r, s, out, arrived) && SoundBound(Ts(r), arrived, bound)
    requires !DecodedAll(e, s) && bound.clock != COLLECTIVE_CLOCK
    ensures Step(e, s, bound, localClock).Decoded?
    ensures Step(e, s, bound, localClock).emitted == [] ==> Step(e, s, bound, localClock).next.interim > bound.clock
    ensures Step(e, s, bound, localClock).emitted == [] ==> Step(e, s, bound, localClock).next.interim > localClock
  {
    hide *;
    if s.replayed in s.unmatched {
      RunComes(e, s, bound, localClock);
    } else {
      MatchedParts(e, r, s, out, arrived);
      var o := GroupDue(e, r, s, out);
      MissingRaises(e, r, s, out, arrived, bound, localClock, o);
    }
  }

  lemma RunComes(e: Epoch, s: Progress, bound: Msg, localClock: int)
    requires !DecodedAll(e, s) && s.replayed in s.unmatched
    ensures Step(e, s, bound, localClock).Decoded? && Step(e, s, bound, localClock).emitted != []
  {
  }

  lemma GroupDue(e: Epoch, r: Recording, s: Progress, out: seq<Item>) returns (o: nat)
    requires ValidRecording(r) && Describes(e, r) && OutputOk(r, s, out) && !DecodedAll(e, s) && s.replayed !in s.unmatched
    ensures IsGroup(r, s.replayed, o)
  {
    GroupsLeft(e, r, s, out);
    o := OutCountIsGroup(e, r, s.replayed);
  }

  lemma MissingRaises(e: Epoch, r: Recording, s: Progress, out: seq<Item>, arrived: set<Msg>, bound: Msg, localClock: int, o: nat)
    requires ValidRecording(r) && Describes(e, r) && Inv(e, r, s, out, arrived) && SoundBound(Ts(r), arrived, bound)
    requires !DecodedAll(e, s) && s.replayed !in s.unmatched && IsGroup(r, s.replayed, o) && bound.clock != COLLECTIVE_CLOCK
    ensures Step(e, s, bound, localClock).Decoded?
    ensures Step(e, s, bound, localClock).emitted == [] ==>
      Step(e, s, bound, localClock).next.interim > bound.clock && Step(e, s, bound, localClock).next.interim > localClock
  {
    hide *;
    GroupIsSomething(r, s.replayed, o);
    GroupComesIffCertain(e, r, s, out, arrived, bound, localClock, o);
    InterimIsExact(e, r, s, out, arrived, bound, localClock, o);
    var group := GroupKeys(r, s.replayed, o);
    var msgs := Expected(s, Ts(r), arrived, bound, group);
    SyncAllIsLargest(localClock, msgs);
    ExpectedIs(s, Ts(r), arrived, bound, group);
    if Step(e, s, bound, localClock).emitted == [] {
      var m :| m in group && !Certain(s, Ts(r), arrived, bound, m);
      var j :| 0 <= j < |group| && group[j] == m;
      assert msgs[j] == bound;
    }
  }

  lemma GroupIsSomething(r: Recording, i: nat, o: nat)
    requires ValidRecording(r) && IsGroup(r, i, o)
    ensures GroupOf(r, i, o) != [] && |GroupKeys(r, i, o)| == o > 0
  {
  }

  /** Calls for nothing but a group leave the interim clock and the lists of messages alone. */
  lemma OtherCallsKeep(e: Epoch, s: Progress, bound: Msg, localClock: int)
    requires DecodedAll(e, s) || s.replayed in s.unmatched
    ensures Step(e, s, bound, localClock).Decoded?
    ensures var next := Step(e, s, bound, localClock).next;
      && next.interim == s.interim && next.waiting == s.waiting && next.ordered == s.ordered && next.solid == s.solid
      && next.reached == s.reached && next.replayed == s.replayed
  {
  }

  // ----- the errors -----

  /** Messages become solid exactly if they are increasing, also behind what is solid already; then they are numbered in order. */
  lemma {:induction false} SolidifyIff(solid: seq<Placed>, msgs: seq<Msg>, order: nat)
    ensures Solidify(solid, msgs, order).Some? <==>
      && (solid != [] && msgs != [] ==> Less(solid[|solid| - 1].msg, msgs[0]))
      && (forall i :: 0 < i < |msgs| ==> Less(msgs[i - 1], msgs[i]))
    ensures Solidify(solid, msgs, order).Some? ==>
      Solidify(solid, msgs, order).value == solid + seq(|msgs|, i requires 0 <= i < |msgs| => Placed(msgs[i], order + i))
    decreases |msgs|
  {
    if msgs != [] {
      var more, rest := solid + [Placed(msgs[0], order)], msgs[1..];
      SolidifyIff(more, rest, order + 1);
      assert forall i :: 0 <= i < |rest| ==> rest[i] == msgs[i + 1];
      assert seq(|msgs|, i requires 0 <= i < |msgs| => Placed(msgs[i], order + i))
        == [Placed(msgs[0], order)] + seq(|rest|, i requires 0 <= i < |rest| => Placed(rest[i], order + 1 + i));
    }
  }

  /** An entry for which the table has no place, or one that was replayed before. */
  predicate Misplaced(e: Epoch, p: Placed, replayed: nat) {
    p.order >= |e.positions| || e.positions[p.order] < replayed
  }

  /** How many of the first k entries belong to the group of o events. */
  function InGroup(e: Epoch, solid: seq<Placed>, k: nat, replayed: nat, o: nat): nat
    requires k <= |solid|
  {
    if k == 0 then 0
    else
      var p := solid[k - 1];
      InGroup(e, solid, k - 1, replayed, o) + (if p.order < |e.positions| && replayed <= e.positions[p.order] < replayed + o then 1 else 0)
  }

  /** The first misplaced entry, met before the group is full. */
  ghost predicate MeetsMisplaced(e: Epoch, solid: seq<Placed>, replayed: nat, o: nat, i: nat) {
    && i < |solid| && Misplaced(e, solid[i], replayed) && InGroup(e, solid, i, replayed, o) < o
    && forall k :: 0 <= k < i ==> !Misplaced(e, solid[k], replayed)
  }

  lemma {:induction false} FillOn(e: Epoch, solid: seq<Placed>, k: nat, replayed: nat, f: Filling)
    requires k <= |solid| && f.Filling? && f.added == InGroup(e, solid, k, replayed, |f.slots|) <= |f.slots|
    requires forall i :: 0 <= i < k ==> !Misplaced(e, solid[i], replayed)
    ensures FillFrom(e, solid, k, replayed, f).Bad? <==> exists i: nat :: MeetsMisplaced(e, solid, replayed, |f.slots|, i)
    ensures forall i: nat :: MeetsMisplaced(e, solid, replayed, |f.slots|, i) ==>
      FillFrom(e, solid, k, replayed, f) == Bad(if solid[i].order >= |e.positions| then OutOfRange else NegativeIndex)
    decreases |solid| - k
  {
    var o := |f.slots|;
    if k < |solid| && f.added != o {
      if Misplaced(e, solid[k], replayed) {
        assert MeetsMisplaced(e, solid, replayed, o, k);
      } else {
        FillOn(e, solid, k + 1, replayed, FillOne(e, solid[k], replayed, f));
      }
    } else {
      forall i: nat ensures !MeetsMisplaced(e, solid, replayed, o, i) {
        if k <= i < |solid| {
          MoreInGroup(e, solid, k, i, replayed, o);
        }
      }
    }
  }

  lemma {:induction false} MoreInGroup(e: Epoch, solid: seq<Placed>, k: nat, i: nat, replayed: nat, o: nat)
    requires k <= i <= |solid|
    ensures InGroup(e, solid, k, replayed, o) <= InGroup(e, solid, i, replayed, o)
    decreases i
  {
    if k < i {
      MoreInGroup(e, solid, k, i - 1, replayed, o);
    }
  }

  /** Filling a group fails exactly if a misplaced entry is met before the group is full, with the error for that entry. */
  lemma FillFailsIffMisplaced(e: Epoch, solid: seq<Placed>, replayed: nat, o: nat)
    ensures var filled := FillFrom(e, solid, 0, replayed, Filling(EmptySlots(o), 0));
      && (filled.Bad? <==> exists i: nat :: MeetsMisplaced(e, solid, replayed, o, i))
      && forall i: nat :: MeetsMisplaced(e, solid, replayed, o, i) ==>
        filled == Bad(if solid[i].order >= |e.positions| then OutOfRange else NegativeIndex)
  {
    FillOn(e, solid, 0, replayed, Filling(EmptySlots(o), 0));
  }
}
