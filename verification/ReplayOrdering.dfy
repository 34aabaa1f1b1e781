/**
  cdc_decode_ordering: one call of the replayer on the table of a matching set.

  Arrived messages wait until they belong to the epoch, are kept ordered, become solid once no
  smaller message can arrive, and are handed out in recorded order, one group at a time.
 */
module ReplayOrdering {
  import opened EditScripts
  import opened Messages
  import opened EpochTables
  import opened Clocks

  /** The decoded table of one epoch; it does not change during replay. */
  datatype Epoch = Epoch(
    count: nat,
    positions: seq<nat>,      // clock order -> observed position
    withNext: seq<bool>,      // empty if no event has a next one
    matchedIndex: seq<int>,
    line: map<int, int>)      // source -> last clock

  datatype Placed = Placed(msg: Msg, order: nat)

  /** What changes during replay. */
  datatype Progress = Progress(
    waiting: seq<Msg>,            // arrived, not yet looked at
    ordered: seq<Msg>,            // of this epoch, sorted
    solid: seq<Placed>,           // order can no longer change
    reached: map<int, int>,       // source -> clock of the last message taken in
    unmatched: map<nat, int>,     // unmatched runs not yet replayed
    replayed: nat,
    interim: int)                 // lower bound on the clock after the next group

  datatype Failure = SmallerEvent | NegativeIndex | OutOfRange | InconsistentEvents

  datatype Outcome =
    | Decoded(next: Progress, emitted: seq<Item>, finished: bool)
    | Failed(failure: Failure)

  function Lookup(m: map<int, int>, k: int): int {
    if k in m then m[k] else 0
  }

  predicate DecodedAll(e: Epoch, s: Progress) {
    && s.unmatched == map[]
    && !(s.replayed < e.count && e.count != 0)
  }

  predicate WithinEpoch(e: Epoch, m: Msg) {
    m.clock <= Lookup(e.line, m.source)
  }

  predicate ReachedEpochLine(e: Epoch, reached: map<int, int>) {
    forall source :: source in e.line ==> Lookup(reached, source) == e.line[source]
  }

  // ----- operation A: take in what arrived -----

  function Admitted(e: Epoch, waiting: seq<Msg>): seq<Msg> {
    if waiting == [] then []
    else
      var last := waiting[|waiting| - 1];
      Admitted(e, waiting[..|waiting| - 1]) + (if WithinEpoch(e, last) then [last] else [])
  }

  function Postponed(e: Epoch, waiting: seq<Msg>): seq<Msg> {
    if waiting == [] then []
    else
      var last := waiting[|waiting| - 1];
      Postponed(e, waiting[..|waiting| - 1]) + (if WithinEpoch(e, last) then [] else [last])
  }

  function ReachedAfter(reached: map<int, int>, admitted: seq<Msg>): map<int, int> {
    if admitted == [] then reached
    else
      var last := admitted[|admitted| - 1];
      ReachedAfter(reached, admitted[..|admitted| - 1])[last.source := last.clock]
  }

  function TakeIn(e: Epoch, s: Progress): Progress {
    var admitted := Admitted(e, s.waiting);
    s.(waiting := Postponed(e, s.waiting), ordered := Sort(s.ordered + admitted), reached := ReachedAfter(s.reached, admitted))
  }

  // ----- operation B: what has become solid -----

  predicate IsSolid(m: Msg, bound: Msg, atLine: bool) {
    !Less(bound, m) || atLine
  }

  function LeadingSolid(ordered: seq<Msg>, bound: Msg, atLine: bool): (n: nat)
    ensures n <= |ordered|
    ensures forall i :: 0 <= i < n ==> IsSolid(ordered[i], bound, atLine)
    ensures n < |ordered| ==> !IsSolid(ordered[n], bound, atLine)
  {
    if ordered == [] || !IsSolid(ordered[0], bound, atLine) then 0
    else 1 + LeadingSolid(ordered[1..], bound, atLine)
  }

  function SolidCount(e: Epoch, s: Progress, bound: Msg): (n: nat)
    ensures n <= |s.ordered|
  {
    if bound.clock == COLLECTIVE_CLOCK then |s.ordered|
    else LeadingSolid(s.ordered, bound, ReachedEpochLine(e, s.reached))
  }

  /** Appends messages to the solid list with consecutive clock orders; None if one is not larger. */
  function Solidify(solid: seq<Placed>, msgs: seq<Msg>, order: nat): Option<seq<Placed>>
    decreases |msgs|
  {
    if msgs == [] then Some(solid)
    else if solid != [] && !Less(solid[|solid| - 1].msg, msgs[0]) then None
    else Solidify(solid + [Placed(msgs[0], order)], msgs[1..], order + 1)
  }

  // ----- the next group -----

  /** Number of set flags from position i on; None if the flags end first. */
  function FlagRun(flags: seq<bool>, i: nat): Option<nat>
    decreases |flags| - i
  {
    if i >= |flags| then None
    else if !flags[i] then Some(0)
    else
      match FlagRun(flags, i + 1)
      case None => None
      case Some(n) => Some(n + 1)
  }

  function OutCount(e: Epoch, replayed: nat): Option<nat> {
    if e.withNext == [] then Some(1)
    else
      match FlagRun(e.withNext, replayed)
      case None => None
      case Some(n) => Some(n + 1)
  }

  datatype Filling = Filling(slots: seq<Option<Msg>>, added: nat) | Bad(failure: Failure)

  /** Puts solid messages into the slots of the group, in list order, until all are taken. */
  function FillFrom(e: Epoch, solid: seq<Placed>, k: nat, replayed: nat, f: Filling): (r: Filling)
    ensures r.Filling? ==> f.Filling? && |r.slots| == |f.slots|
    decreases |solid| - k
  {
    if k >= |solid| || f.Bad? || f.added == |f.slots| then f
    else FillFrom(e, solid, k + 1, replayed, FillOne(e, solid[k], replayed, f))
  }

  function FillOne(e: Epoch, p: Placed, replayed: nat, f: Filling): (r: Filling)
    requires f.Filling?
    ensures r.Filling? ==> |r.slots| == |f.slots|
  {
    if p.order >= |e.positions| then Bad(OutOfRange)
    else
      var index := e.positions[p.order] - replayed;
      if 0 <= index < |f.slots| then Filling(f.slots[index := Some(p.msg)], f.added + 1)
      else if index < 0 then Bad(NegativeIndex)
      else f
  }

  function EmptySlots(n: nat): seq<Option<Msg>> {
    seq(n, i => None)
  }

  // ----- the interim clock -----

  /** Replays the known slots on the local clock and the bound on the missing ones. */
  function InterimFrom(clock: int, slots: seq<Option<Msg>>, ordered: seq<Msg>, boundClock: int): int
    decreases |slots|
  {
    if slots == [] then clock
    else
      match slots[0]
      case Some(m) => InterimFrom(SyncClock(clock, m.clock), slots[1..], ordered, boundClock)
      case None =>
        if ordered != [] && ordered[0].clock < boundClock then
          InterimFrom(SyncClock(clock, ordered[0].clock), slots[1..], ordered[1..], boundClock)
        else InterimFrom(SyncClock(clock, boundClock), slots[1..], ordered, boundClock)
  }

  // ----- the replayed group -----

  function GroupItems(e: Epoch, slots: seq<Option<Msg>>, replayed: nat): seq<Item>
    requires forall i :: 0 <= i < |slots| ==> slots[i].Some?
    requires |e.matchedIndex| > 0 ==> replayed + |slots| <= |e.matchedIndex|
  {
    seq(|slots|, i requires 0 <= i < |slots| =>
      Matched(slots[i].value.source, slots[i].value.clock, i < |slots| - 1,
              if |e.matchedIndex| > 0 then e.matchedIndex[replayed + i] else 0))
  }

  function Without(solid: seq<Placed>, gone: seq<Option<Msg>>): seq<Placed> {
    if solid == [] then []
    else
      var last := solid[|solid| - 1];
      Without(solid[..|solid| - 1], gone) + (if Some(last.msg) in gone then [] else [last])
  }

  // ----- one call -----

  function Step(e: Epoch, s: Progress, bound: Msg, localClock: int): Outcome {
    if DecodedAll(e, s) then Decoded(s, [], false)
    else if s.replayed in s.unmatched then
      var next := s.(unmatched := s.unmatched - {s.replayed});
      Decoded(next, [Unmatched(s.unmatched[s.replayed])], DecodedAll(e, next))
    else ReplayMatched(e, TakeIn(e, s), bound, localClock)
  }

  function ReplayMatched(e: Epoch, s: Progress, bound: Msg, localClock: int): Outcome {
    var n := SolidCount(e, s, bound);
    match Solidify(s.solid, s.ordered[..n], |s.solid| + s.replayed)
    case None => Failed(SmallerEvent)
    case Some(solid) =>
      match OutCount(e, s.replayed)
      case None => Failed(OutOfRange)
      case Some(outcount) =>
        HandOut(e, s.(ordered := s.ordered[n..], solid := solid), outcount, bound, localClock)
  }

  function HandOut(e: Epoch, s: Progress, outcount: nat, bound: Msg, localClock: int): Outcome {
    match FillFrom(e, s.solid, 0, s.replayed, Filling(EmptySlots(outcount), 0))
    case Bad(failure) => Failed(failure)
    case Filling(slots, added) =>
      var s1 := if bound.clock == COLLECTIVE_CLOCK then s
                else s.(interim := InterimFrom(localClock, slots, s.ordered, bound.clock));
      if added != outcount then
        if DecodedAll(e, s1) then Failed(InconsistentEvents) else Decoded(s1, [], false)
      else if (exists i :: 0 <= i < |slots| && slots[i].None?) || (|e.matchedIndex| > 0 && s.replayed + outcount > |e.matchedIndex|) then
        Failed(OutOfRange)
      else
        var next := s1.(solid := Without(s1.solid, slots), replayed := s1.replayed + outcount);
        Decoded(next, GroupItems(e, slots, s.replayed), DecodedAll(e, next))
  }

  // ----- the loops -----

  /** The next waiting message is either postponed or admitted. */
  lemma TakeInOneMore(e: Epoch, waiting: seq<Msg>, i: nat, reached: map<int, int>)
    requires i < |waiting|
    ensures var event, before, after := waiting[i], Admitted(e, waiting[..i]), Admitted(e, waiting[..i + 1]);
      if WithinEpoch(e, event) then
        && Postponed(e, waiting[..i + 1]) == Postponed(e, waiting[..i]) && after == before + [event]
        && ReachedAfter(reached, after) == ReachedAfter(reached, before)[event.source := event.clock]
      else Postponed(e, waiting[..i + 1]) == Postponed(e, waiting[..i]) + [event] && after == before
  {
    var event, before := waiting[i], Admitted(e, waiting[..i]);
    assert waiting[..i + 1][..i] == waiting[..i];
    if WithinEpoch(e, event) {
      assert (before + [event])[..|before|] == before;
    }
  }

  /** The loop of operation A over the waiting messages. */
  method SplitWaiting(e: Epoch, waiting: seq<Msg>, reached: map<int, int>)
    returns (postponed: seq<Msg>, admitted: seq<Msg>, line: map<int, int>)
    ensures postponed == Postponed(e, waiting) && admitted == Admitted(e, waiting) && line == ReachedAfter(reached, admitted)
  {
    postponed, admitted, line := [], [], reached;
    for i := 0 to |waiting|
      invariant postponed == Postponed(e, waiting[..i]) && admitted == Admitted(e, waiting[..i])
      invariant line == ReachedAfter(reached, admitted)
    {
      TakeInOneMore(e, waiting, i, reached);
      var event := waiting[i];
      if !WithinEpoch(e, event) {
        postponed := postponed + [event];
      } else {
        admitted := admitted + [event];
        line := line[event.source := event.clock];
      }
    }
    assert waiting[..|waiting|] == waiting;
  }

  class TestTable {
    const epoch: Epoch
    var eventList: seq<Msg>                  // the caller's event_list
    var orderedEventList: seq<Msg>
    var solidOrderedEventList: seq<Placed>
    var currentEpochLine: map<int, int>
    var unmatchedEvents: map<nat, int>
    var replayedMatchedEventIndex: nat
    var interimMinClock: int

    ghost function Snapshot(): Progress
      reads this
    {
      Progress(eventList, orderedEventList, solidOrderedEventList, currentEpochLine, unmatchedEvents,
               replayedMatchedEventIndex, interimMinClock)
    }

    constructor (epoch: Epoch, unmatched: map<nat, int>)
      ensures this.epoch == epoch && Snapshot() == Start(unmatched)
    {
      this.epoch := epoch;
      eventList, orderedEventList, solidOrderedEventList := [], [], [];
      currentEpochLine, unmatchedEvents := map[], unmatched;
      replayedMatchedEventIndex, interimMinClock := 0, 0;
    }

    /** cdc_decode_ordering. */
    method DecodeOrdering(bound: Msg, localClock: int) returns (emitted: seq<Item>, finished: bool, failure: Option<Failure>)
      modifies this
      ensures match Step(epoch, old(Snapshot()), bound, localClock)
              case Decoded(next, items, done) => failure.None? && Snapshot() == next && emitted == items && finished == done
              case Failed(f) => failure == Some(f)
    {
      emitted, finished, failure := [], false, None;
      if IsDecodedAll() {
        return;
      }
      if replayedMatchedEventIndex in unmatchedEvents {
        emitted := [Unmatched(unmatchedEvents[replayedMatchedEventIndex])];
        unmatchedEvents := unmatchedEvents - {replayedMatchedEventIndex};
        finished := IsDecodedAll();
        return;
      }
      TakeInWaiting();
      emitted, finished, failure := ReplayMatchedEvents(bound, localClock);
    }

    /** Operation B and the rest of the call. */
    method ReplayMatchedEvents(bound: Msg, localClock: int) returns (emitted: seq<Item>, finished: bool, failure: Option<Failure>)
      modifies this
      ensures match ReplayMatched(epoch, old(Snapshot()), bound, localClock)
              case Decoded(next, items, done) => failure.None? && Snapshot() == next && emitted == items && finished == done
              case Failed(f) => failure == Some(f)
    {
      hide HandOut, Solidify, LeadingSolid, FlagRun, ReachedEpochLine;
      emitted, finished, failure := [], false, None;
      var atLine := ReachedEpochLine(epoch, currentEpochLine);
      var n: nat := |orderedEventList|;
      if bound.clock != COLLECTIVE_CLOCK {
        n := CountSolid(orderedEventList, bound, atLine);
      }
      var solid := MoveSolid(solidOrderedEventList, orderedEventList[..n], |solidOrderedEventList| + replayedMatchedEventIndex);
      if solid.None? {
        failure := Some(SmallerEvent);
        return;
      }
      orderedEventList, solidOrderedEventList := orderedEventList[n..], solid.value;
      var outcount := CountGroup(epoch.withNext, replayedMatchedEventIndex);
      if outcount.None? {
        failure := Some(OutOfRange);
        return;
      }
      emitted, finished, failure := HandOutGroup(outcount.value, bound, localClock);
    }

    function IsDecodedAll(): (b: bool)
      reads this
      ensures b == DecodedAll(epoch, Snapshot())
    {
      unmatchedEvents == map[] && !(replayedMatchedEventIndex < epoch.count && epoch.count != 0)
    }

    /** Operation A: moves the messages of this epoch to the ordered list. */
    method TakeInWaiting()
      modifies this
      ensures Snapshot() == TakeIn(epoch, old(Snapshot()))
    {
      var admitted;
      eventList, admitted, currentEpochLine := SplitWaiting(epoch, eventList, currentEpochLine);
      orderedEventList := Sort(orderedEventList + admitted);
    }

    /** The slots, the interim clock, and, if every slot is taken, the group. */
    method HandOutGroup(outcount: nat, bound: Msg, localClock: int) returns (emitted: seq<Item>, finished: bool, failure: Option<Failure>)
      modifies this
      ensures match HandOut(epoch, old(Snapshot()), outcount, bound, localClock)
              case Decoded(next, items, done) => failure.None? && Snapshot() == next && emitted == items && finished == done
              case Failed(f) => failure == Some(f)
    {
      hide FillFrom, InterimFrom, GroupItems, Without;
      emitted, finished, failure := [], false, None;
      var filling := FillSlots(epoch, solidOrderedEventList, replayedMatchedEventIndex, outcount);
      if filling.Bad? {
        failure := Some(filling.failure);
        return;
      }
      var slots := filling.slots;
      if bound.clock != COLLECTIVE_CLOCK {
        interimMinClock := ComputeInterim(localClock, slots, orderedEventList, bound.clock);
      }
      if filling.added != outcount {
        if IsDecodedAll() {
          failure := Some(InconsistentEvents);
        }
        return;
      }
      if (exists i :: 0 <= i < |slots| && slots[i].None?) ||
         (|epoch.matchedIndex| > 0 && replayedMatchedEventIndex + outcount > |epoch.matchedIndex|) {
        failure := Some(OutOfRange);
        return;
      }
      emitted := ReplayedEvents(epoch, slots, replayedMatchedEventIndex);
      solidOrderedEventList := Without(solidOrderedEventList, slots);
      replayedMatchedEventIndex := replayedMatchedEventIndex + |slots|;
      finished := IsDecodedAll();
    }
  }

  function Start(unmatched: map<nat, int>): Progress {
    Progress([], [], [], map[], unmatched, 0, 0)
  }

  method CountSolid(ordered: seq<Msg>, bound: Msg, atLine: bool) returns (n: nat)
    ensures n == LeadingSolid(ordered, bound, atLine)
    ensures n <= |ordered| && forall i :: 0 <= i < n ==> atLine || !Less(bound, ordered[i])
    ensures n < |ordered| ==> !atLine && Less(bound, ordered[n])
  {
    n := 0;
    while n < |ordered| && IsSolid(ordered[n], bound, atLine)
      invariant n <= |ordered|
      invariant n + LeadingSolid(ordered[n..], bound, atLine) == LeadingSolid(ordered, bound, atLine)
    {
      assert ordered[n..][1..] == ordered[n + 1..];
      n := n + 1;
    }
  }

  method MoveSolid(solid: seq<Placed>, msgs: seq<Msg>, nextClockOrder: nat) returns (moved: Option<seq<Placed>>)
    ensures moved == Solidify(solid, msgs, nextClockOrder)
  {
    var list := solid;
    for i := 0 to |msgs|
      invariant Solidify(list, msgs[i..], nextClockOrder + i) == Solidify(solid, msgs, nextClockOrder)
    {
      assert msgs[i..][1..] == msgs[i + 1..];
      if |list| > 0 {
        if !Less(list[|list| - 1].msg, msgs[i]) {
          return None;
        }
      }
      list := list + [Placed(msgs[i], nextClockOrder + i)];
    }
    return Some(list);
  }

  method CountGroup(flags: seq<bool>, replayed: nat) returns (outcount: Option<nat>)
    ensures outcount == if flags == [] then Some(1) else
      match FlagRun(flags, replayed) { case None => None case Some(n) => Some(n + 1) }
  {
    var count: nat := 1;
    if |flags| > 0 {
      var i := replayed;
      ghost var run := FlagRun(flags, replayed);
      while i < |flags| && flags[i]
        invariant i >= replayed && count == 1 + i - replayed
        invariant run == match FlagRun(flags, i) { case None => None case Some(n) => Some(n + (i - replayed)) }
        decreases |flags| - i
      {
        count, i := count + 1, i + 1;
      }
      if i >= |flags| {
        return None;
      }
    }
    return Some(count);
  }

  method FillSlots(e: Epoch, solid: seq<Placed>, replayed: nat, outcount: nat) returns (filling: Filling)
    ensures filling == FillFrom(e, solid, 0, replayed, Filling(EmptySlots(outcount), 0))
  {
    filling := Filling(EmptySlots(outcount), 0);
    var k := 0;
    while k < |solid| && filling.added != outcount
      invariant 0 <= k <= |solid| && filling.Filling? && |filling.slots| == outcount
      invariant FillFrom(e, solid, k, replayed, filling) == FillFrom(e, solid, 0, replayed, Filling(EmptySlots(outcount), 0))
    {
      var p := solid[k];
      if p.order >= |e.positions| {
        return Bad(OutOfRange);
      }
      var permutatedIndex := e.positions[p.order] - replayed;
      if 0 <= permutatedIndex < outcount {
        filling := Filling(filling.slots[permutatedIndex := Some(p.msg)], filling.added + 1);
      } else if permutatedIndex < 0 {
        return Bad(NegativeIndex);
      }
      k := k + 1;
    }
  }

  /** The events of the group, with their flags and indices. */
  method ReplayedEvents(e: Epoch, slots: seq<Option<Msg>>, replayed: nat) returns (events: seq<Item>)
    requires forall i :: 0 <= i < |slots| ==> slots[i].Some?
    requires |e.matchedIndex| > 0 ==> replayed + |slots| <= |e.matchedIndex|
    ensures events == GroupItems(e, slots, replayed)
  {
    events := [];
    for i := 0 to |slots|
      invariant events == GroupItems(e, slots, replayed)[..i]
    {
      var m := slots[i].value;
      var index := if |e.matchedIndex| > 0 then e.matchedIndex[replayed + i] else 0;
      events := events + [Matched(m.source, m.clock, i < |slots| - 1, index)];
    }
  }

  // ----- what the interim clock replays -----

  function Missing(slots: seq<Option<Msg>>): nat {
    if slots == [] then 0 else Missing(slots[..|slots| - 1]) + (if slots[|slots| - 1].None? then 1 else 0)
  }

  /** The first i + 1 ordered messages exist and are below the bound. */
  predicate StartsBelow(ordered: seq<Msg>, i: nat, boundClock: int) {
    i < |ordered| && forall k :: 0 <= k <= i ==> ordered[k].clock < boundClock
  }

  /** For the i-th missing slot the i-th ordered message stands in if it and all before it are below the bound, else the bound. */
  predicate StandsIn(slots: seq<Option<Msg>>, ordered: seq<Msg>, boundClock: int, j: nat, m: Msg)
    requires j < |slots|
  {
    match slots[j]
    case Some(x) => m == x
    case None =>
      var i := Missing(slots[..j]);
      m.clock == if StartsBelow(ordered, i, boundClock) then ordered[i].clock else boundClock
  }

  lemma {:induction false} MissingHead(slots: seq<Option<Msg>>)
    requires slots != []
    ensures Missing(slots) == (if slots[0].None? then 1 else 0) + Missing(slots[1..])
  {
    if |slots| > 1 {
      var n := |slots| - 1;
      MissingHead(slots[..n]);
      assert slots[1..][..n - 1] == slots[..n][1..];
    }
  }

  /** The interim clock is the clock after a receive set in which messages stand in for the missing ones. */
  lemma {:induction false} InterimIsReplayed(clock: int, slots: seq<Option<Msg>>, ordered: seq<Msg>, boundClock: int, msgs: seq<Msg>)
    requires |msgs| == |slots| && forall j :: 0 <= j < |slots| ==> StandsIn(slots, ordered, boundClock, j, msgs[j])
    ensures InterimFrom(clock, slots, ordered, boundClock) == SyncAll(clock, msgs)
    decreases |slots|
  {
    if slots != [] {
      var below := slots[0].None? && ordered != [] && ordered[0].clock < boundClock;
      var rest := if below then ordered[1..] else ordered;
      assert slots[..0] == [] && StandsIn(slots, ordered, boundClock, 0, msgs[0]);
      assert StartsBelow(ordered, 0, boundClock) <==> ordered != [] && ordered[0].clock < boundClock;
      forall j | 0 <= j < |slots| - 1 ensures StandsIn(slots[1..], rest, boundClock, j, msgs[1..][j]) {
        StandsInRest(slots, ordered, boundClock, j, msgs[j + 1]);
      }
      InterimIsReplayed(SyncClock(clock, msgs[0].clock), slots[1..], rest, boundClock, msgs[1..]);
    }
  }

  lemma StandsInRest(slots: seq<Option<Msg>>, ordered: seq<Msg>, boundClock: int, j: nat, m: Msg)
    requires j + 1 < |slots| && StandsIn(slots, ordered, boundClock, j + 1, m)
    ensures var below := slots[0].None? && ordered != [] && ordered[0].clock < boundClock;
      StandsIn(slots[1..], if below then ordered[1..] else ordered, boundClock, j, m)
  {
    var below := slots[0].None? && ordered != [] && ordered[0].clock < boundClock;
    var rest := if below then ordered[1..] else ordered;
    MissingHead(slots[..j + 1]);
    assert slots[..j + 1][1..] == slots[1..][..j];
    var i := Missing(slots[1..][..j]);
    if below {
      assert Missing(slots[..j + 1]) == i + 1;
      assert StartsBelow(ordered, i + 1, boundClock) <==> StartsBelow(rest, i, boundClock) by {
        assert forall k :: 0 <= k < |rest| ==> rest[k] == ordered[k + 1];
        if StartsBelow(rest, i, boundClock) {
          forall k | 0 <= k <= i + 1 ensures ordered[k].clock < boundClock {
            assert k > 0 ==> ordered[k] == rest[k - 1];
          }
        }
        if StartsBelow(ordered, i + 1, boundClock) {
          forall k | 0 <= k <= i ensures rest[k].clock < boundClock {
            assert rest[k] == ordered[k + 1];
          }
        }
      }
    } else if slots[0].None? {
      assert !StartsBelow(ordered, i, boundClock) && !StartsBelow(ordered, i + 1, boundClock);
    }
  }

  method ComputeInterim(localClock: int, slots: seq<Option<Msg>>, ordered: seq<Msg>, boundClock: int) returns (clock: int)
    ensures clock == InterimFrom(localClock, slots, ordered, boundClock)
    ensures forall msgs: seq<Msg> :: |msgs| == |slots| && (forall j :: 0 <= j < |slots| ==> StandsIn(slots, ordered, boundClock, j, msgs[j])) ==>
      clock == SyncAll(localClock, msgs)
  {
    clock := localClock;
    var cit := 0;
    for i := 0 to |slots|
      invariant 0 <= cit <= |ordered|
      invariant InterimFrom(clock, slots[i..], ordered[cit..], boundClock) == InterimFrom(localClock, slots, ordered, boundClock)
    {
      assert slots[i..][1..] == slots[i + 1..];
      var replaying := boundClock;
      if slots[i].None? {
        if cit < |ordered| && ordered[cit].clock < boundClock {
          assert ordered[cit..][1..] == ordered[cit + 1..];
          replaying := ordered[cit].clock;
          cit := cit + 1;
        }
      } else {
        replaying := slots[i].value.clock;
      }
      if clock < replaying {
        clock := replaying;
      }
      clock := clock + 1;
    }
    forall msgs: seq<Msg> | |msgs| == |slots| && (forall j :: 0 <= j < |slots| ==> StandsIn(slots, ordered, boundClock, j, msgs[j]))
      ensures clock == SyncAll(localClock, msgs)
    {
      InterimIsReplayed(localClock, slots, ordered, boundClock, msgs);
    }
  }
}
