/**
  Whole replays of one epoch of one matching set: any interleaving of arrivals and calls.
 */
module ReplayRuns {
  import opened Messages
  import opened EpochTables
  import opened ReplayOrdering
  import opened ReplayFidelity

  /** One call of cdc_decode_ordering, with the messages that arrived since the last one. */
  datatype Call = Call(arrivals: seq<Msg>, bound: Msg, localClock: int)

  /** The state, everything handed out, and how often a call reported that the table is done. */
  datatype Replay =
    | Ran(state: Progress, out: seq<Item>, finishes: nat)
    | Broke(failure: Failure)

  function Run(e: Epoch, unmatched: map<nat, int>, calls: seq<Call>): Replay {
    if calls == [] then Ran(Start(unmatched), [], 0)
    else
      match Run(e, unmatched, calls[..|calls| - 1])
      case Broke(failure) => Broke(failure)
      case Ran(s, out, finishes) => RunCall(e, s, out, finishes, calls[|calls| - 1])
  }

  function RunCall(e: Epoch, s: Progress, out: seq<Item>, finishes: nat, call: Call): Replay {
    match Step(e, s.(waiting := s.waiting + call.arrivals), call.bound, call.localClock)
    case Failed(failure) => Broke(failure)
    case Decoded(next, emitted, finished) => Ran(next, out + emitted, finishes + if finished then 1 else 0)
  }

  function Arrivals(calls: seq<Call>): seq<Msg> {
    if calls == [] then [] else Arrivals(calls[..|calls| - 1]) + calls[|calls| - 1].arrivals
  }

  /** Each message of the epoch arrives once, after those its source sent before it. */
  ghost predicate ArriveInOrder(e: Epoch, t: seq<Msg>, arrivals: seq<Msg>) {
    forall i :: 0 <= i < |arrivals| ==> ArrivesOk(e, t, AsSet(arrivals[..i]), arrivals[i])
  }

  /** The bound of every call is sound for what had arrived by then. */
  ghost predicate SoundBounds(t: seq<Msg>, calls: seq<Call>) {
    forall k :: 0 <= k < |calls| ==> SoundBound(t, AsSet(Arrivals(calls[..k + 1])), calls[k].bound)
  }

  lemma InOrderFront(e: Epoch, t: seq<Msg>, a: seq<Msg>, b: seq<Msg>)
    requires ArriveInOrder(e, t, a + b)
    ensures ArriveInOrder(e, t, a)
  {
    forall i | 0 <= i < |a| ensures ArrivesOk(e, t, AsSet(a[..i]), a[i]) {
      assert (a + b)[..i] == a[..i];
      assert ArrivesOk(e, t, AsSet((a + b)[..i]), (a + b)[i]);
    }
  }

  lemma PrefixesAreSound(e: Epoch, t: seq<Msg>, calls: seq<Call>)
    requires calls != [] && ArriveInOrder(e, t, Arrivals(calls)) && SoundBounds(t, calls)
    ensures ArriveInOrder(e, t, Arrivals(calls[..|calls| - 1])) && SoundBounds(t, calls[..|calls| - 1])
    ensures SoundBound(t, AsSet(Arrivals(calls)), calls[|calls| - 1].bound)
  {
    hide ArriveInOrder, SoundBound;
    var n := |calls| - 1;
    var front := calls[..n];
    InOrderFront(e, t, Arrivals(front), calls[n].arrivals);
    forall k | 0 <= k < n ensures SoundBound(t, AsSet(Arrivals(front[..k + 1])), front[k].bound) {
      assert front[..k + 1] == calls[..k + 1];
    }
    assert calls[..n + 1] == calls;
  }

  lemma {:induction false} ArriveAll(e: Epoch, t: seq<Msg>, s: Progress, before: seq<Msg>, msgs: seq<Msg>)
    requires Frame(e, t) && ListsOk(e, t, s) && ArrivalsOk(e, t, s, AsSet(before)) && ArriveInOrder(e, t, before + msgs)
    ensures var next := s.(waiting := s.waiting + msgs);
      ListsOk(e, t, next) && ArrivalsOk(e, t, next, AsSet(before + msgs))
    decreases |msgs|
  {
    if msgs == [] {
      assert before + msgs == before && s.waiting + msgs == s.waiting;
    } else {
      var n := |msgs| - 1;
      var front, last := msgs[..n], msgs[n];
      InOrderPrefix(e, t, before, msgs);
      ArriveAll(e, t, s, before, front);
      ArriveKeeps(e, t, s.(waiting := s.waiting + front), AsSet(before + front), last);
      assert AsSet(before + msgs) == AsSet(before + front) + {last};
      assert s.waiting + msgs == s.waiting + front + [last];
    }
  }

  lemma InOrderPrefix(e: Epoch, t: seq<Msg>, before: seq<Msg>, msgs: seq<Msg>)
    requires msgs != [] && ArriveInOrder(e, t, before + msgs)
    ensures ArriveInOrder(e, t, before + msgs[..|msgs| - 1])
    ensures ArrivesOk(e, t, AsSet(before + msgs[..|msgs| - 1]), msgs[|msgs| - 1])
  {
    var all, less := before + msgs, before + msgs[..|msgs| - 1];
    assert all == less + [msgs[|msgs| - 1]] && all[..|less|] == less;
    InOrderFront(e, t, less, [msgs[|msgs| - 1]]);
    assert ArrivesOk(e, t, AsSet(all[..|less|]), all[|less|]);
  }

  // ----- what was handed out -----

  lemma {:induction false} ItemsPrefix(events: seq<Item>, unmatched: map<nat, int>, i: nat)
    requires i <= |events|
    ensures ItemsBefore(events, unmatched, i) + RunAt(unmatched, i) <= Items(events, unmatched)
    decreases |events| - i
  {
    if i < |events| {
      ItemsPrefix(events, unmatched, i + 1);
    }
  }

  lemma OutputIsPrefix(r: Recording, s: Progress, out: seq<Item>)
    requires ValidRecording(r) && OutputOk(r, s, out)
    ensures out <= Items(r.events, r.unmatched)
  {
    ItemsPrefix(r.events, r.unmatched, s.replayed);
  }

  lemma DecodedAllIsComplete(e: Epoch, r: Recording, s: Progress, out: seq<Item>)
    requires ValidRecording(r) && e.count == |r.events| && OutputOk(r, s, out)
    requires DecodedAll(e, s)
    ensures out == Items(r.events, r.unmatched)
  {
  }

  // ----- every run -----

  /** Calls that are possible: arrivals in order, bounds sound. */
  ghost predicate Possible(e: Epoch, r: Recording, calls: seq<Call>)
    requires ValidRecording(r)
  {
    ArriveInOrder(e, Ts(r), Arrivals(calls)) && SoundBounds(Ts(r), calls)
  }

  ghost predicate RunOk(e: Epoch, r: Recording, calls: seq<Call>)
    requires ValidRecording(r)
  {
    match Run(e, r.unmatched, calls)
    case Broke(_) => false
    case Ran(s, out, finishes) =>
      && Inv(e, r, s, out, AsSet(Arrivals(calls)))
      && finishes == (if DecodedAll(e, s) && !DecodedAll(e, Start(r.unmatched)) then 1 else 0)
      && (DecodedAll(e, Start(r.unmatched)) ==> DecodedAll(e, s))
  }

  lemma RunCallKeepsInv(e: Epoch, r: Recording, s: Progress, out: seq<Item>, before: seq<Msg>, call: Call, finishes: nat)
    requires ValidRecording(r) && Describes(e, r) && Inv(e, r, s, out, AsSet(before))
    requires ArriveInOrder(e, Ts(r), before + call.arrivals)
    requires SoundBound(Ts(r), AsSet(before + call.arrivals), call.bound)
    ensures var after := RunCall(e, s, out, finishes, call);
      && after.Ran? && Inv(e, r, after.state, after.out, AsSet(before + call.arrivals))
      && after.finishes == finishes + (if !DecodedAll(e, s) && DecodedAll(e, after.state) then 1 else 0)
      && (DecodedAll(e, s) ==> DecodedAll(e, after.state))
      && out <= after.out
      && (AllArrived(Ts(r), AsSet(before + call.arrivals)) && !DecodedAll(e, s) ==> |after.out| > |out|)
  {
    var s' := s.(waiting := s.waiting + call.arrivals);
    assert Inv(e, r, s', out, AsSet(before + call.arrivals)) by {
      FrameOf(e, r);
      ArriveAll(e, Ts(r), s, before, call.arrivals);
      OutputKept(r, s, s', out);
    }
    assert DecodedAll(e, s') == DecodedAll(e, s);
    hide Inv, ArriveInOrder, SoundBound, Describes, ValidRecording, DecodedAll;
    var next, emitted := ReplayCall(e, r, s', out, AsSet(before + call.arrivals), call.bound, call.localClock);
  }

  lemma {:induction false} RunStarts(e: Epoch, r: Recording)
    requires ValidRecording(r) && Describes(e, r)
    ensures RunOk(e, r, [])
  {
    StartInv(e, r);
    assert AsSet([]) == {};
  }

  lemma RunContinues(e: Epoch, r: Recording, calls: seq<Call>)
    requires ValidRecording(r) && Describes(e, r) && Possible(e, r, calls) && calls != []
    requires RunOk(e, r, calls[..|calls| - 1])
    ensures RunOk(e, r, calls)
  {
    hide Inv, ArriveInOrder, SoundBounds, SoundBound, Describes, ValidRecording, DecodedAll;
    PrefixesAreSound(e, Ts(r), calls);
    assert Arrivals(calls) == Arrivals(calls[..|calls| - 1]) + calls[|calls| - 1].arrivals;
    var before := Run(e, r.unmatched, calls[..|calls| - 1]);
    RunCallKeepsInv(e, r, before.state, before.out, Arrivals(calls[..|calls| - 1]), calls[|calls| - 1], before.finishes);
  }

  lemma PossibleFront(e: Epoch, r: Recording, calls: seq<Call>)
    requires ValidRecording(r) && Possible(e, r, calls) && calls != []
    ensures Possible(e, r, calls[..|calls| - 1])
  {
    PrefixesAreSound(e, Ts(r), calls);
  }

  lemma {:induction false} RunKeepsInv(e: Epoch, r: Recording, calls: seq<Call>)
    requires ValidRecording(r) && Describes(e, r) && Possible(e, r, calls)
    ensures RunOk(e, r, calls)
  {
    hide *;
    if calls == [] {
      RunStarts(e, r);
    } else {
      PossibleFront(e, r, calls);
      RunKeepsInv(e, r, calls[..|calls| - 1]);
      RunContinues(e, r, calls);
    }
  }

  /**
    Replay fidelity.  For every recording, every interleaving of arrivals and calls, and all sound
    bounds: no call fails, what was handed out is a prefix of the recorded stream, and the table
    reports at most once that it is done, namely when exactly the whole stream was handed out.
   */
  lemma ReplayIsFaithful(e: Epoch, r: Recording, calls: seq<Call>)
    requires ValidRecording(r) && Describes(e, r) && Possible(e, r, calls)
    ensures Run(e, r.unmatched, calls).Ran?
    ensures Run(e, r.unmatched, calls).out <= Items(r.events, r.unmatched)
    ensures r.events != [] || r.unmatched != map[] ==>
      Run(e, r.unmatched, calls).finishes == if Run(e, r.unmatched, calls).out == Items(r.events, r.unmatched) then 1 else 0
  {
    RunKeepsInv(e, r, calls);
    var run := Run(e, r.unmatched, calls);
    assert !DecodedAll(e, Start(r.unmatched)) || (r.events == [] && r.unmatched == map[]);
    assert OutputOk(r, run.state, run.out);
    OutputIsPrefix(r, run.state, run.out);
    DoneIffWhole(e, r, run.state, run.out);
  }

  lemma DoneIffWhole(e: Epoch, r: Recording, s: Progress, out: seq<Item>)
    requires ValidRecording(r) && e.count == |r.events| && OutputOk(r, s, out)
    ensures DecodedAll(e, s) <==> out == Items(r.events, r.unmatched)
  {
    if DecodedAll(e, s) {
      DecodedAllIsComplete(e, r, s, out);
    } else {
      SomethingLeft(e, r, s);
      ItemsLonger(r.events, r.unmatched, s.replayed);
      if s.replayed == |r.events| {
        assert s.replayed in s.unmatched;
      }
    }
  }

  lemma SomethingLeft(e: Epoch, r: Recording, s: Progress)
    requires ValidRecording(r) && e.count == |r.events| && s.replayed <= |r.events| && !DecodedAll(e, s)
    requires forall k :: k in s.unmatched ==> k in r.unmatched && k >= s.replayed
    ensures s.replayed < |r.events| || s.replayed in s.unmatched
  {
    if s.unmatched != map[] {
      var k :| k in s.unmatched;
    }
  }

  lemma {:induction false} ItemsLonger(events: seq<Item>, unmatched: map<nat, int>, i: nat)
    requires i <= |events|
    ensures |Items(events, unmatched)| >= |ItemsBefore(events, unmatched, i)| + |RunAt(unmatched, i)| + (|events| - i)
    decreases |events| - i
  {
    if i < |events| {
      ItemsLonger(events, unmatched, i + 1);
    }
  }

  lemma ArrivedEarlier(calls: seq<Call>, m: nat)
    requires m <= |calls|
    ensures AsSet(Arrivals(calls[..m])) <= AsSet(Arrivals(calls))
    decreases |calls|
  {
    if m < |calls| {
      ArrivedEarlier(calls[..|calls| - 1], m);
      assert calls[..|calls| - 1][..m] == calls[..m];
    } else {
      assert calls[..m] == calls;
    }
  }

  lemma NeverBreaks(e: Epoch, r: Recording, calls: seq<Call>)
    requires ValidRecording(r) && Describes(e, r) && Possible(e, r, calls)
    ensures Run(e, r.unmatched, calls).Ran?
  {
    RunKeepsInv(e, r, calls);
  }

  lemma LastCall(e: Epoch, r: Recording, calls: seq<Call>)
    requires ValidRecording(r) && Describes(e, r) && Possible(e, r, calls) && calls != []
    ensures Possible(e, r, calls[..|calls| - 1])
    ensures var before, after := Run(e, r.unmatched, calls[..|calls| - 1]), Run(e, r.unmatched, calls);
      && before.Ran? && after.Ran? && before.out <= after.out
      && (DecodedAll(e, before.state) ==> DecodedAll(e, after.state))
      && (AllArrived(Ts(r), AsSet(Arrivals(calls))) && !DecodedAll(e, before.state) ==> |after.out| > |before.out|)
  {
    var n := |calls| - 1;
    PrefixesAreSound(e, Ts(r), calls);
    RunKeepsInv(e, r, calls[..n]);
    var before := Run(e, r.unmatched, calls[..n]);
    RunCallKeepsInv(e, r, before.state, before.out, Arrivals(calls[..n]), calls[n], before.finishes);
  }

  /** Once all messages of the epoch are there, every further call hands something out or all is done. */
  lemma {:induction false} EveryCallProgresses(e: Epoch, r: Recording, calls: seq<Call>, m: nat)
    requires ValidRecording(r) && Describes(e, r) && Possible(e, r, calls) && m <= |calls|
    requires AllArrived(Ts(r), AsSet(Arrivals(calls[..m])))
    ensures Run(e, r.unmatched, calls).Ran?
    ensures DecodedAll(e, Run(e, r.unmatched, calls).state) || |Run(e, r.unmatched, calls).out| >= |calls| - m
    decreases |calls|
  {
    hide *;
    NeverBreaks(e, r, calls);
    if m < |calls| {
      var n := |calls| - 1;
      LastCall(e, r, calls);
      assert calls[..n][..m] == calls[..m];
      EveryCallProgresses(e, r, calls[..n], m);
      AllStillArrived(Ts(r), calls, m);
    }
  }

  lemma AllStillArrived(t: seq<Msg>, calls: seq<Call>, m: nat)
    requires m <= |calls| && AllArrived(t, AsSet(Arrivals(calls[..m])))
    ensures AllArrived(t, AsSet(Arrivals(calls)))
  {
    ArrivedEarlier(calls, m);
  }

  /** Completion: when the messages are there, as many calls as the stream has items hand out all of it. */
  lemma ReplayCompletes(e: Epoch, r: Recording, calls: seq<Call>, m: nat)
    requires ValidRecording(r) && Describes(e, r) && Possible(e, r, calls) && m <= |calls|
    requires AllArrived(Ts(r), AsSet(Arrivals(calls[..m])))
    requires |calls| >= m + |Items(r.events, r.unmatched)|
    ensures Run(e, r.unmatched, calls).Ran? && Run(e, r.unmatched, calls).out == Items(r.events, r.unmatched)
  {
    EveryCallProgresses(e, r, calls, m);
    RunKeepsInv(e, r, calls);
    var run := Run(e, r.unmatched, calls);
    OutputIsPrefix(r, run.state, run.out);
    DoneIffWhole(e, r, run.state, run.out);
  }

  // ----- conservation -----

  ghost predicate IsSolidNow(s: Progress, m: Msg) {
    exists p :: p in s.solid && p.msg == m
  }

  ghost function Times(b: bool): nat {
    if b then 1 else 0
  }

  /** Where a message of the epoch is: waiting, ordered, solid, or replayed. */
  ghost function Places(r: Recording, s: Progress, m: Msg): nat
    requires ValidRecording(r) && s.replayed <= |r.events|
  {
    Times(m in s.waiting) + Times(m in s.ordered) + Times(IsSolidNow(s, m)) + Times(m in Ks(r)[..s.replayed])
  }

  lemma RunInv(e: Epoch, r: Recording, calls: seq<Call>)
    requires ValidRecording(r) && Describes(e, r) && Possible(e, r, calls)
    ensures Run(e, r.unmatched, calls).Ran?
    ensures Inv(e, r, Run(e, r.unmatched, calls).state, Run(e, r.unmatched, calls).out, AsSet(Arrivals(calls)))
  {
    RunKeepsInv(e, r, calls);
  }

  lemma PlacesOf(e: Epoch, r: Recording, s: Progress, out: seq<Item>, arrived: set<Msg>, m: Msg)
    requires ValidRecording(r) && Describes(e, r) && Inv(e, r, s, out, arrived) && m in Ks(r)
    ensures s.replayed <= |r.events| && Places(r, s, m) == Times(m in arrived)
  {
    FrameOf(e, r);
    LinkedOf(e, r);
    hide ListsOk, ArrivalsOk, ValidRecording, Describes, Frame, NoRepeats;
    OnePlace(e, Ks(r), Ts(r), s, arrived, m);
  }

  /** Every message of the epoch is in exactly one place from its arrival on, and nowhere before. */
  lemma ArrivedMeansOnePlace(e: Epoch, r: Recording, calls: seq<Call>, m: Msg)
    requires ValidRecording(r) && Describes(e, r) && Possible(e, r, calls) && m in Ks(r)
    ensures Run(e, r.unmatched, calls).Ran? && Run(e, r.unmatched, calls).state.replayed <= |r.events|
    ensures Places(r, Run(e, r.unmatched, calls).state, m) == if m in Arrivals(calls) then 1 else 0
  {
    RunInv(e, r, calls);
    hide ValidRecording, Describes, Inv, Possible, Run;
    var run := Run(e, r.unmatched, calls);
    PlacesOf(e, r, run.state, run.out, AsSet(Arrivals(calls)), m);
  }

  lemma OnePlace(e: Epoch, keys: seq<Msg>, t: seq<Msg>, s: Progress, arrived: set<Msg>, m: Msg)
    requires Frame(e, t) && NoRepeats(keys) && |keys| == |t| && s.replayed <= |t|
    requires forall k :: 0 <= k < |t| ==> t[k] == keys[e.positions[k]]
    requires ListsOk(e, t, s) && ArrivalsOk(e, t, s, arrived) && m in t
    ensures Times(m in s.waiting) + Times(m in s.ordered) + Times(IsSolidNow(s, m)) + Times(m in keys[..s.replayed]) == Times(m in arrived)
  {
    var d := Settled(s);
    var k :| 0 <= k < |t| && t[k] == m;
    WaitingIsNew(e, t, s, arrived, m);
    SettledPlace(e, keys, t, s, k);
    assert m in KnownSet(t, s) <==> m in t[..d] || m in s.ordered;
    if k < d {
      assert t[..d][k] == m;
      OrderedIsLater(t, d, s.ordered, k);
    } else {
      NotSettled(t, s, k);
    }
  }

  lemma WaitingIsNew(e: Epoch, t: seq<Msg>, s: Progress, arrived: set<Msg>, m: Msg)
    requires Frame(e, t) && ListsOk(e, t, s) && ArrivalsOk(e, t, s, arrived) && m in t
    ensures m in s.waiting ==> m !in KnownSet(t, s)
  {
    if m in s.waiting {
      var w :| 0 <= w < |s.waiting| && s.waiting[w] == m;
      assert ComesInOrder(t, KnownSet(t, s), s.waiting, w);
    }
  }

  lemma OrderedIsLater(t: seq<Msg>, d: nat, ordered: seq<Msg>, k: nat)
    requires StrictlySorted(t) && d <= |t| && AllIn(ordered, t, d) && k < d
    ensures t[k] !in ordered
  {
    forall j | d <= j < |t| ensures t[j] != t[k] {
      assert Less(t[k], t[j]);
    }
  }

  /** One of the d smallest is solid if its observed position is still to come, else replayed. */
  lemma SettledPlace(e: Epoch, keys: seq<Msg>, t: seq<Msg>, s: Progress, k: nat)
    requires Frame(e, t) && NoRepeats(keys) && |keys| == |t| && s.replayed <= |t| && k < |t|
    requires forall k :: 0 <= k < |t| ==> t[k] == keys[e.positions[k]]
    requires ListsOk(e, t, s)
    ensures IsSolidNow(s, t[k]) <==> k < Settled(s) && e.positions[k] >= s.replayed
    ensures t[k] in keys[..s.replayed] <==> e.positions[k] < s.replayed
    ensures e.positions[k] < s.replayed ==> k < Settled(s)
  {
    var d := Settled(s);
    SolidEntries(e.positions, t, d, s.replayed);
    if k < d && e.positions[k] >= s.replayed {
      assert Placed(t[k], k) in s.solid;
    }
    if IsSolidNow(s, t[k]) {
      var p :| p in s.solid && p.msg == t[k];
      SameIndex(t, p.order, k);
    }
    if e.positions[k] < s.replayed {
      assert keys[..s.replayed][e.positions[k]] == t[k];
    }
    if t[k] in keys[..s.replayed] {
      var i :| 0 <= i < s.replayed && keys[i] == t[k];
      assert i == e.positions[k];
    }
  }

  lemma SameIndex(t: seq<Msg>, i: nat, j: nat)
    requires StrictlySorted(t) && i < |t| && j < |t| && t[i] == t[j]
    ensures i == j
  {
    SortedNoRepeats(t);
  }

  // ----- what an epoch leaves to the next one -----

  lemma {:induction false} PostponedConcat(e: Epoch, a: seq<Msg>, b: seq<Msg>)
    ensures Postponed(e, a + b) == Postponed(e, a) + Postponed(e, b)
    decreases |b|
  {
    if b == [] {
      assert a + b == a;
    } else {
      PostponedConcat(e, a, b[..|b| - 1]);
      assert (a + b)[..|a + b| - 1] == a + b[..|b| - 1];
    }
  }

  lemma {:induction false} PostponedTwice(e: Epoch, a: seq<Msg>)
    ensures Postponed(e, Postponed(e, a)) == Postponed(e, a)
  {
    if a != [] {
      var front, last := a[..|a| - 1], a[|a| - 1];
      PostponedTwice(e, front);
      PostponedConcat(e, Postponed(e, front), if WithinEpoch(e, last) then [] else [last]);
      assert [last][..0] == [];
    }
  }

  lemma {:induction false} NothingPostponed(e: Epoch, a: seq<Msg>)
    requires forall m :: m in a ==> !WithinEpoch(e, m)
    ensures Postponed(e, a) == a
  {
    if a != [] {
      assert a == a[..|a| - 1] + [a[|a| - 1]];
      NothingPostponed(e, a[..|a| - 1]);
    }
  }

  lemma StepPostpones(e: Epoch, s: Progress, bound: Msg, localClock: int)
    requires Step(e, s, bound, localClock).Decoded?
    ensures var waiting := Step(e, s, bound, localClock).next.waiting;
      waiting == s.waiting || waiting == Postponed(e, s.waiting)
  {
    hide Postponed;
  }

  /** No call touches a message of a later epoch: they stay waiting, in the order of their arrival. */
  lemma {:induction false} LaterMessagesStay(e: Epoch, unmatched: map<nat, int>, calls: seq<Call>)
    ensures Run(e, unmatched, calls).Ran? ==>
      Postponed(e, Run(e, unmatched, calls).state.waiting) == Postponed(e, Arrivals(calls))
  {
    if calls != [] && Run(e, unmatched, calls[..|calls| - 1]).Ran? {
      var front, call := calls[..|calls| - 1], calls[|calls| - 1];
      LaterMessagesStay(e, unmatched, front);
      var s := Run(e, unmatched, front).state;
      PostponedConcat(e, s.waiting, call.arrivals);
      PostponedConcat(e, Arrivals(front), call.arrivals);
      PostponedTwice(e, s.waiting + call.arrivals);
      if Run(e, unmatched, calls).Ran? {
        hide Step, Postponed;
        StepPostpones(e, s.(waiting := s.waiting + call.arrivals), call.bound, call.localClock);
      }
    }
  }

  /**
    When the epoch is done, what waits for the next one are exactly the arrived messages beyond the
    epoch line, in the order of their arrival.
   */
  lemma LeftForNextEpoch(e: Epoch, r: Recording, calls: seq<Call>)
    requires ValidRecording(r) && Describes(e, r) && Possible(e, r, calls)
    ensures Run(e, r.unmatched, calls).Ran?
    ensures DecodedAll(e, Run(e, r.unmatched, calls).state) ==>
      Run(e, r.unmatched, calls).state.waiting == Postponed(e, Arrivals(calls))
  {
    RunInv(e, r, calls);
    LaterMessagesStay(e, r.unmatched, calls);
    var run := Run(e, r.unmatched, calls);
    if DecodedAll(e, run.state) {
      hide Run, Possible;
      NoneOfTheEpochWaits(e, r, run.state, run.out, AsSet(Arrivals(calls)));
      NothingPostponed(e, run.state.waiting);
    }
  }

  lemma NoneOfTheEpochWaits(e: Epoch, r: Recording, s: Progress, out: seq<Item>, arrived: set<Msg>)
    requires ValidRecording(r) && Describes(e, r) && Inv(e, r, s, out, arrived) && DecodedAll(e, s)
    ensures forall m :: m in s.waiting ==> !WithinEpoch(e, m)
  {
    hide *;
    PartsOfInv(e, r, s, out, arrived);
    AllSettled(e, r, s, out);
    forall m | m in s.waiting ensures !WithinEpoch(e, m) {
      var w :| 0 <= w < |s.waiting| && s.waiting[w] == m;
      WaitingIsLater(e, Ts(r), s, arrived, w);
    }
  }

  lemma PartsOfInv(e: Epoch, r: Recording, s: Progress, out: seq<Item>, arrived: set<Msg>)
    requires ValidRecording(r) && Inv(e, r, s, out, arrived)
    ensures |e.positions| == |Ts(r)| && ListsOk(e, Ts(r), s) && OutputOk(r, s, out) && ArrivalsOk(e, Ts(r), s, arrived)
    ensures Settled(s) <= |Ts(r)|
  {
  }

  lemma WaitingIsLater(e: Epoch, t: seq<Msg>, s: Progress, arrived: set<Msg>, w: nat)
    requires Settled(s) == |t| && ArrivalsOk(e, t, s, arrived) && w < |s.waiting|
    ensures !WithinEpoch(e, s.waiting[w])
  {
    assert t[..Settled(s)] == t;
    assert WithinEpoch(e, s.waiting[w]) ==> ComesInOrder(t, KnownSet(t, s), s.waiting, w);
  }

  lemma AllSettled(e: Epoch, r: Recording, s: Progress, out: seq<Item>)
    requires ValidRecording(r) && Describes(e, r) && OutputOk(r, s, out) && DecodedAll(e, s)
    requires |e.positions| == |Ts(r)| && ListsOk(e, Ts(r), s)
    ensures Settled(s) == |Ts(r)|
  {
  }
}
