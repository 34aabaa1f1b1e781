/**
  One matching set over all its epochs: what arrived for later epochs stays waiting while the tables
  are replayed one after the other.
 */
module EpochRuns {
  import opened Messages
  import opened EpochTables
  import opened ReplayOrdering
  import opened ReplayFidelity
  import opened EpochCuts
  import One = ReplayRuns

  /** The table of one epoch, as loaded, and what was recorded in it. */
  datatype Plan = Plan(epoch: Epoch, recording: Recording)

  ghost predicate ValidPlan(p: Plan) {
    ValidRecording(p.recording) && Describes(p.epoch, p.recording)
  }

  /** The messages of an epoch in observed order. */
  ghost function KeysOf(p: Plan): (keys: seq<Msg>)
    ensures ValidRecording(p.recording) ==> keys == Ks(p.recording)
  {
    var events := p.recording.events;
    if forall i :: 0 <= i < |events| ==> events[i].Matched? then Keys(events) else []
  }

  /** The messages of an epoch in (clock, source) order. */
  ghost function TotalOf(p: Plan): (t: seq<Msg>)
    ensures ValidRecording(p.recording) ==> t == Ts(p.recording)
  {
    Sort(KeysOf(p))
  }

  /** All messages recorded from epoch k on. */
  ghost function KeysFrom(plans: seq<Plan>, k: nat): seq<Msg>
    requires k <= |plans|
    decreases |plans| - k
  {
    if k == |plans| then [] else KeysOf(plans[k]) + KeysFrom(plans, k + 1)
  }

  /** Every message of the set was recorded once, in one epoch. */
  ghost predicate ValidPlans(plans: seq<Plan>) {
    plans != [] && (forall i {:trigger ValidPlan(plans[i])} :: 0 <= i < |plans| ==> ValidPlan(plans[i])) && NoRepeats(KeysFrom(plans, 0))
  }

  ghost function AllKeys(plans: seq<Plan>): seq<Msg> {
    KeysFrom(plans, 0)
  }

  function StreamOf(p: Plan): seq<Item> {
    Items(p.recording.events, p.recording.unmatched)
  }

  /** The recorded stream of the first k epochs. */
  function StreamTo(plans: seq<Plan>, k: nat): seq<Item>
    requires k <= |plans|
  {
    if k == 0 then [] else StreamTo(plans, k - 1) + StreamOf(plans[k - 1])
  }

  function Stream(plans: seq<Plan>): seq<Item> {
    StreamTo(plans, |plans|)
  }

  /** The cut behind epoch k is in clock order, for every source. */
  ghost predicate CutAt(plans: seq<Plan>, k: nat)
    requires k < |plans|
  {
    CutInClockOrder(KeysOf(plans[k]), KeysFrom(plans, k + 1))
  }

  ghost predicate AllCutsInOrder(plans: seq<Plan>) {
    forall k :: 0 <= k < |plans| ==> CutAt(plans, k)
  }

  // ----- what arrives -----

  /** The next table: its lists are empty, only the caller's list and the published clock stay. */
  function Opened(p: Plan, s: Progress): Progress {
    Start(p.recording.unmatched).(waiting := s.waiting, interim := s.interim)
  }

  /** A message of the set arrives, once, after all that its source sent to the set before. */
  ghost predicate Arrives(all: seq<Msg>, arrived: set<Msg>, m: Msg) {
    && m in all && m !in arrived
    && forall x :: x in all && x.source == m.source && x.clock < m.clock ==> x in arrived
  }

  ghost predicate ArriveOnce(all: seq<Msg>, arrivals: seq<Msg>) {
    forall i :: 0 <= i < |arrivals| ==> Arrives(all, AsSet(arrivals[..i]), arrivals[i])
  }

  // ----- the invariant -----

  /** Messages of later epochs wait in the order their sources sent them. */
  ghost predicate Held(later: seq<Msg>, waiting: seq<Msg>, arrived: set<Msg>) {
    && (forall w {:trigger ComesInOrder(later, {}, waiting, w)} :: 0 <= w < |waiting| && waiting[w] in later ==> ComesInOrder(later, {}, waiting, w))
    && (forall m :: m in later ==> (m in arrived <==> m in waiting))
  }

  /** Only messages of this epoch and later ones wait, and the earlier ones arrived. */
  ghost predicate Gone(all: seq<Msg>, left: seq<Msg>, waiting: seq<Msg>, arrived: set<Msg>) {
    && (forall m :: m in waiting ==> m in left)
    && (forall m :: m in all ==> m in left || m in arrived)
  }

  ghost predicate EpochInv(plans: seq<Plan>, k: nat, s: Progress, out: seq<Item>, arrived: set<Msg>)
    requires ValidPlans(plans)
  {
    && k < |plans| && ValidPlan(plans[k]) && StreamTo(plans, k) <= out
    && Inv(plans[k].epoch, plans[k].recording, s, out[|StreamTo(plans, k)|..], arrived)
    && Held(KeysFrom(plans, k + 1), s.waiting, arrived)
    && Gone(AllKeys(plans), KeysFrom(plans, k), s.waiting, arrived)
  }

  /** The state in which epoch k begins. */
  ghost predicate Fresh(plans: seq<Plan>, k: nat, s: Progress, out: seq<Item>, arrived: set<Msg>)
    requires ValidPlans(plans)
  {
    && k < |plans| && out == StreamTo(plans, k) && s == Opened(plans[k], s)
    && Held(KeysFrom(plans, k), s.waiting, arrived)
    && Gone(AllKeys(plans), KeysFrom(plans, k), s.waiting, arrived)
  }

  lemma {:induction false} KeysFromSuffix(plans: seq<Plan>, j: nat, k: nat)
    requires j <= k <= |plans|
    ensures forall m :: m in KeysFrom(plans, k) ==> m in KeysFrom(plans, j)
    ensures NoRepeats(KeysFrom(plans, j)) ==> NoRepeats(KeysFrom(plans, k))
    decreases k - j
  {
    hide *;
    if j < k {
      KeysFromSuffix(plans, j + 1, k);
      OwnAndLater(plans, j);
      RestHasNoRepeats(KeysOf(plans[j]), KeysFrom(plans, j + 1));
    }
  }

  lemma OwnAndLater(plans: seq<Plan>, k: nat)
    requires k < |plans|
    ensures KeysFrom(plans, k) == KeysOf(plans[k]) + KeysFrom(plans, k + 1)
  {
  }

  lemma RestHasNoRepeats(a: seq<Msg>, b: seq<Msg>)
    ensures NoRepeats(a + b) ==> NoRepeats(b)
    ensures NoRepeats(a + b) ==> forall m :: m in a ==> m !in b
  {
    if NoRepeats(a + b) {
      forall i, j | 0 <= i < j < |b| ensures b[i] != b[j] {
        assert (a + b)[|a| + i] == b[i] && (a + b)[|a| + j] == b[j];
      }
      forall i, j | 0 <= i < |a| && 0 <= j < |b| ensures a[i] != b[j] {
        assert (a + b)[i] == a[i] && (a + b)[|a| + j] == b[j];
      }
    }
  }

  /** A message belongs to one epoch only, and its clock is positive. */
  lemma EpochKeys(plans: seq<Plan>, k: nat)
    requires ValidPlans(plans) && k < |plans|
    ensures ValidPlan(plans[k])
    ensures forall m :: m in KeysOf(plans[k]) ==> m !in KeysFrom(plans, k + 1)
    ensures forall m :: m in KeysFrom(plans, k) <==> m in KeysOf(plans[k]) || m in KeysFrom(plans, k + 1)
    ensures forall m :: m in TotalOf(plans[k]) <==> m in KeysOf(plans[k])
    ensures forall m :: m in KeysFrom(plans, k) ==> m in AllKeys(plans)
    ensures StrictlySorted(TotalOf(plans[k]))
  {
    KeysFromSuffix(plans, 0, k);
    RestHasNoRepeats(KeysOf(plans[k]), KeysFrom(plans, k + 1));
  }

  lemma {:induction false} KeysPositive(plans: seq<Plan>, k: nat)
    requires forall i :: 0 <= i < |plans| ==> ValidPlan(plans[i])
    requires k <= |plans|
    ensures forall m :: m in KeysFrom(plans, k) ==> m.clock > 0
    decreases |plans| - k
  {
    if k < |plans| {
      PlanKeysPositive(plans[k]);
      hide ValidPlan, KeysOf;
      KeysPositive(plans, k + 1);
    }
  }

  lemma PlanKeysPositive(p: Plan)
    requires ValidPlan(p)
    ensures forall m :: m in KeysOf(p) ==> m.clock > 0
  {
    forall m | m in KeysOf(p) ensures m.clock > 0 {
      var i :| 0 <= i < |KeysOf(p)| && KeysOf(p)[i] == m;
      assert p.recording.events[i].clock > 0;
    }
  }

  /** What a cut in clock order means for the decoder: no later message counts as part of the epoch. */
  lemma LaterIsNotWithin(plans: seq<Plan>, k: nat)
    requires ValidPlans(plans) && k < |plans| && CutAt(plans, k)
    ensures forall m :: m in KeysFrom(plans, k + 1) ==> !WithinEpoch(plans[k].epoch, m)
  {
    KeysPositive(plans, k + 1);
    LineSeparatesIffCutInOrder(plans[k].epoch, KeysOf(plans[k]), KeysFrom(plans, k + 1));
  }

  // ----- arrivals -----

  lemma HeldArrives(later: seq<Msg>, waiting: seq<Msg>, arrived: set<Msg>, m: Msg)
    requires Held(later, waiting, arrived) && (m in later ==> Arrives(later, arrived, m))
    ensures Held(later, waiting + [m], arrived + {m})
  {
    OneMoreInOrder(later, waiting, m);
  }

  lemma ArrivesOnlyInItsEpoch(plans: seq<Plan>, k: nat, arrived: set<Msg>, m: Msg)
    requires ValidPlans(plans) && k < |plans| && CutAt(plans, k)
    requires Arrives(AllKeys(plans), arrived, m) && m in KeysFrom(plans, k)
    ensures ArrivesOk(plans[k].epoch, TotalOf(plans[k]), arrived, m)
    ensures m in KeysFrom(plans, k + 1) ==> Arrives(KeysFrom(plans, k + 1), arrived, m)
  {
    EpochKeys(plans, k);
    LaterIsNotWithin(plans, k);
  }

  lemma EpochArrive(plans: seq<Plan>, k: nat, s: Progress, out: seq<Item>, arrived: set<Msg>, m: Msg)
    requires ValidPlans(plans) && EpochInv(plans, k, s, out, arrived) && CutAt(plans, k)
    requires Arrives(AllKeys(plans), arrived, m)
    ensures EpochInv(plans, k, s.(waiting := s.waiting + [m]), out, arrived + {m})
  {
    var p, next := plans[k], s.(waiting := s.waiting + [m]);
    ArrivesOnlyInItsEpoch(plans, k, arrived, m);
    HeldArrives(KeysFrom(plans, k + 1), s.waiting, arrived, m);
    InvArrives(p, s, out[|StreamTo(plans, k)|..], arrived, m);
  }

  lemma InvArrives(p: Plan, s: Progress, out: seq<Item>, arrived: set<Msg>, m: Msg)
    requires ValidPlan(p) && Inv(p.epoch, p.recording, s, out, arrived)
    requires ArrivesOk(p.epoch, TotalOf(p), arrived, m)
    ensures Inv(p.epoch, p.recording, s.(waiting := s.waiting + [m]), out, arrived + {m})
  {
    FrameOf(p.epoch, p.recording);
    ArriveKeeps(p.epoch, TotalOf(p), s, arrived, m);
    OutputKept(p.recording, s, s.(waiting := s.waiting + [m]), out);
  }

  // ----- a call -----

  /** Messages of later epochs stay, in order, when the others are taken in. */
  lemma {:induction false} PostponedKeeps(e: Epoch, later: seq<Msg>, waiting: seq<Msg>)
    requires forall m :: m in later ==> !WithinEpoch(e, m)
    requires forall w :: 0 <= w < |waiting| && waiting[w] in later ==> ComesInOrder(later, {}, waiting, w)
    ensures var rest := Postponed(e, waiting);
      forall w :: 0 <= w < |rest| && rest[w] in later ==> ComesInOrder(later, {}, rest, w)
  {
    if waiting != [] {
      var n := |waiting| - 1;
      var front, last := waiting[..n], waiting[n];
      forall w | 0 <= w < n && front[w] in later ensures ComesInOrder(later, {}, front, w) {
        assert ComesInOrder(later, {}, waiting, w);
        assert front[..w] == waiting[..w];
      }
      PostponedKeeps(e, later, front);
      if !WithinEpoch(e, last) {
        if last in later {
          assert ComesInOrder(later, {}, waiting, n);
          EarlierStay(e, later, front, last);
        }
        OneMoreInOrder(later, Postponed(e, front), last);
      } else {
        assert Postponed(e, waiting) == Postponed(e, front);
      }
    }
  }

  lemma EarlierStay(e: Epoch, later: seq<Msg>, waiting: seq<Msg>, m: Msg)
    requires forall m :: m in later ==> !WithinEpoch(e, m)
    requires m !in waiting && forall x :: x in later && x.source == m.source && x.clock < m.clock ==> x in waiting
    ensures m !in Postponed(e, waiting) && forall x :: x in later && x.source == m.source && x.clock < m.clock ==> x in Postponed(e, waiting)
  {
    AdmittedAre(e, waiting);
  }

  lemma OneMoreInOrder(later: seq<Msg>, waiting: seq<Msg>, m: Msg)
    requires forall w :: 0 <= w < |waiting| && waiting[w] in later ==> ComesInOrder(later, {}, waiting, w)
    requires m in later ==> m !in waiting && forall x :: x in later && x.source == m.source && x.clock < m.clock ==> x in waiting
    ensures var more := waiting + [m];
      forall w :: 0 <= w < |more| && more[w] in later ==> ComesInOrder(later, {}, more, w)
  {
    var more := waiting + [m];
    forall w | 0 <= w < |more| && more[w] in later ensures ComesInOrder(later, {}, more, w) {
      assert more[..w] == waiting[..w];
      if w < |waiting| {
        assert ComesInOrder(later, {}, waiting, w);
      } else {
        assert waiting[..w] == waiting;
      }
    }
  }

  lemma HeldAfterCall(e: Epoch, later: seq<Msg>, all: seq<Msg>, left: seq<Msg>, waiting: seq<Msg>, rest: seq<Msg>, arrived: set<Msg>)
    requires Held(later, waiting, arrived) && Gone(all, left, waiting, arrived)
    requires rest == waiting || rest == Postponed(e, waiting)
    requires forall m :: m in later ==> !WithinEpoch(e, m)
    ensures Held(later, rest, arrived) && Gone(all, left, rest, arrived)
  {
    PostponedKeeps(e, later, waiting);
    AdmittedAre(e, waiting);
  }

  /** One call inside an epoch: no failure, and it hands out the next part of the stream. */
  lemma EpochCall(plans: seq<Plan>, k: nat, s: Progress, out: seq<Item>, arrived: set<Msg>, bound: Msg, localClock: int)
    returns (next: Progress, emitted: seq<Item>)
    requires ValidPlans(plans) && EpochInv(plans, k, s, out, arrived) && CutAt(plans, k)
    requires SoundBound(TotalOf(plans[k]), arrived, bound)
    ensures Step(plans[k].epoch, s, bound, localClock).Decoded?
    ensures next == Step(plans[k].epoch, s, bound, localClock).next && emitted == Step(plans[k].epoch, s, bound, localClock).emitted
    ensures EpochInv(plans, k, next, out + emitted, arrived)
    ensures AllArrived(TotalOf(plans[k]), arrived) && !DecodedAll(plans[k].epoch, s) ==> emitted != []
  {
    hide *;
    InvParts(plans, k, s, out, arrived);
    LaterIsNotWithin(plans, k);
    var p, base := plans[k], StreamTo(plans, k);
    next, emitted := CallInEpoch(p, s, out[|base|..], arrived, bound, localClock);
    assert (out + emitted)[|base|..] == out[|base|..] + emitted;
    InvFromParts(plans, k, next, out + emitted, arrived) by {
      HeldAfterCall(p.epoch, KeysFrom(plans, k + 1), AllKeys(plans), KeysFrom(plans, k), s.waiting, next.waiting, arrived);
    }
  }

  lemma InvParts(plans: seq<Plan>, k: nat, s: Progress, out: seq<Item>, arrived: set<Msg>)
    requires ValidPlans(plans) && EpochInv(plans, k, s, out, arrived)
    ensures k < |plans| && ValidPlan(plans[k]) && ValidRecording(plans[k].recording) && StreamTo(plans, k) <= out
    ensures Inv(plans[k].epoch, plans[k].recording, s, out[|StreamTo(plans, k)|..], arrived)
    ensures Held(KeysFrom(plans, k + 1), s.waiting, arrived)
    ensures Gone(AllKeys(plans), KeysFrom(plans, k), s.waiting, arrived)
  {
  }

  lemma InvFromParts(plans: seq<Plan>, k: nat, s: Progress, out: seq<Item>, arrived: set<Msg>)
    requires ValidPlans(plans) && k < |plans| && ValidPlan(plans[k]) && ValidRecording(plans[k].recording) && StreamTo(plans, k) <= out
    requires Inv(plans[k].epoch, plans[k].recording, s, out[|StreamTo(plans, k)|..], arrived)
    requires Held(KeysFrom(plans, k + 1), s.waiting, arrived)
    requires Gone(AllKeys(plans), KeysFrom(plans, k), s.waiting, arrived)
    ensures EpochInv(plans, k, s, out, arrived)
  {
  }

  lemma CallInEpoch(p: Plan, s: Progress, out: seq<Item>, arrived: set<Msg>, bound: Msg, localClock: int)
    returns (next: Progress, emitted: seq<Item>)
    requires ValidPlan(p) && Inv(p.epoch, p.recording, s, out, arrived) && SoundBound(TotalOf(p), arrived, bound)
    ensures Step(p.epoch, s, bound, localClock).Decoded?
    ensures next == Step(p.epoch, s, bound, localClock).next && emitted == Step(p.epoch, s, bound, localClock).emitted
    ensures Inv(p.epoch, p.recording, next, out + emitted, arrived)
    ensures AllArrived(TotalOf(p), arrived) && !DecodedAll(p.epoch, s) ==> emitted != []
    ensures next.waiting == s.waiting || next.waiting == Postponed(p.epoch, s.waiting)
  {
    hide Inv, SoundBound, Describes, ValidRecording, Step, Postponed, AllArrived;
    next, emitted := ReplayCall(p.epoch, p.recording, s, out, arrived, bound, localClock);
    One.StepPostpones(p.epoch, s, bound, localClock);
  }

  // ----- from one epoch to the next -----

  /** A finished epoch has handed out its whole stream and leaves nothing of its own waiting. */
  lemma EpochEnds(plans: seq<Plan>, k: nat, s: Progress, out: seq<Item>, arrived: set<Msg>)
    requires ValidPlans(plans) && EpochInv(plans, k, s, out, arrived)
    requires DecodedAll(plans[k].epoch, s)
    ensures out == StreamTo(plans, k + 1)
    ensures k + 1 < |plans| ==> Fresh(plans, k + 1, Opened(plans[k + 1], s), out, arrived)
  {
    hide *;
    InvParts(plans, k, s, out, arrived);
    EpochKeys(plans, k);
    StreamGrows(plans, k);
    var p, base := plans[k], StreamTo(plans, k);
    EpochIsOver(p, s, out[|base|..], arrived);
    assert out == base + out[|base|..];
    if k + 1 < |plans| {
      NextIsFresh(plans, k, s, out, arrived);
    }
  }

  lemma StreamGrows(plans: seq<Plan>, k: nat)
    requires k < |plans|
    ensures StreamTo(plans, k + 1) == StreamTo(plans, k) + StreamOf(plans[k])
  {
  }

  lemma NextIsFresh(plans: seq<Plan>, k: nat, s: Progress, out: seq<Item>, arrived: set<Msg>)
    requires ValidPlans(plans) && k + 1 < |plans| && out == StreamTo(plans, k + 1)
    requires Held(KeysFrom(plans, k + 1), s.waiting, arrived)
    requires Gone(AllKeys(plans), KeysFrom(plans, k), s.waiting, arrived)
    requires forall m :: m in KeysFrom(plans, k) <==> m in KeysOf(plans[k]) || m in KeysFrom(plans, k + 1)
    requires forall m :: m in KeysOf(plans[k]) ==> m in arrived && m !in s.waiting
    ensures Fresh(plans, k + 1, Opened(plans[k + 1], s), out, arrived)
  {
    hide ValidPlans, Held, KeysFrom, KeysOf;
  }

  lemma {:induction false} EpochIsOver(p: Plan, s: Progress, out: seq<Item>, arrived: set<Msg>)
    requires ValidPlan(p) && Inv(p.epoch, p.recording, s, out, arrived) && DecodedAll(p.epoch, s)
    ensures out == StreamOf(p)
    ensures forall m :: m in KeysOf(p) ==> m in arrived && m !in s.waiting
  {
    FrameOf(p.epoch, p.recording);
    assert out == StreamOf(p) by {
      One.DoneIffWhole(p.epoch, p.recording, s, out);
    }
    One.AllSettled(p.epoch, p.recording, s, out);
    One.NoneOfTheEpochWaits(p.epoch, p.recording, s, out, arrived);
    assert forall m :: m in KeysOf(p) ==> m in TotalOf(p);
    hide ValidRecording, Describes, Ts, Ks, KeysOf, OutputOk, DecodedAll, ListsOk, StreamOf;
    AllKnown(p.epoch, TotalOf(p), s, arrived);
  }

  lemma AllKnown(e: Epoch, t: seq<Msg>, s: Progress, arrived: set<Msg>)
    requires Settled(s) == |t| && ArrivalsOk(e, t, s, arrived)
    ensures forall m :: m in t ==> m in arrived
  {
    assert t[..Settled(s)] == t;
    assert forall m :: m in t ==> m in KnownSet(t, s);
  }

  /** An epoch that begins satisfies the invariant, if its cut is in clock order. */
  lemma FreshKeeps(plans: seq<Plan>, k: nat, s: Progress, out: seq<Item>, arrived: set<Msg>)
    requires ValidPlans(plans) && Fresh(plans, k, s, out, arrived) && CutAt(plans, k)
    ensures EpochInv(plans, k, s, out, arrived)
  {
    var p, t := plans[k], TotalOf(plans[k]);
    EpochKeys(plans, k);
    LaterIsNotWithin(plans, k);
    assert out[|StreamTo(plans, k)|..] == [];
    WaitingInOrder(p.epoch, t, KeysFrom(plans, k), s.waiting, arrived);
    BeginEpoch(p.epoch, p.recording, s, arrived);
    HeldPart(KeysFrom(plans, k), KeysFrom(plans, k + 1), s.waiting, arrived);
  }

  lemma HeldPart(left: seq<Msg>, later: seq<Msg>, waiting: seq<Msg>, arrived: set<Msg>)
    requires Held(left, waiting, arrived) && forall m :: m in later ==> m in left
    ensures Held(later, waiting, arrived)
  {
    forall w | 0 <= w < |waiting| && waiting[w] in later ensures ComesInOrder(later, {}, waiting, w) {
      assert ComesInOrder(left, {}, waiting, w);
    }
  }

  lemma WaitingInOrder(e: Epoch, t: seq<Msg>, left: seq<Msg>, waiting: seq<Msg>, arrived: set<Msg>)
    requires Held(left, waiting, arrived) && (forall m :: m in t ==> m in left)
    requires forall m :: m in waiting && WithinEpoch(e, m) ==> m in t
    ensures InOrder(e, t, {}, waiting)
    ensures forall m :: m in t ==> (m in arrived <==> m in waiting)
  {
    forall w | 0 <= w < |waiting| && WithinEpoch(e, waiting[w]) ensures ComesInOrder(t, {}, waiting, w) {
      assert waiting[w] in waiting;
      assert ComesInOrder(left, {}, waiting, w);
    }
  }

  lemma BeginEpoch(e: Epoch, r: Recording, s: Progress, arrived: set<Msg>)
    requires ValidRecording(r) && Describes(e, r) && s == Start(r.unmatched).(waiting := s.waiting, interim := s.interim)
    requires InOrder(e, Ts(r), {}, s.waiting) && forall m :: m in Ts(r) ==> (m in arrived <==> m in s.waiting)
    ensures Inv(e, r, s, [], arrived)
  {
    var t := Ts(r);
    FrameOf(e, r);
    StartLists(e, t, r.unmatched);
    StartOutput(r);
    OutputKept(r, Start(r.unmatched), s, []);
    assert KnownSet(t, Start(r.unmatched)) == {} == KnownSet(t, s);
  }

  // ----- several arrivals -----

  lemma {:induction false} ArriveAll(plans: seq<Plan>, k: nat, s: Progress, out: seq<Item>, before: seq<Msg>, msgs: seq<Msg>)
    requires ValidPlans(plans) && EpochInv(plans, k, s, out, AsSet(before)) && CutAt(plans, k)
    requires ArriveOnce(AllKeys(plans), before + msgs)
    ensures EpochInv(plans, k, s.(waiting := s.waiting + msgs), out, AsSet(before + msgs))
    decreases |msgs|
  {
    hide *;
    if msgs == [] {
      assert before + msgs == before && s.waiting + msgs == s.waiting;
    } else {
      var n := |msgs| - 1;
      var front, last := msgs[..n], msgs[n];
      AsSetGrows(before, msgs);
      assert before + msgs == before + front + [last];
      assert s.waiting + msgs == s.waiting + front + [last];
      OnceFront(AllKeys(plans), before + front, [last]);
      ArriveAll(plans, k, s, out, before, front);
      EpochArrive(plans, k, s.(waiting := s.waiting + front), out, AsSet(before + front), last);
    }
  }

  lemma AsSetGrows(before: seq<Msg>, msgs: seq<Msg>)
    requires msgs != []
    ensures AsSet(before + msgs) == AsSet(before + msgs[..|msgs| - 1]) + {msgs[|msgs| - 1]}
  {
  }

  lemma OnceFront(all: seq<Msg>, a: seq<Msg>, b: seq<Msg>)
    requires ArriveOnce(all, a + b)
    ensures ArriveOnce(all, a)
    ensures b != [] ==> Arrives(all, AsSet(a), b[0])
  {
    forall i | 0 <= i < |a| ensures Arrives(all, AsSet(a[..i]), a[i]) {
      assert (a + b)[..i] == a[..i];
      assert Arrives(all, AsSet((a + b)[..i]), (a + b)[i]);
    }
    if b != [] {
      assert (a + b)[..|a|] == a;
      assert Arrives(all, AsSet((a + b)[..|a|]), (a + b)[|a|]);
    }
  }

  lemma AllOfEpochArrived(plans: seq<Plan>, k: nat, arrived: set<Msg>)
    requires ValidPlans(plans) && k < |plans| && ValidRecording(plans[k].recording) && AllArrived(AllKeys(plans), arrived)
    ensures AllArrived(TotalOf(plans[k]), arrived)
  {
    EpochKeys(plans, k);
  }

  lemma Begins(plans: seq<Plan>)
    requires ValidPlans(plans)
    ensures Fresh(plans, 0, Start(plans[0].recording.unmatched), [], {})
  {
  }

  lemma PlanIsValid(plans: seq<Plan>, k: nat)
    requires ValidPlans(plans) && k < |plans|
    ensures ValidPlan(plans[k]) && ValidRecording(plans[k].recording)
  {
  }

  lemma {:induction false} StreamExtends(plans: seq<Plan>, j: nat, k: nat)
    requires j <= k <= |plans|
    ensures StreamTo(plans, j) <= StreamTo(plans, k)
    decreases k
  {
    hide StreamOf;
    if j < k {
      StreamExtends(plans, j, k - 1);
    }
  }

  lemma OutIsPrefix(plans: seq<Plan>, k: nat, s: Progress, out: seq<Item>, arrived: set<Msg>)
    requires ValidPlans(plans) && EpochInv(plans, k, s, out, arrived)
    ensures out <= StreamTo(plans, k + 1) <= Stream(plans)
  {
    hide *;
    InvParts(plans, k, s, out, arrived);
    var p, base := plans[k], StreamTo(plans, k);
    PlanPrefix(p, s, out[|base|..], arrived);
    StreamGrows(plans, k);
    assert out == base + out[|base|..];
    StreamExtends(plans, k + 1, |plans|);
    assert Stream(plans) == StreamTo(plans, |plans|) by {
      StreamIs(plans);
    }
  }

  lemma StreamIs(plans: seq<Plan>)
    ensures Stream(plans) == StreamTo(plans, |plans|)
  {
  }

  lemma PlanPrefix(p: Plan, s: Progress, out: seq<Item>, arrived: set<Msg>)
    requires ValidPlan(p) && Inv(p.epoch, p.recording, s, out, arrived)
    ensures out <= StreamOf(p)
  {
    hide ListsOk, ArrivalsOk, ValidRecording, OutputOk;
    One.OutputIsPrefix(p.recording, s, out);
  }

  // ----- the smallest tables -----

  /** The table of a set that recorded nothing in a chunk: there is none. */
  function NoPlan(): Plan {
    Plan(Epoch(0, [], [], [], map[]), Recording([], map[]))
  }

  function OnePlan(m: Msg): Plan {
    Plan(Epoch(1, [0], [], [0], map[m.source := m.clock]), Recording([Matched(m.source, m.clock, false, 0)], map[]))
  }

  lemma NoPlanIsValid()
    ensures ValidPlan(NoPlan()) && KeysOf(NoPlan()) == [] && StreamOf(NoPlan()) == []
  {
    assert Keys([]) == [] && Sort([]) == [];
  }

  lemma OneIsRecorded(m: Msg)
    requires m.clock > 0
    ensures ValidRecording(OnePlan(m).recording) && Ks(OnePlan(m).recording) == [m] && Ts(OnePlan(m).recording) == [m]
  {
    assert Keys(OnePlan(m).recording.events) == [m] && Sort([m]) == [m];
  }

  lemma OnePlanIsValid(m: Msg)
    requires m.clock > 0
    ensures ValidPlan(OnePlan(m)) && KeysOf(OnePlan(m)) == [m] && StreamOf(OnePlan(m)) == [Matched(m.source, m.clock, false, 0)]
  {
    OneIsDescribed(m);
    hide ValidPlan;
    var events := [Matched(m.source, m.clock, false, 0)];
    assert Keys(events) == [m] && ItemsBefore(events, map[], 1) == events;
  }

  lemma OneIsDescribed(m: Msg)
    requires m.clock > 0
    ensures ValidPlan(OnePlan(m))
  {
    OneIsRecorded(m);
    hide ValidRecording, Ks, Ts;
    assert m in [m];
    assert IsLine([m], OnePlan(m).epoch.line);
  }

  lemma TwoPlansAreValid(plans: seq<Plan>)
    requires |plans| == 2 && ValidPlan(plans[0]) && ValidPlan(plans[1]) && NoRepeats(KeysOf(plans[0]) + KeysOf(plans[1]))
    ensures ValidPlans(plans) && KeysFrom(plans, 1) == KeysOf(plans[1]) && KeysFrom(plans, 0) == KeysOf(plans[0]) + KeysOf(plans[1])
    ensures CutAt(plans, 0) <==> CutInClockOrder(KeysOf(plans[0]), KeysOf(plans[1]))
    ensures CutAt(plans, 1)
  {
    hide ValidPlan, KeysOf, NoRepeats;
    assert KeysFrom(plans, 2) == [];
    assert KeysFrom(plans, 1) == KeysOf(plans[1]) + [] == KeysOf(plans[1]);
    assert KeysFrom(plans, 0) == KeysOf(plans[0]) + KeysOf(plans[1]);
  }
}
