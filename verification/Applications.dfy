/**
  Applications that send and receive: what they did and got, and how a decoder's output relates to it.
 */
module Applications {
  import opened EditScripts
  import opened Messages
  import opened EpochTables
  import opened Clocks
  import opened ReplayOrdering
  import opened ReplayFidelity
  import opened EpochRuns
  import One = ReplayRuns
  import P = LookAheadProtocol

  /** What an application did: it sent a message, or a receive call for a matching set gave it items. */
  datatype Deed = Sent(dest: nat, id: int) | Got(id: int, items: seq<Item>)

  datatype Request = Send(dest: nat, id: int) | Receive(id: int) | Stop

  /** A deterministic application: what it asks for next depends on what it did and got. */
  type App = seq<Deed> -> Request

  /** The messages in what a receive call returned; an unmatched run has none. */
  function MsgsOf(items: seq<Item>): seq<Msg> {
    if items == [] then []
    else
      var last := items[|items| - 1];
      MsgsOf(items[..|items| - 1]) + (if last.Matched? then [last.Key()] else [])
  }

  lemma {:induction false} MsgsOfMatched(items: seq<Item>)
    requires forall i :: 0 <= i < |items| ==> items[i].Matched?
    ensures MsgsOf(items) == Keys(items)
  {
    if items != [] {
      MsgsOfMatched(items[..|items| - 1]);
    }
  }

  /** What one receive call can return: one unmatched run or one whole group. */
  ghost predicate IsDelivery(items: seq<Item>) {
    || (|items| == 1 && items[0].Unmatched?)
    || (items != [] && forall i :: 0 <= i < |items| ==> items[i].Matched? && (items[i].withNext <==> i < |items| - 1))
  }

  /** All that the receive calls for one set returned. */
  function AllGot(deeds: seq<Deed>, id: int): seq<Item> {
    if deeds == [] then []
    else
      var last := deeds[|deeds| - 1];
      AllGot(deeds[..|deeds| - 1], id) + (if last.Got? && last.id == id then last.items else [])
  }

  predicate Gets(deed: Deed, id: int) {
    deed.Got? && deed.id == id
  }

  /** The protocol's view of the deeds of one rank. */
  ghost function Program(deeds: seq<Deed>): (prog: seq<P.Op>)
    ensures |prog| == |deeds|
  {
    seq(|deeds|, k requires 0 <= k < |deeds| =>
      match deeds[k] case Sent(dest, id) => P.Send(dest, id) case Got(_, items) => P.Receive(MsgsOf(items)))
  }

  ghost function Programs(deeds: seq<seq<Deed>>): (progs: seq<seq<P.Op>>)
    ensures |progs| == |deeds|
  {
    seq(|deeds|, p requires 0 <= p < |deeds| => Program(deeds[p]))
  }

  /** What the application asks for when it did this. */
  function RequestFor(deed: Deed): Request {
    match deed
    case Sent(dest, id) => Send(dest, id)
    case Got(id, _) => Receive(id)
  }

  /** The application, given what it got when recorded, did these deeds and stopped. */
  ghost predicate Did(app: App, deeds: seq<Deed>) {
    (forall k :: 0 <= k < |deeds| ==> app(deeds[..k]) == RequestFor(deeds[k])) && app(deeds) == Stop
  }

  /** The application asks for what it did next when recorded. */
  lemma NextDeed(app: App, deeds: seq<Deed>, pc: nat)
    requires Did(app, deeds) && pc <= |deeds|
    ensures app(deeds[..pc]) != Stop ==> pc < |deeds|
    ensures pc < |deeds| ==> app(deeds[..pc]) == RequestFor(deeds[pc])
  {
    assert deeds[..|deeds|] == deeds;
  }

  /** The receive calls for one set returned the recorded stream of the set, delivery by delivery. */
  ghost predicate Receives(deeds: seq<Deed>, id: int, stream: seq<Item>) {
    AllGot(deeds, id) == stream && forall k {:trigger IsDelivery(deeds[k].items)} :: 0 <= k < |deeds| && deeds[k].Got? ==> IsDelivery(deeds[k].items)
  }

  // ----- the receives of one set -----

  /** The next receive for the set from operation k on. */
  function NextGot(deeds: seq<Deed>, id: int, k: nat): (g: nat)
    requires k <= |deeds|
    ensures k <= g <= |deeds| && (g < |deeds| ==> Gets(deeds[g], id))
    ensures forall i :: k <= i < g ==> !Gets(deeds[i], id)
    decreases |deeds| - k
  {
    if k == |deeds| || Gets(deeds[k], id) then k else NextGot(deeds, id, k + 1)
  }

  /** What the receives for the set in between got. */
  function GotBetween(deeds: seq<Deed>, id: int, from: nat, to: nat): seq<seq<Item>>
    requires from <= to <= |deeds|
  {
    if from == to then []
    else GotBetween(deeds, id, from, to - 1) + (if Gets(deeds[to - 1], id) then [deeds[to - 1].items] else [])
  }

  lemma {:induction false} GotIsPart(deeds: seq<Deed>, id: int, k: nat)
    requires k < |deeds| && Gets(deeds[k], id)
    ensures AllGot(deeds[..k], id) + deeds[k].items <= AllGot(deeds, id)
  {
    var n := |deeds| - 1;
    if k == n {
      assert deeds[..n] == deeds[..k];
    } else {
      GotIsPart(deeds[..n], id, k);
      assert deeds[..n][..k] == deeds[..k];
    }
  }

  lemma OneDeed(deeds: seq<Deed>, id: int, pc: nat)
    requires pc < |deeds|
    ensures deeds[..pc + 1] == deeds[..pc] + [deeds[pc]]
    ensures AllGot(deeds[..pc + 1], id) == AllGot(deeds[..pc], id) + (if Gets(deeds[pc], id) then deeds[pc].items else [])
    ensures !Gets(deeds[pc], id) ==> NextGot(deeds, id, pc) == NextGot(deeds, id, pc + 1)
    ensures Gets(deeds[pc], id) ==> NextGot(deeds, id, pc) == pc
  {
    assert deeds[..pc + 1][..pc] == deeds[..pc];
  }

  lemma NothingBetween(deeds: seq<Deed>, id: int, k: nat)
    requires k <= |deeds|
    ensures GotBetween(deeds, id, k, k) == []
  {
  }

  lemma {:induction false} FirstBetween(deeds: seq<Deed>, id: int, from: nat, to: nat)
    requires from < to <= |deeds|
    ensures GotBetween(deeds, id, from, to) ==
      (if Gets(deeds[from], id) then [deeds[from].items] else []) + GotBetween(deeds, id, from + 1, to)
  {
    if from + 1 < to {
      FirstBetween(deeds, id, from, to - 1);
    }
  }

  lemma OneMoreBetween(deeds: seq<Deed>, id: int, from: nat, g: nat)
    requires from <= g < |deeds| && Gets(deeds[g], id)
    ensures GotBetween(deeds, id, from, g + 1) == GotBetween(deeds, id, from, g) + [deeds[g].items]
  {
  }

  /** Nothing is got for the set between a position and its next receive. */
  lemma {:induction false} UpToNextGot(deeds: seq<Deed>, id: int, from: nat, at: nat)
    requires from <= at <= |deeds|
    ensures AllGot(deeds[..NextGot(deeds, id, at)], id) == AllGot(deeds[..at], id)
    ensures GotBetween(deeds, id, from, NextGot(deeds, id, at)) == GotBetween(deeds, id, from, at)
    decreases |deeds| - at
  {
    if at < |deeds| && !Gets(deeds[at], id) {
      OneDeed(deeds, id, at);
      UpToNextGot(deeds, id, from, at + 1);
    }
  }

  lemma {:induction false} GotGrows(deeds: seq<Deed>, id: int, j: nat, k: nat)
    requires j <= k <= |deeds|
    ensures AllGot(deeds[..j], id) <= AllGot(deeds[..k], id)
    decreases k
  {
    if j < k {
      GotGrows(deeds, id, j, k - 1);
      assert deeds[..k][..k - 1] == deeds[..k - 1];
    }
  }

  // ----- deliveries can be told apart -----

  lemma DeliveriesAgree(before: seq<Item>, a: seq<Item>, b: seq<Item>, whole: seq<Item>)
    requires IsDelivery(a) && IsDelivery(b) && before + a <= whole && before + b <= whole
    ensures a == b
  {
    var n := |before|;
    assert forall i :: 0 <= i < |a| ==> (before + a)[n + i] == a[i] && a[i] == whole[n + i];
    assert forall i :: 0 <= i < |b| ==> (before + b)[n + i] == b[i] && b[i] == whole[n + i];
    if |a| <= |b| {
      NoDeliveryInside(a, b);
    } else {
      NoDeliveryInside(b, a);
    }
  }

  lemma NoDeliveryInside(a: seq<Item>, b: seq<Item>)
    requires IsDelivery(a) && IsDelivery(b) && a <= b
    ensures |a| == |b|
  {
    assert a[|a| - 1] == b[|a| - 1];
  }

  lemma ReceivesIs(deeds: seq<Deed>, id: int, stream: seq<Item>)
    requires Receives(deeds, id, stream)
    ensures AllGot(deeds, id) == stream && forall k :: 0 <= k < |deeds| && deeds[k].Got? ==> IsDelivery(deeds[k].items)
  {
    hide IsDelivery, AllGot;
  }

  /** Whatever continues the output by one delivery is what the application got next when recorded. */
  lemma NextIsGroup(deeds: seq<Deed>, id: int, stream: seq<Item>, at: nat, group: seq<Item>) returns (g: nat)
    requires Receives(deeds, id, stream) && at <= |deeds|
    requires IsDelivery(group) && AllGot(deeds[..at], id) + group <= stream
    ensures g == NextGot(deeds, id, at) < |deeds| && deeds[g] == Got(id, group) && AllGot(deeds[..g], id) == AllGot(deeds[..at], id)
  {
    hide *;
    g := NextGot(deeds, id, at);
    UpToNextGot(deeds, id, at, at);
    ReceivesIs(deeds, id, stream);
    DeliveryIsSomething(group);
    assert deeds[..|deeds|] == deeds;
    GetsIs(deeds, id, g);
    GotIsPart(deeds, id, g);
    DeliveriesAgree(AllGot(deeds[..g], id), group, deeds[g].items, stream);
  }

  lemma GetsIs(deeds: seq<Deed>, id: int, g: nat)
    requires g < |deeds| && Gets(deeds[g], id)
    ensures deeds[g].Got? && deeds[g].id == id && deeds[g] == Got(id, deeds[g].items)
  {
  }

  lemma DeliveryIsSomething(group: seq<Item>)
    requires IsDelivery(group)
    ensures group != []
  {
  }

  // ----- a call of the decoder -----

  lemma GroupIsDelivery(r: Recording, i: nat, o: nat)
    requires ValidRecording(r) && IsGroup(r, i, o)
    ensures IsDelivery(GroupOf(r, i, o)) && i + o <= |Ks(r)| && MsgsOf(GroupOf(r, i, o)) == Ks(r)[i..i + o]
  {
    var group := GroupOf(r, i, o);
    assert forall j :: 0 <= j < o ==> group[j] == r.events[i + j];
    MsgsOfMatched(group);
    assert MsgsOf(group) == Ks(r)[i..i + o];
  }

  lemma GroupContinues(r: Recording, s: Progress, out: seq<Item>, o: nat)
    requires ValidRecording(r) && OutputOk(r, s, out) && s.replayed !in s.unmatched && IsGroup(r, s.replayed, o)
    ensures out + GroupOf(r, s.replayed, o) <= Items(r.events, r.unmatched)
  {
    var next := s.(replayed := s.replayed + o);
    OutputGrows(r, s, out, o, next);
    One.OutputIsPrefix(r, next, out + GroupOf(r, s.replayed, o));
  }

  /** What a rank may publish: its clock, or more, but not beyond its clock after the next delivery. */
  ghost predicate InterimWithin(p: Plan, out: seq<Item>, localClock: int, interim: int, group: seq<Item>) {
    IsDelivery(group) && out + group <= StreamOf(p) && localClock <= interim <= SyncAll(localClock, MsgsOf(group))
  }

  lemma MatchedDelivers(p: Plan, s: Progress, out: seq<Item>, arrived: set<Msg>, bound: Msg, localClock: int) returns (group: seq<Item>)
    requires ValidPlan(p) && Inv(p.epoch, p.recording, s, out, arrived) && SoundBound(TotalOf(p), arrived, bound)
    requires bound.clock != COLLECTIVE_CLOCK && !DecodedAll(p.epoch, s) && s.replayed !in s.unmatched
    ensures var o := Step(p.epoch, s, bound, localClock);
      o.Decoded? && (o.emitted == [] || IsDelivery(o.emitted)) && InterimWithin(p, out, localClock, o.next.interim, group)
  {
    hide *;
    var e, r := p.epoch, p.recording;
    PlanParts(p, s, out, arrived);
    var next, emitted, o, s1, slots, later := MatchedCallOf(e, r, s, out, arrived, bound, localClock);
    group := GroupOf(r, s.replayed, o);
    GroupIsDelivery(r, s.replayed, o);
    GroupContinues(r, s, out, o);
    InterimClockIsLowerBound(e, r, s, out, arrived, bound, localClock, o);
    InterimOfAdvances(s1, slots, bound, localClock);
    WithinIs(p, out, localClock, next.interim, group);
  }

  lemma PlanParts(p: Plan, s: Progress, out: seq<Item>, arrived: set<Msg>)
    requires ValidPlan(p) && Inv(p.epoch, p.recording, s, out, arrived)
    ensures ValidRecording(p.recording) && Describes(p.epoch, p.recording) && OutputOk(p.recording, s, out)
    ensures StreamOf(p) == Items(p.recording.events, p.recording.unmatched)
  {
    hide OutputOk, ListsOk, ArrivalsOk, Describes, ValidRecording;
  }

  lemma InterimOfAdvances(s: Progress, slots: seq<Option<Msg>>, bound: Msg, localClock: int)
    requires bound.clock != COLLECTIVE_CLOCK
    ensures InterimOf(s, slots, bound, localClock) >= localClock
  {
    P.InterimAdvances(localClock, slots, s.ordered, bound.clock);
  }

  lemma WithinIs(p: Plan, out: seq<Item>, localClock: int, interim: int, group: seq<Item>)
    requires IsDelivery(group) && out + group <= StreamOf(p) && localClock <= interim <= SyncAll(localClock, MsgsOf(group))
    ensures InterimWithin(p, out, localClock, interim, group)
  {
  }

  /** A call hands out nothing or one delivery, and its interim clock is old or within the next delivery. */
  lemma CallDelivers(p: Plan, s: Progress, out: seq<Item>, arrived: set<Msg>, bound: Msg, localClock: int) returns (group: seq<Item>)
    requires ValidPlan(p) && Inv(p.epoch, p.recording, s, out, arrived) && SoundBound(TotalOf(p), arrived, bound)
    requires bound.clock != COLLECTIVE_CLOCK
    ensures var o := Step(p.epoch, s, bound, localClock);
      && o.Decoded? && (o.emitted == [] || IsDelivery(o.emitted))
      && (o.next.interim == s.interim || InterimWithin(p, out, localClock, o.next.interim, group))
  {
    hide Inv, SoundBound, ValidPlan, Ts, TakeIn, ReplayMatched, InterimWithin;
    if DecodedAll(p.epoch, s) || s.replayed in s.unmatched {
      group := [];
    } else {
      hide Step, DecodedAll;
      group := MatchedDelivers(p, s, out, arrived, bound, localClock);
    }
  }

  lemma {:induction false} SyncAllMonotone(a: int, b: int, msgs: seq<Msg>)
    requires a <= b
    ensures SyncAll(a, msgs) <= SyncAll(b, msgs)
    decreases |msgs|
  {
    if msgs != [] {
      SyncAllMonotone(SyncClock(a, msgs[0].clock), SyncClock(b, msgs[0].clock), msgs[1..]);
    }
  }

  lemma WithinMeans(p: Plan, out: seq<Item>, localClock: int, interim: int, group: seq<Item>)
    requires InterimWithin(p, out, localClock, interim, group)
    ensures IsDelivery(group) && out + group <= StreamOf(p) && localClock <= interim <= SyncAll(localClock, MsgsOf(group))
  {
  }

  lemma GroupAt(deeds: seq<Deed>, g: nat, group: seq<Item>)
    requires g < |deeds| && deeds[g].Got? && deeds[g].items == group
    ensures |Program(deeds)| == |deeds| && Program(deeds)[g] == P.Receive(MsgsOf(group)) && Program(deeds)[g].Receive?
    ensures P.ClockAt(Program(deeds), g + 1) == SyncAll(P.ClockAt(Program(deeds), g), MsgsOf(group))
  {
    hide MsgsOf;
  }

  lemma PlainAbove(clock: int, interim: int)
    requires INITIAL_CLOCK <= clock <= interim
    ensures P.Plain(interim)
  {
  }

  lemma PrefixInside(base: seq<Item>, out: seq<Item>, group: seq<Item>, part: seq<Item>, whole: seq<Item>)
    requires out + group <= part && base + part <= whole
    ensures base + out + group <= whole
  {
    assert base + out + group == base + (out + group);
  }

  /** The interim clock of a call still bounds all sends behind the decoder's next receive for the set. */
  lemma InterimStays(deeds: seq<Deed>, id: int, stream: seq<Item>, pc: nat, at: nat, p: Plan, base: seq<Item>, out: seq<Item>, interim: int, group: seq<Item>)
    requires Receives(deeds, id, stream) && pc <= at <= |deeds| && base + out == AllGot(deeds[..at], id)
    requires base + StreamOf(p) <= stream && InterimWithin(p, out, P.ClockAt(Program(deeds), pc), interim, group)
    ensures P.Plain(interim) && P.SendsAtLeast(Program(deeds), NextGot(deeds, id, at), interim)
  {
    hide *;
    var prog := Program(deeds);
    WithinMeans(p, out, P.ClockAt(prog, pc), interim, group);
    PrefixInside(base, out, group, StreamOf(p), stream);
    var g := NextIsGroup(deeds, id, stream, at, group);
    GroupAt(deeds, g, group);
    P.ClockGrows(prog, pc, g);
    P.ClockGrows(prog, pc, pc);
    SyncAllMonotone(P.ClockAt(prog, pc), P.ClockAt(prog, g), MsgsOf(group));
    P.ClockBoundsSends(prog, g);
    P.SendsAtLeastWeaken(prog, g, P.ClockAt(prog, g + 1), g, interim);
    PlainAbove(P.ClockAt(prog, pc), interim);
  }

  // ----- where a set stands -----

  /**
    The application is at operation pc and the decoder of the set at operation `at`: it handed out what
    was got up to there, what is ready is what the application gets next, and the interim clock bounds
    all sends behind the decoder's next receive.
   */
  ghost predicate PlaceAt(deeds: seq<Deed>, id: int, pc: nat, at: nat, out: seq<Item>, ready: seq<seq<Item>>, interim: int) {
    && pc <= at <= |deeds| && out == AllGot(deeds[..at], id) && ready == GotBetween(deeds, id, pc, at)
    && P.Plain(interim) && P.SendsAtLeast(Program(deeds), NextGot(deeds, id, at), interim)
  }

  ghost predicate Place(deeds: seq<Deed>, id: int, pc: nat, out: seq<Item>, ready: seq<seq<Item>>, interim: int) {
    exists at :: PlaceAt(deeds, id, pc, at, out, ready, interim)
  }

  lemma PlaceParts(deeds: seq<Deed>, id: int, pc: nat, out: seq<Item>, ready: seq<seq<Item>>, interim: int) returns (at: nat)
    requires Place(deeds, id, pc, out, ready, interim)
    ensures pc <= at <= |deeds| && out == AllGot(deeds[..at], id) && ready == GotBetween(deeds, id, pc, at)
    ensures P.Plain(interim) && P.SendsAtLeast(Program(deeds), NextGot(deeds, id, at), interim)
  {
    hide AllGot, GotBetween, NextGot, P.SendsAtLeast, Program;
    at :| PlaceAt(deeds, id, pc, at, out, ready, interim);
  }

  lemma PlaceFrom(deeds: seq<Deed>, id: int, pc: nat, at: nat, out: seq<Item>, ready: seq<seq<Item>>, interim: int)
    requires pc <= at <= |deeds| && out == AllGot(deeds[..at], id) && ready == GotBetween(deeds, id, pc, at)
    requires P.Plain(interim) && P.SendsAtLeast(Program(deeds), NextGot(deeds, id, at), interim)
    ensures Place(deeds, id, pc, out, ready, interim)
  {
    hide AllGot, GotBetween, NextGot, P.SendsAtLeast, Program;
    assert PlaceAt(deeds, id, pc, at, out, ready, interim);
  }

  lemma PlaceStarts(deeds: seq<Deed>, id: int)
    ensures Place(deeds, id, 0, [], [], 0)
  {
    P.NothingBelowZero(Program(deeds), NextGot(deeds, id, 0));
    assert deeds[..0] == [];
    PlaceFrom(deeds, id, 0, 0, [], [], 0);
  }

  /** An operation of the application that is no receive for the set. */
  lemma PlacePasses(deeds: seq<Deed>, id: int, pc: nat, out: seq<Item>, ready: seq<seq<Item>>, interim: int)
    requires Place(deeds, id, pc, out, ready, interim) && pc < |deeds| && !Gets(deeds[pc], id)
    ensures Place(deeds, id, pc + 1, out, ready, interim)
  {
    hide *;
    var at := PlaceParts(deeds, id, pc, out, ready, interim);
    OneDeed(deeds, id, pc);
    if at == pc {
      NothingBetween(deeds, id, pc);
      NothingBetween(deeds, id, pc + 1);
      assert AllGot(deeds[..pc], id) + [] == AllGot(deeds[..pc], id);
      PlaceFrom(deeds, id, pc + 1, pc + 1, out, ready, interim);
    } else {
      FirstBetween(deeds, id, pc, at);
      assert [] + GotBetween(deeds, id, pc + 1, at) == GotBetween(deeds, id, pc + 1, at);
      PlaceFrom(deeds, id, pc + 1, at, out, ready, interim);
    }
  }

  /** What is ready is what the application got when recorded. */
  lemma PlaceDelivers(deeds: seq<Deed>, id: int, pc: nat, out: seq<Item>, ready: seq<seq<Item>>, interim: int)
    requires Place(deeds, id, pc, out, ready, interim) && pc < |deeds| && Gets(deeds[pc], id) && ready != []
    ensures ready[0] == deeds[pc].items && Place(deeds, id, pc + 1, out, ready[1..], interim)
  {
    hide *;
    var at := PlaceParts(deeds, id, pc, out, ready, interim);
    if at == pc {
      NothingBetween(deeds, id, pc);
    } else {
      FirstBetween(deeds, id, pc, at);
      OneDeed(deeds, id, pc);
      assert ready[1..] == GotBetween(deeds, id, pc + 1, at);
      PlaceFrom(deeds, id, pc + 1, at, out, ready[1..], interim);
    }
  }

  /** In front of a receive for which nothing is ready, the decoder stands at this receive, too. */
  lemma PlaceBlocked(deeds: seq<Deed>, id: int, pc: nat, out: seq<Item>, interim: int)
    requires Place(deeds, id, pc, out, [], interim) && pc < |deeds| && Gets(deeds[pc], id)
    ensures P.Plain(interim) && P.SendsAtLeast(Program(deeds), pc, interim)
  {
    hide *;
    var at := PlaceParts(deeds, id, pc, out, [], interim);
    if at > pc {
      FirstBetween(deeds, id, pc, at);
    }
    OneDeed(deeds, id, pc);
  }

  /** A call that decodes nothing, or what the application is to get next. */
  lemma PlaceDecodes(deeds: seq<Deed>, id: int, stream: seq<Item>, pc: nat, out: seq<Item>, ready: seq<seq<Item>>, interim: int,
                     p: Plan, base: seq<Item>, mine: seq<Item>, emitted: seq<Item>, interim': int, group: seq<Item>)
    requires pc <= |deeds| && Place(deeds, id, pc, out, ready, interim) && Receives(deeds, id, stream) && out == base + mine && base + StreamOf(p) <= stream
    requires interim' == interim || InterimWithin(p, mine, P.ClockAt(Program(deeds), pc), interim', group)
    requires emitted == [] || (IsDelivery(emitted) && out + emitted <= stream)
    ensures Place(deeds, id, pc, out + emitted, if emitted == [] then ready else ready + [emitted], interim')
  {
    hide *;
    var at := PlaceParts(deeds, id, pc, out, ready, interim);
    if interim' != interim {
      InterimStays(deeds, id, stream, pc, at, p, base, mine, interim', group);
    }
    if emitted == [] {
      assert out + emitted == out;
      PlaceFrom(deeds, id, pc, at, out, ready, interim');
    } else {
      var g := NextIsGroup(deeds, id, stream, at, emitted);
      UpToNextGot(deeds, id, pc, at);
      GetsGot(deeds, id, g);
      OneDeed(deeds, id, g);
      OneMoreBetween(deeds, id, pc, g);
      P.SendsAtLeastWeaken(Program(deeds), g, interim', NextGot(deeds, id, g + 1), interim');
      PlaceFrom(deeds, id, pc, g + 1, out + emitted, ready + [emitted], interim');
    }
  }

  lemma GetsGot(deeds: seq<Deed>, id: int, g: nat)
    requires g < |deeds| && deeds[g].Got? && deeds[g].id == id
    ensures Gets(deeds[g], id)
  {
  }
}
