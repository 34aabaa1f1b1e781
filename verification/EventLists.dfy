/**
  The basic mode: events are merged into runs while they are pushed, written as eight ints each, and
  popped one at a time when they are replayed.
 */
module EventLists {
  import opened EditScripts

  const TYPE_RECV := 1
  const TYPE_TEST := 2
  const INPUT_IGNORE := 0
  const INPUT_NUM := 8

  /** mpi_inputs of an event. */
  datatype Event = Event(count: int, kind: int, flag: int, rank: int, withNext: int, index: int, msgId: int, groupId: int)

  /** What create_test_event and create_recv_event make for one MPI call. */
  predicate Single(e: Event) {
    && e.count == 1
    && (e.kind == TYPE_TEST || e == RecvEvent(e.rank))
  }

  function RecvEvent(rank: int): Event {
    Event(1, TYPE_RECV, INPUT_IGNORE, rank, INPUT_IGNORE, INPUT_IGNORE, INPUT_IGNORE, INPUT_IGNORE)
  }

  /** A run: one receive, or any positive number of equal test events. */
  predicate IsRun(e: Event) {
    if e.kind == TYPE_TEST then e.count >= 1 else e == RecvEvent(e.rank)
  }

  /** rempi_event::operator== and the test of the group id beside it: all but the count agree. */
  predicate Mergeable(a: Event, b: Event) {
    && a.kind == TYPE_TEST && b.kind == TYPE_TEST
    && a.flag == b.flag && a.rank == b.rank && a.withNext == b.withNext && a.index == b.index && a.msgId == b.msgId
    && a.groupId == b.groupId
  }

  // ----- what a list of runs stands for -----

  function Copies(e: Event): (es: seq<Event>)
    decreases e.count
  {
    if e.count <= 0 then [] else [e.(count := 1)] + Copies(e.(count := e.count - 1))
  }

  function Unrolled(runs: seq<Event>): seq<Event> {
    if runs == [] then [] else Unrolled(runs[..|runs| - 1]) + Copies(runs[|runs| - 1])
  }

  ghost predicate AreRuns(runs: seq<Event>) {
    forall i :: 0 <= i < |runs| ==> IsRun(runs[i])
  }

  lemma {:induction false} CopiesSnoc(e: Event)
    requires e.count >= 0
    ensures Copies(e.(count := e.count + 1)) == Copies(e) + [e.(count := 1)]
    decreases e.count
  {
    if e.count > 0 {
      CopiesSnoc(e.(count := e.count - 1));
    }
  }

  lemma {:induction false} UnrolledConcat(a: seq<Event>, b: seq<Event>)
    ensures Unrolled(a + b) == Unrolled(a) + Unrolled(b)
    decreases |b|
  {
    if b == [] {
      assert a + b == a;
    } else {
      UnrolledConcat(a, b[..|b| - 1]);
      assert (a + b)[..|a + b| - 1] == a + b[..|b| - 1];
      assert Unrolled(a) + (Unrolled(b[..|b| - 1]) + Copies(b[|b| - 1])) == Unrolled(a) + Unrolled(b[..|b| - 1]) + Copies(b[|b| - 1]);
    }
  }

  lemma UnrolledOne(e: Event)
    ensures Unrolled([e]) == Copies(e)
  {
    assert [e][..0] == [];
  }

  // ----- the shortest list of runs -----

  /** Two tests that agree in all inputs but the count. */
  predicate EqualTests(a: Event, b: Event) {
    a.kind == TYPE_TEST && b.kind == TYPE_TEST && a.(count := 1) == b.(count := 1)
  }

  /** No two neighbouring runs are tests that agree in all inputs but the count. */
  ghost predicate Compact(runs: seq<Event>) {
    forall i :: 0 <= i < |runs| - 1 ==> !EqualTests(runs[i], runs[i + 1])
  }

  lemma {:induction false} CopiesAre(e: Event)
    requires e.count >= 0
    ensures |Copies(e)| == e.count && forall i :: 0 <= i < e.count ==> Copies(e)[i] == e.(count := 1)
    decreases e.count
  {
    if e.count > 0 {
      CopiesAre(e.(count := e.count - 1));
    }
  }

  /** The last run, spelled out behind the events of the runs in front of it. */
  lemma LastRun(runs: seq<Event>)
    requires AreRuns(runs) && runs != []
    ensures var front, last, all := runs[..|runs| - 1], runs[|runs| - 1], Unrolled(runs);
      && AreRuns(front) && last.count >= 1 && all == Unrolled(front) + Copies(last) && |all| == |Unrolled(front)| + last.count
      && (forall i :: |Unrolled(front)| <= i < |all| ==> all[i] == last.(count := 1))
  {
    var last := runs[|runs| - 1];
    assert IsRun(last);
    CopiesAre(last);
  }

  /** In front of the last run of a compact list there is no further copy of its event, unless it is a receive. */
  lemma NoMoreCopies(runs: seq<Event>)
    requires AreRuns(runs) && Compact(runs) && runs != [] && runs[|runs| - 1].kind == TYPE_TEST
    ensures var front, last := Unrolled(runs[..|runs| - 1]), runs[|runs| - 1];
      front != [] ==> front[|front| - 1] != last.(count := 1)
  {
    var front, last := runs[..|runs| - 1], runs[|runs| - 1];
    if front != [] {
      LastRun(front);
      var before := front[|front| - 1];
      assert before == runs[|runs| - 2] && !EqualTests(runs[|runs| - 2], runs[|runs| - 1]);
      assert Unrolled(front)[|Unrolled(front)| - 1] == before.(count := 1);
    }
  }

  /** The last run of a compact list is at least as long as that of any list for the same events. */
  lemma LastIsLongest(a: seq<Event>, b: seq<Event>)
    requires AreRuns(a) && Compact(a) && AreRuns(b) && a != [] && b != [] && Unrolled(a) == Unrolled(b)
    ensures a[|a| - 1].(count := 1) == b[|b| - 1].(count := 1) && b[|b| - 1].count <= a[|a| - 1].count
  {
    LastRun(a);
    LastRun(b);
    var all, x, y := Unrolled(a), a[|a| - 1], b[|b| - 1];
    assert all[|all| - 1] == x.(count := 1) && all[|all| - 1] == y.(count := 1);
    if y.count > x.count {
      if x.kind == TYPE_TEST {
        var n := |all| - x.count - 1;
        assert all[n] == y.(count := 1) && all[n] == Unrolled(a[..|a| - 1])[n];
        NoMoreCopies(a);
      } else {
        assert IsRun(y);
      }
    }
  }

  lemma ShorterRun(runs: seq<Event>, last: Event)
    requires AreRuns(runs) && Compact(runs) && runs != [] && runs[|runs| - 1].kind == TYPE_TEST
    requires 1 <= last.count < runs[|runs| - 1].count && last == runs[|runs| - 1].(count := last.count)
    ensures var cut := runs[..|runs| - 1] + [last]; AreRuns(cut) && Compact(cut) && Unrolled(cut) <= Unrolled(runs)
    ensures |Unrolled(runs[..|runs| - 1] + [last])| == |Unrolled(runs)| - (runs[|runs| - 1].count - last.count)
  {
    var n := |runs| - 1;
    var cut := runs[..n] + [last];
    forall i | 0 <= i < |cut| - 1 ensures !EqualTests(cut[i], cut[i + 1]) {
      assert !EqualTests(runs[i], runs[i + 1]);
    }
    assert cut[..n] == runs[..n];
    LastRun(runs);
    LastRun(cut);
  }

  /** Recording merges all it can: no list of runs for the same events is shorter than a compact one. */
  lemma {:induction false} CompactIsShortest(a: seq<Event>, b: seq<Event>)
    requires AreRuns(a) && Compact(a) && AreRuns(b) && Unrolled(a) == Unrolled(b)
    ensures |a| <= |b|
    decreases |b|
  {
    hide *;
    UnrolledIsSomething(a);
    UnrolledIsSomething(b);
    if a != [] {
      var n, m := |a| - 1, |b| - 1;
      LastIsLongest(a, b);
      LastRun(a);
      LastRun(b);
      var x, y := a[n], b[m];
      if x.count == y.count {
        SameFronts(Unrolled(a[..n]), Unrolled(b[..m]), Unrolled(a));
        FrontIsCompact(a);
        CompactIsShortest(a[..n], b[..m]);
      } else {
        ManyMeansTest(a);
        var rest := x.(count := x.count - y.count);
        ShorterRun(a, rest);
        SameFronts(Unrolled(a[..n] + [rest]), Unrolled(b[..m]), Unrolled(a));
        CompactIsShortest(a[..n] + [rest], b[..m]);
      }
    }
  }

  lemma FrontIsCompact(runs: seq<Event>)
    requires Compact(runs) && runs != []
    ensures Compact(runs[..|runs| - 1])
  {
    var front := runs[..|runs| - 1];
    assert forall i :: 0 <= i < |front| ==> front[i] == runs[i];
  }

  lemma ManyMeansTest(runs: seq<Event>)
    requires AreRuns(runs) && runs != [] && runs[|runs| - 1].count > 1
    ensures runs[|runs| - 1].kind == TYPE_TEST
  {
    assert IsRun(runs[|runs| - 1]);
  }

  lemma SameFronts(x: seq<Event>, y: seq<Event>, all: seq<Event>)
    requires x <= all && y <= all && |x| == |y|
    ensures x == y
  {
  }

  /** There is one compact list of runs for given events. */
  lemma {:induction false} CompactIsUnique(a: seq<Event>, b: seq<Event>)
    requires AreRuns(a) && Compact(a) && AreRuns(b) && Compact(b) && Unrolled(a) == Unrolled(b)
    ensures a == b
    decreases |a|
  {
    hide *;
    UnrolledIsSomething(a);
    UnrolledIsSomething(b);
    if a != [] {
      var n, m := |a| - 1, |b| - 1;
      LastIsLongest(a, b);
      LastIsLongest(b, a);
      LastRun(a);
      LastRun(b);
      SameFronts(Unrolled(a[..n]), Unrolled(b[..m]), Unrolled(a));
      FrontIsCompact(a);
      FrontIsCompact(b);
      CompactIsUnique(a[..n], b[..m]);
      assert a == a[..n] + [a[n]] && b == b[..m] + [b[m]];
    }
  }

  /** A list of runs stands for no events only if it is empty. */
  lemma UnrolledIsSomething(runs: seq<Event>)
    requires AreRuns(runs)
    ensures Unrolled(runs) == [] <==> runs == []
  {
    if runs != [] {
      assert IsRun(runs[|runs| - 1]) && Copies(runs[|runs| - 1]) != [];
    }
  }

  // ----- recording -----

  class RecordingList {
    var events: seq<Event>                    // runs that the encoder may take
    var previousRecordingEvent: Option<Event>
    var isPushClosed: bool

    ghost function Runs(): seq<Event>
      reads this
    {
      events + if previousRecordingEvent.Some? then [previousRecordingEvent.value] else []
    }

    /** The runs are compact, and only an empty list has no previous event. */
    ghost predicate Valid()
      reads this
    {
      AreRuns(Runs()) && Compact(Runs()) && (previousRecordingEvent.None? ==> events == [])
    }

    constructor ()
      ensures Valid() && events == [] && previousRecordingEvent.None? && !isPushClosed
    {
      events, previousRecordingEvent, isPushClosed := [], None, false;
    }

    method Push(e: Event)
      requires !isPushClosed && Single(e) && Valid()
      modifies this
      ensures Valid() && !isPushClosed
      ensures Unrolled(Runs()) == old(Unrolled(Runs())) + [e]
    {
      hide Unrolled, Copies, Compact;
      ghost var runs := Runs();
      if previousRecordingEvent.None? {
        assert runs == events;
        PushedEvent(events, e);
        OneIsCompact(e);
        previousRecordingEvent := Some(e);
        return;
      }
      var previous := previousRecordingEvent.value;
      assert runs == events + [previous] && runs[|events|] == previous;
      assert forall i :: 0 <= i < |events| ==> events[i] == runs[i];
      if Mergeable(previous, e) {
        MergedEvent(events, previous, e);
        MergedIsCompact(events, previous);
        previousRecordingEvent := Some(previous.(count := previous.count + 1));
      } else {
        PushedEvent(runs, e);
        PushedIsCompact(events, previous, e);
        events := events + [previous];
        previousRecordingEvent := Some(e);
      }
    }

    /** push_all: the last run becomes visible, and the list is closed. */
    method PushAll()
      requires !isPushClosed
      modifies this
      ensures events == old(Runs()) && isPushClosed
    {
      if previousRecordingEvent.Some? {
        events := events + [previousRecordingEvent.value];
      }
      isPushClosed := true;
    }
  }

  lemma PushedEvent(runs: seq<Event>, e: Event)
    requires Single(e) && AreRuns(runs)
    ensures AreRuns(runs + [e]) && Unrolled(runs + [e]) == Unrolled(runs) + [e]
  {
    assert (runs + [e])[..|runs|] == runs;
    assert Copies(e.(count := 0)) == [];
    assert Copies(e) == [e] + Copies(e.(count := 0));
  }

  lemma MergedEvent(events: seq<Event>, previous: Event, e: Event)
    requires Single(e) && Mergeable(previous, e) && IsRun(previous) && AreRuns(events)
    ensures var more := previous.(count := previous.count + 1);
      AreRuns(events + [more]) && Unrolled(events + [more]) == Unrolled(events + [previous]) + [e]
  {
    var more := previous.(count := previous.count + 1);
    assert (events + [more])[..|events|] == events && (events + [previous])[..|events|] == events;
    CopiesSnoc(previous);
    assert previous.(count := 1) == e;
    assert Unrolled(events) + (Copies(previous) + [e]) == Unrolled(events) + Copies(previous) + [e];
  }

  lemma OneIsCompact(e: Event)
    ensures Compact([] + [e])
  {
  }

  lemma PushedIsCompact(events: seq<Event>, previous: Event, e: Event)
    requires Compact(events + [previous]) && !Mergeable(previous, e)
    ensures Compact(events + [previous] + [e])
  {
    var runs, more := events + [previous], events + [previous] + [e];
    forall i | 0 <= i < |more| - 1 ensures !EqualTests(more[i], more[i + 1]) {
      if i < |events| {
        assert !EqualTests(runs[i], runs[i + 1]);
      }
    }
  }

  lemma MergedIsCompact(events: seq<Event>, previous: Event)
    requires Compact(events + [previous])
    ensures Compact(events + [previous.(count := previous.count + 1)])
  {
    var runs, more := events + [previous], events + [previous.(count := previous.count + 1)];
    forall i | 0 <= i < |more| - 1 ensures !EqualTests(more[i], more[i + 1]) {
      assert !EqualTests(runs[i], runs[i + 1]);
    }
  }

  // ----- the record: eight ints an event -----

  function Ints(e: Event): (v: seq<int>)
    ensures |v| == INPUT_NUM
  {
    [e.count, e.kind, e.flag, e.rank, e.withNext, e.index, e.msgId, e.groupId]
  }

  function AllInts(es: seq<Event>): (v: seq<int>)
    ensures |v| == INPUT_NUM * |es|
  {
    if es == [] then [] else Ints(es[0]) + AllInts(es[1..])
  }

  /** Where the inputs of an event lie: count, type, flag, rank, with-next, index, message and group. */
  lemma {:induction false} IntsLie(es: seq<Event>, i: nat)
    requires i < |es|
    ensures var e := es[i];
      AllInts(es)[8 * i..8 * i + 8] == [e.count, e.kind, e.flag, e.rank, e.withNext, e.index, e.msgId, e.groupId]
    decreases i
  {
    var all, rest := AllInts(es), AllInts(es[1..]);
    assert all == Ints(es[0]) + rest;
    if i > 0 {
      IntsLie(es[1..], i - 1);
      var o := 8 * (i - 1);
      assert all[8..] == rest && all[8 * i..8 * i + 8] == rest[o..o + 8];
    }
  }

  /** Reading one event; None is the error on an unknown type. */
  function EventOf(v: seq<int>): Option<Event>
    requires |v| >= INPUT_NUM
  {
    if v[1] == TYPE_RECV then Some(RecvEvent(v[3]))
    else if v[1] == TYPE_TEST then Some(Event(v[0], TYPE_TEST, v[2], v[3], v[4], v[5], v[6], v[7]))
    else None
  }

  /** encode: the inputs of all events, one behind the other. */
  method Encode(es: seq<Event>) returns (v: seq<int>)
    ensures v == AllInts(es)
  {
    v := [];
    for i := 0 to |es|
      invariant v + AllInts(es[i..]) == AllInts(es)
    {
      assert es[i..][1..] == es[i + 1..];
      assert v + (Ints(es[i]) + AllInts(es[i + 1..])) == v + Ints(es[i]) + AllInts(es[i + 1..]);
      v := v + Ints(es[i]);
    }
  }

  /** The events of one payload; None for an unknown type and for a torn last event. */
  function ReadEvents(v: seq<int>): Option<seq<Event>>
    decreases |v|
  {
    if v == [] then Some([])
    else if |v| < INPUT_NUM || EventOf(v).None? then None
    else
      match ReadEvents(v[INPUT_NUM..])
      case None => None
      case Some(rest) => Some([EventOf(v).value] + rest)
  }

  /** The i-th event of a payload has a type that the reader knows. */
  predicate KindKnown(v: seq<int>, i: nat) {
    8 * i + 8 <= |v| && (v[8 * i + 1] == TYPE_RECV || v[8 * i + 1] == TYPE_TEST)
  }

  /** The i-th event of a payload, a receive with nothing but its rank. */
  predicate LiesAt(v: seq<int>, i: nat, e: Event) {
    && 8 * i + 8 <= |v|
    && (v[8 * i + 1] == TYPE_RECV ==> e == Event(1, TYPE_RECV, 0, v[8 * i + 3], 0, 0, 0, 0))
    && (v[8 * i + 1] == TYPE_TEST ==>
      e == Event(v[8 * i], TYPE_TEST, v[8 * i + 2], v[8 * i + 3], v[8 * i + 4], v[8 * i + 5], v[8 * i + 6], v[8 * i + 7]))
  }

  /** Exactly which payloads are read, and what they mean: whole events of known types. */
  lemma {:induction false} ReadsIffKnown(v: seq<int>)
    ensures ReadEvents(v).Some? <==> |v| % 8 == 0 && forall i :: 0 <= i < |v| / 8 ==> KindKnown(v, i)
    ensures ReadEvents(v).Some? ==>
      |ReadEvents(v).value| == |v| / 8 && forall i :: 0 <= i < |v| / 8 ==> LiesAt(v, i, ReadEvents(v).value[i])
    decreases |v|
  {
    if |v| >= 8 {
      var rest := v[8..];
      ReadsIffKnown(rest);
      assert |rest| / 8 == |v| / 8 - 1 && |rest| % 8 == |v| % 8;
      assert KindKnown(v, 0) <==> EventOf(v).Some?;
      forall i | 0 <= i < |v| / 8 - 1 ensures KindKnown(rest, i) <==> KindKnown(v, i + 1) {
        assert rest[8 * i + 1] == v[8 * (i + 1) + 1];
      }
      forall i | 0 < i < |v| / 8 ensures KindKnown(v, i) <==> KindKnown(rest, i - 1) {
        assert rest[8 * (i - 1) + 1] == v[8 * i + 1];
      }
      if ReadEvents(v).Some? {
        var events := ReadEvents(v).value;
        assert events == [EventOf(v).value] + ReadEvents(rest).value;
        forall i | 0 <= i < |v| / 8 ensures LiesAt(v, i, events[i]) {
          if i > 0 {
            OneFurther(v, rest, i, events[i]);
          }
        }
      }
    }
  }

  lemma OneFurther(v: seq<int>, rest: seq<int>, i: nat, e: Event)
    requires |v| >= 8 && rest == v[8..] && i > 0 && LiesAt(rest, i - 1, e)
    ensures LiesAt(v, i, e)
  {
    var o := 8 * (i - 1);
    assert forall k :: 0 <= k < |rest| ==> rest[k] == v[k + 8];
    assert o + 8 == 8 * i;
  }

  /** The loop of read_record_file over the values of one payload. */
  method ReadRecord(v: seq<int>) returns (read: Option<seq<Event>>)
    ensures read == ReadEvents(v)
  {
    var events: seq<Event> := [];
    var decoded := 0;
    assert v[0..] == v && (ReadEvents(v).Some? ==> events + ReadEvents(v).value == ReadEvents(v).value);
    while decoded < |v|
      invariant decoded <= |v|
      invariant ReadEvents(v) == match ReadEvents(v[decoded..]) { case None => None case Some(rest) => Some(events + rest) }
    {
      var next := v[decoded..];
      if |next| < INPUT_NUM || EventOf(next).None? {
        return None;
      }
      ReadOneMore(next, events);
      assert next[INPUT_NUM..] == v[decoded + INPUT_NUM..];
      events, decoded := events + [EventOf(next).value], decoded + INPUT_NUM;
    }
    assert v[decoded..] == [] && events + [] == events;
    return Some(events);
  }

  lemma ReadOneMore(v: seq<int>, events: seq<Event>)
    requires |v| >= INPUT_NUM && EventOf(v).Some?
    ensures match ReadEvents(v[INPUT_NUM..])
            case None => ReadEvents(v) == None
            case Some(rest) => ReadEvents(v).Some? && events + ReadEvents(v).value == events + [EventOf(v).value] + rest
  {
  }

  /** Runs come back from their ints; a receive keeps only its rank, which is all it has. */
  lemma {:induction false} ReadBack(runs: seq<Event>)
    requires AreRuns(runs)
    ensures ReadEvents(AllInts(runs)) == Some(runs)
    decreases |runs|
  {
    if runs != [] {
      ReadBack(runs[1..]);
      var v := AllInts(runs);
      assert v[INPUT_NUM..] == AllInts(runs[1..]) && v[..INPUT_NUM] == Ints(runs[0]);
      assert IsRun(runs[0]) && EventOf(v) == Some(runs[0]);
      assert runs == [runs[0]] + runs[1..];
    }
  }

  // ----- replaying -----

  datatype Status = Dequeued | Empty | Finish

  ghost function PendingOf(previous: Option<Event>, queue: Option<seq<Event>>): seq<Event> {
    (if previous.Some? then Copies(previous.value) else []) + (if queue.Some? then Unrolled(queue.value) else [])
  }

  lemma PendingGrows(previous: Option<Event>, queue: Option<seq<Event>>, events: seq<Event>, e: Event)
    requires events == if queue.Some? then queue.value else []
    ensures PendingOf(previous, Some(events + [e])) == PendingOf(previous, queue) + Copies(e)
  {
    hide Copies, Unrolled;
    UnrolledConcat(events, [e]);
    UnrolledOne(e);
    if queue.None? {
      NoRuns();
    }
  }

  lemma NoRuns()
    ensures Unrolled([]) == []
  {
  }

  lemma PendingHead(queue: seq<Event>)
    requires queue != []
    ensures PendingOf(None, Some(queue)) == PendingOf(Some(queue[0]), Some(queue[1..]))
  {
    HeadRun(queue);
  }

  /** Popping a run takes one event from it, or the run itself if it is the last. */
  lemma PendingPop(run: Event, queue: Option<seq<Event>>)
    requires IsRun(run)
    ensures run.kind == TYPE_RECV || run.count == 1 ==> PendingOf(Some(run), queue) == [run] + PendingOf(None, queue)
    ensures run.kind != TYPE_RECV && run.count != 1 ==>
      PendingOf(Some(run), queue) == [run.(count := 1)] + PendingOf(Some(run.(count := run.count - 1)), queue)
  {
    assert Copies(run) == [run.(count := 1)] + Copies(run.(count := run.count - 1));
  }

  /** The events of one matching set; its queue exists only once something was enqueued. */
  class ReplayingList {
    var replayEvents: Option<seq<Event>>
    var previousReplayingEvent: Option<Event>
    var isPushClosed: bool

    ghost predicate Valid()
      reads this
    {
      && (replayEvents.Some? ==> AreRuns(replayEvents.value))
      && (previousReplayingEvent.Some? ==> replayEvents.Some? && IsRun(previousReplayingEvent.value))
    }

    /** The events still to be handed out. */
    ghost function Pending(): seq<Event>
      reads this
    {
      PendingOf(previousReplayingEvent, replayEvents)
    }

    constructor ()
      ensures Valid() && Pending() == [] && !isPushClosed && replayEvents.None?
    {
      replayEvents, previousReplayingEvent, isPushClosed := None, None, false;
    }

    method EnqueueReplay(e: Event)
      requires Valid() && IsRun(e)
      modifies this`replayEvents
      ensures Valid() && Pending() == old(Pending()) + Copies(e) && replayEvents.Some?
    {
      var queue := if replayEvents.Some? then replayEvents.value else [];
      PendingGrows(previousReplayingEvent, replayEvents, queue, e);
      replayEvents := Some(queue + [e]);
    }

    method ClosePush()
      modifies this`isPushClosed
      ensures isPushClosed
    {
      isPushClosed := true;
    }

    /** dequeue_replay with pop: Finish only if the list is closed, a queue exists, and nothing is left. */
    method DequeueReplay() returns (status: Status, event: Option<Event>)
      requires Valid()
      modifies this`replayEvents, this`previousReplayingEvent
      ensures Valid() && replayEvents.Some? == old(replayEvents).Some?
      ensures status == Dequeued <==> old(Pending()) != []
      ensures status == Dequeued ==> event.Some? && old(Pending()) == [event.value] + Pending()
      ensures status != Dequeued ==> event.None? && Pending() == [] && (status == Finish <==> isPushClosed && replayEvents.Some?)
    {
      if replayEvents.None? {
        return Empty, None;
      }
      if previousReplayingEvent.None? {
        if |replayEvents.value| == 0 {
          return if isPushClosed then Finish else Empty, None;
        }
        PendingHead(replayEvents.value);
        previousReplayingEvent := Some(replayEvents.value[0]);
        replayEvents := Some(replayEvents.value[1..]);
      }
      var run := previousReplayingEvent.value;
      PendingPop(run, replayEvents);
      if run.kind == TYPE_RECV || run.count == 1 {
        event, previousReplayingEvent := Some(run), None;
      } else {
        event, previousReplayingEvent := Some(run.(count := 1)), Some(run.(count := run.count - 1));
      }
      status := Dequeued;
    }
  }

  lemma HeadRun(runs: seq<Event>)
    requires runs != []
    ensures Unrolled(runs) == Copies(runs[0]) + Unrolled(runs[1..])
  {
    assert runs == [runs[0]] + runs[1..];
    UnrolledConcat([runs[0]], runs[1..]);
    UnrolledOne(runs[0]);
  }

  // ----- recorder and replayer together -----

  method Record(stream: seq<Event>) returns (v: seq<int>, ghost runs: seq<Event>)
    requires forall i :: 0 <= i < |stream| ==> Single(stream[i])
    ensures AreRuns(runs) && v == AllInts(runs) && Unrolled(runs) == stream && Compact(runs)
    ensures forall others :: AreRuns(others) && Unrolled(others) == stream ==> |v| <= |AllInts(others)|
  {
    var recording := new RecordingList();
    for i := 0 to |stream|
      invariant !recording.isPushClosed && recording.Valid()
      invariant Unrolled(recording.Runs()) == stream[..i]
    {
      recording.Push(stream[i]);
    }
    assert stream[..|stream|] == stream;
    recording.PushAll();
    runs := recording.events;
    v := Encode(recording.events);
    forall others | AreRuns(others) && Unrolled(others) == stream ensures |v| <= |AllInts(others)| {
      CompactIsShortest(runs, others);
    }
  }

  lemma UnrolledSnoc(runs: seq<Event>, i: nat)
    requires i < |runs|
    ensures Unrolled(runs[..i + 1]) == Unrolled(runs[..i]) + Copies(runs[i])
  {
    assert runs[..i + 1][..i] == runs[..i];
  }

  method Load(runs: seq<Event>) returns (replaying: ReplayingList)
    requires AreRuns(runs)
    ensures fresh(replaying) && replaying.Valid() && replaying.isPushClosed && replaying.Pending() == Unrolled(runs)
    ensures replaying.replayEvents.Some? <==> runs != []
  {
    replaying := new ReplayingList();
    for i := 0 to |runs|
      invariant fresh(replaying) && replaying.Valid() && replaying.Pending() == Unrolled(runs[..i])
      invariant replaying.replayEvents.Some? <==> i > 0
    {
      UnrolledSnoc(runs, i);
      replaying.EnqueueReplay(runs[i]);
    }
    assert runs[..|runs|] == runs;
    replaying.ClosePush();
  }

  method Drain(replaying: ReplayingList) returns (replayed: seq<Event>, last: Status)
    requires replaying.Valid()
    modifies replaying
    ensures replayed == old(replaying.Pending())
    ensures last == if old(replaying.isPushClosed && replaying.replayEvents.Some?) then Finish else Empty
  {
    ghost var all := replaying.Pending();
    replayed, last := [], Dequeued;
    while last == Dequeued
      invariant replaying.Valid() && replaying.isPushClosed == old(replaying.isPushClosed)
      invariant replaying.replayEvents.Some? == old(replaying.replayEvents).Some?
      invariant replayed + replaying.Pending() == all
      invariant last != Dequeued ==>
        replaying.Pending() == [] && (last == Finish <==> replaying.isPushClosed && replaying.replayEvents.Some?)
      decreases |replaying.Pending()|, if last == Dequeued then 1 else 0
    {
      ghost var before := replaying.Pending();
      var event;
      last, event := replaying.DequeueReplay();
      if last == Dequeued {
        assert replayed + before == replayed + [event.value] + replaying.Pending();
        replayed := replayed + [event.value];
      }
    }
  }

  /**
    Basic mode, end to end: the replay hands out the recorded events, one by one, and then says that
    it is finished, unless there was none: without an event no queue is made, and the answer is that
    of a list still to be filled.
   */
  method RecordAndReplay(stream: seq<Event>) returns (replayed: seq<Event>, last: Status)
    requires forall i :: 0 <= i < |stream| ==> Single(stream[i])
    ensures replayed == stream
    ensures last == Finish <==> stream != []
    ensures last == Empty <==> stream == []
  {
    ghost var runs;
    var v;
    v, runs := Record(stream);
    var read := ReadRecord(v);
    ReadBack(runs);
    var replaying := Load(read.value);
    UnrolledIsSomething(runs);
    replayed, last := Drain(replaying);
  }
}
