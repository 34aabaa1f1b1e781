/**
  The recorder's tables: one per matching set, filled event by event and closed into an epoch.
 */
module EpochTables {
  import opened EditScripts
  import opened Messages

  /** A recorded event of one matching set: a matched receive or a run of unmatched tests. */
  datatype Item =
    | Matched(source: int, clock: int, withNext: bool, index: int)
    | Unmatched(count: int)
  {
    function Key(): Msg
      requires Matched?
    {
      Msg(source, clock)
    }
  }

  /** The vectors of a test table that add fills. */
  datatype Table = Table(
    events: seq<Item>,
    withPrevious: seq<nat>,
    matchedIndex: seq<int>,
    unmatchedIds: seq<nat>,
    unmatchedCounts: seq<int>)

  const EMPTY_TABLE := Table([], [], [], [], [])

  /** rempi_encoder_cdc_input_format::add on the table of the event's matching set. */
  function AddTo(t: Table, item: Item): Table {
    if item.Matched? then
      t.(events := t.events + [item],
         withPrevious := if item.withNext then t.withPrevious + [|t.events|] else t.withPrevious,
         matchedIndex := t.matchedIndex + [item.index])
    else if t.unmatchedIds != [] && t.unmatchedCounts != [] && t.unmatchedIds[|t.unmatchedIds| - 1] == |t.events| then
      var last := |t.unmatchedCounts| - 1;
      t.(unmatchedCounts := t.unmatchedCounts[last := t.unmatchedCounts[last] + item.count])
    else
      t.(unmatchedIds := t.unmatchedIds + [|t.events|], unmatchedCounts := t.unmatchedCounts + [item.count])
  }

  ghost predicate WellFormed(t: Table) {
    && (forall i :: 0 <= i < |t.events| ==> t.events[i].Matched?)
    && |t.matchedIndex| == |t.events| && (forall i :: 0 <= i < |t.events| ==> t.matchedIndex[i] == t.events[i].index)
    && (forall i :: 0 <= i < |t.events| ==> (t.events[i].withNext <==> i in t.withPrevious))
    && (forall k :: 0 <= k < |t.withPrevious| ==> t.withPrevious[k] < |t.events|)
    && |t.unmatchedIds| == |t.unmatchedCounts|
    && (forall k :: 0 <= k < |t.unmatchedIds| ==> t.unmatchedIds[k] <= |t.events|)
    && (forall j, k :: 0 <= j < k < |t.unmatchedIds| ==> t.unmatchedIds[j] < t.unmatchedIds[k])
  }

  /** unmatched_events_umap as the replayer rebuilds it: position -> count. */
  function UnmatchedMap(ids: seq<nat>, counts: seq<int>): map<nat, int>
    requires |ids| == |counts|
  {
    if ids == [] then map[]
    else UnmatchedMap(ids[..|ids| - 1], counts[..|ids| - 1])[ids[|ids| - 1] := counts[|ids| - 1]]
  }

  /** The unmatched run, if any, in front of position i. */
  function RunAt(unmatched: map<nat, int>, i: nat): seq<Item> {
    if i in unmatched then [Unmatched(unmatched[i])] else []
  }

  /** The stream up to position r, without the unmatched run at r itself. */
  function ItemsBefore(events: seq<Item>, unmatched: map<nat, int>, r: nat): seq<Item>
    requires r <= |events|
  {
    if r == 0 then []
    else ItemsBefore(events, unmatched, r - 1) + RunAt(unmatched, r - 1) + [events[r - 1]]
  }

  /** The whole stream that a table stands for. */
  function Items(events: seq<Item>, unmatched: map<nat, int>): seq<Item> {
    ItemsBefore(events, unmatched, |events|) + RunAt(unmatched, |events|)
  }

  function TableItems(t: Table): seq<Item>
    requires |t.unmatchedIds| == |t.unmatchedCounts|
  {
    Items(t.events, UnmatchedMap(t.unmatchedIds, t.unmatchedCounts))
  }

  /** The recorded stream with neighbouring unmatched runs merged. */
  function Append(stream: seq<Item>, item: Item): seq<Item> {
    if stream != [] && item.Unmatched? && stream[|stream| - 1].Unmatched? then
      stream[..|stream| - 1] + [Unmatched(stream[|stream| - 1].count + item.count)]
    else stream + [item]
  }

  function Merged(stream: seq<Item>): seq<Item> {
    if stream == [] then [] else Append(Merged(stream[..|stream| - 1]), stream[|stream| - 1])
  }

  function TableOf(stream: seq<Item>): Table {
    if stream == [] then EMPTY_TABLE else AddTo(TableOf(stream[..|stream| - 1]), stream[|stream| - 1])
  }

  lemma {:induction false} UnmatchedMapKeys(ids: seq<nat>, counts: seq<int>)
    requires |ids| == |counts|
    ensures forall i :: i in UnmatchedMap(ids, counts) <==> i in ids
  {
    if ids != [] {
      UnmatchedMapKeys(ids[..|ids| - 1], counts[..|ids| - 1]);
      assert ids == ids[..|ids| - 1] + [ids[|ids| - 1]];
    }
  }

  lemma {:induction false} ItemsBeforeAgree(a: seq<Item>, b: seq<Item>, u: map<nat, int>, v: map<nat, int>, r: nat)
    requires r <= |a| && r <= |b| && a[..r] == b[..r]
    requires forall i :: 0 <= i < r ==> RunAt(u, i) == RunAt(v, i)
    ensures ItemsBefore(a, u, r) == ItemsBefore(b, v, r)
  {
    if r > 0 {
      assert a[..r][r - 1] == b[..r][r - 1] && a[..r][..r - 1] == a[..r - 1] && b[..r][..r - 1] == b[..r - 1];
      ItemsBeforeAgree(a, b, u, v, r - 1);
    }
  }

  lemma ItemsBeforeEnds(events: seq<Item>, unmatched: map<nat, int>)
    requires forall i :: 0 <= i < |events| ==> events[i].Matched?
    ensures var s := ItemsBefore(events, unmatched, |events|); s != [] ==> s[|s| - 1].Matched?
  {
  }

  lemma AddKeepsWellFormed(t: Table, item: Item)
    requires WellFormed(t)
    ensures WellFormed(AddTo(t, item))
  {
  }

  lemma AddedMatched(t: Table, item: Item)
    requires WellFormed(t) && item.Matched?
    ensures TableItems(AddTo(t, item)) == TableItems(t) + [item]
  {
    var t', n := AddTo(t, item), |t.events|;
    var u := UnmatchedMap(t.unmatchedIds, t.unmatchedCounts);
    UnmatchedMapKeys(t.unmatchedIds, t.unmatchedCounts);
    ItemsBeforeAgree(t.events, t'.events, u, u, n);
    assert n + 1 !in u;
  }

  /** Adding an unmatched run changes the map only at the end of the stream. */
  lemma AddedRun(t: Table, item: Item)
    requires WellFormed(t) && item.Unmatched?
    ensures var t', n := AddTo(t, item), |t.events|;
      var u := UnmatchedMap(t.unmatchedIds, t.unmatchedCounts);
      UnmatchedMap(t'.unmatchedIds, t'.unmatchedCounts) == u[n := if n in u then u[n] + item.count else item.count]
  {
    var t', n, k := AddTo(t, item), |t.events|, |t.unmatchedIds|;
    UnmatchedMapKeys(t.unmatchedIds, t.unmatchedCounts);
    if k > 0 && t.unmatchedIds[k - 1] == n {
      assert t'.unmatchedCounts[..k - 1] == t.unmatchedCounts[..k - 1];
    } else {
      assert t'.unmatchedIds[..k] == t.unmatchedIds && t'.unmatchedCounts[..k] == t.unmatchedCounts;
      assert n !in t.unmatchedIds;
    }
  }

  lemma AddedUnmatched(t: Table, item: Item)
    requires WellFormed(t) && item.Unmatched?
    ensures TableItems(AddTo(t, item)) == Append(TableItems(t), item)
  {
    hide *;
    var t', n := AddTo(t, item), |t.events|;
    SameEvents(t, item);
    var u, u' := UnmatchedMap(t.unmatchedIds, t.unmatchedCounts), UnmatchedMap(t'.unmatchedIds, t'.unmatchedCounts);
    AddedRun(t, item);
    RunAtUpdate(u, n, if n in u then u[n] + item.count else item.count);
    ItemsBeforeAgree(t.events, t.events, u, u', n);
    ItemsBeforeEnds(t.events, u);
    AppendRun(ItemsBefore(t.events, u, n), u, n, item);
    TableItemsAre(t);
    TableItemsAre(t');
  }

  lemma RunAtUpdate(u: map<nat, int>, n: nat, count: int)
    ensures RunAt(u[n := count], n) == [Unmatched(count)]
    ensures forall i :: 0 <= i < n ==> RunAt(u[n := count], i) == RunAt(u, i)
  {
  }

  lemma TableItemsAre(t: Table)
    requires |t.unmatchedIds| == |t.unmatchedCounts|
    ensures var u := UnmatchedMap(t.unmatchedIds, t.unmatchedCounts);
      TableItems(t) == ItemsBefore(t.events, u, |t.events|) + RunAt(u, |t.events|)
  {
  }

  lemma SameEvents(t: Table, item: Item)
    requires WellFormed(t) && item.Unmatched?
    ensures AddTo(t, item).events == t.events && |AddTo(t, item).unmatchedIds| == |AddTo(t, item).unmatchedCounts|
    ensures |t.unmatchedIds| == |t.unmatchedCounts| && forall i :: 0 <= i < |t.events| ==> t.events[i].Matched?
  {
  }

  lemma AppendRun(before: seq<Item>, u: map<nat, int>, n: nat, item: Item)
    requires item.Unmatched? && (before != [] ==> before[|before| - 1].Matched?)
    ensures Append(before + RunAt(u, n), item) == before + [Unmatched(if n in u then u[n] + item.count else item.count)]
  {
  }

  /** One added event: the table's stream grows by it. */
  lemma AddedItem(t: Table, item: Item)
    requires WellFormed(t)
    ensures WellFormed(AddTo(t, item))
    ensures TableItems(AddTo(t, item)) == Append(TableItems(t), item)
  {
    AddKeepsWellFormed(t, item);
    if item.Matched? {
      AddedMatched(t, item);
    } else {
      AddedUnmatched(t, item);
    }
  }

  /** A table stands for exactly the recorded stream, unmatched runs merged. */
  lemma {:induction false} TableStandsForStream(stream: seq<Item>)
    ensures WellFormed(TableOf(stream)) && TableItems(TableOf(stream)) == Merged(stream)
  {
    if stream != [] {
      TableStandsForStream(stream[..|stream| - 1]);
      AddedItem(TableOf(stream[..|stream| - 1]), stream[|stream| - 1]);
    }
  }

  function Calls(item: Item): (calls: seq<Item>)
    ensures item.Matched? ==> calls == [item]
    ensures item.Unmatched? && item.count >= 0 ==> |calls| == item.count && forall i :: 0 <= i < |calls| ==> calls[i] == Unmatched(1)
  {
    if item.Matched? then [item] else if item.count <= 0 then [] else seq(item.count, i => Unmatched(1))
  }

  /** The stream call by call: a run of unmatched tests is that many tests. */
  function CallByCall(stream: seq<Item>): seq<Item> {
    if stream == [] then []
    else CallByCall(stream[..|stream| - 1]) + Calls(stream[|stream| - 1])
  }

  /** Merging changes no call, and leaves no two runs side by side. */
  lemma {:induction false} MergedIsSameCalls(stream: seq<Item>)
    requires forall i :: 0 <= i < |stream| && stream[i].Unmatched? ==> stream[i].count >= 0
    ensures CallByCall(Merged(stream)) == CallByCall(stream)
    ensures forall i :: 0 <= i < |Merged(stream)| && Merged(stream)[i].Unmatched? ==> Merged(stream)[i].count >= 0
    ensures forall i :: 0 < i < |Merged(stream)| ==> Merged(stream)[i - 1].Matched? || Merged(stream)[i].Matched?
  {
    hide CallByCall, Calls, Append;
    if stream != [] {
      var front, item := stream[..|stream| - 1], stream[|stream| - 1];
      MergedIsSameCalls(front);
      AppendIs(Merged(front), item);
      AppendIsCall(Merged(front), item);
      assert stream == front + [item];
      OneMoreCall(front, item);
      OneMoreCall(Merged(front), item);
    }
  }

  lemma AppendIsCall(stream: seq<Item>, item: Item)
    requires forall i :: 0 <= i < |stream| && stream[i].Unmatched? ==> stream[i].count >= 0
    requires item.Unmatched? ==> item.count >= 0
    ensures CallByCall(Append(stream, item)) == CallByCall(stream + [item])
  {
    hide *;
    OneMoreCall(stream, item);
    AppendIs(stream, item);
    if stream != [] && item.Unmatched? && stream[|stream| - 1].Unmatched? {
      var front, run := stream[..|stream| - 1], stream[|stream| - 1];
      var longer := Unmatched(run.count + item.count);
      assert stream == front + [run];
      OneMoreCall(front, run);
      OneMoreCall(front, longer);
      LongerRun(run, item);
    }
  }

  lemma AppendIs(stream: seq<Item>, item: Item)
    ensures Append(stream, item) ==
      if stream != [] && item.Unmatched? && stream[|stream| - 1].Unmatched? then
        stream[..|stream| - 1] + [Unmatched(stream[|stream| - 1].count + item.count)]
      else stream + [item]
  {
  }

  lemma LongerRun(run: Item, item: Item)
    requires run.Unmatched? && item.Unmatched? && run.count >= 0 && item.count >= 0
    ensures Calls(Unmatched(run.count + item.count)) == Calls(run) + Calls(item)
  {
  }

  lemma OneMoreCall(stream: seq<Item>, item: Item)
    ensures CallByCall(stream + [item]) == CallByCall(stream) + Calls(item)
  {
    hide Calls;
    assert (stream + [item])[..|stream|] == stream;
  }

  // ----- all tables of one chunk -----

  datatype Event = Event(setId: int, item: Item)

  function ItemWithNext(item: Item): bool {
    item.Matched? && item.withNext
  }

  /** The events of one matching set, in stream order. */
  function OfSet(stream: seq<Event>, id: int): seq<Item> {
    if stream == [] then []
    else
      var last := stream[|stream| - 1];
      OfSet(stream[..|stream| - 1], id) + (if last.setId == id then [last.item] else [])
  }

  function Sets(stream: seq<Event>): set<int> {
    set e | e in stream :: e.setId
  }

  function TablesOf(stream: seq<Event>): map<int, Table> {
    map id | id in Sets(stream) :: TableOf(OfSet(stream, id))
  }

  function TableAt(tables: map<int, Table>, id: int): Table {
    if id in tables then tables[id] else EMPTY_TABLE
  }

  lemma TablesStep(stream: seq<Event>, e: Event)
    ensures TablesOf(stream + [e]) == TablesOf(stream)[e.setId := AddTo(TableAt(TablesOf(stream), e.setId), e.item)]
  {
    hide OfSet, TableOf, AddTo, Sets;
    var more := stream + [e];
    SetsSnoc(stream, e);
    OfUnknownSet(stream, e.setId);
    OfSetSnoc(stream, e, e.setId);
    TableOfSnoc(OfSet(stream, e.setId), e.item);
    assert TableOf(OfSet(stream, e.setId)) == TableAt(TablesOf(stream), e.setId) by {
      NoTableYet();
    }
    forall id | id in Sets(more) && id != e.setId ensures id in Sets(stream) && TablesOf(more)[id] == TablesOf(stream)[id] {
      OfSetSnoc(stream, e, id);
    }
  }

  lemma SetsSnoc(stream: seq<Event>, e: Event)
    ensures Sets(stream + [e]) == Sets(stream) + {e.setId}
  {
  }

  lemma OfSetSnoc(stream: seq<Event>, e: Event, id: int)
    ensures e.setId == id ==> OfSet(stream + [e], id) == OfSet(stream, id) + [e.item]
    ensures e.setId != id ==> OfSet(stream + [e], id) == OfSet(stream, id)
  {
    assert (stream + [e])[..|stream|] == stream;
  }

  lemma TableOfSnoc(items: seq<Item>, item: Item)
    ensures TableOf(items + [item]) == AddTo(TableOf(items), item)
  {
    assert (items + [item])[..|items|] == items;
  }

  lemma NoTableYet()
    ensures TableOf([]) == EMPTY_TABLE
  {
  }

  lemma {:induction false} OfUnknownSet(stream: seq<Event>, id: int)
    ensures id !in Sets(stream) ==> OfSet(stream, id) == []
  {
    if stream != [] && id !in Sets(stream) {
      assert stream[|stream| - 1] in stream && stream[|stream| - 1].setId != id;
      assert forall e :: e in stream[..|stream| - 1] ==> e in stream;
      OfUnknownSet(stream[..|stream| - 1], id);
    }
  }

  /** A group is pushed whole: what follows an event with next is a match of the same set. */
  ghost predicate GroupsWhole(stream: seq<Event>) {
    forall i :: 0 <= i < |stream| - 1 && ItemWithNext(stream[i].item) ==>
      stream[i + 1].item.Matched? && stream[i + 1].setId == stream[i].setId
  }

  function LastWithNext(events: seq<Item>): bool {
    events != [] && ItemWithNext(events[|events| - 1])
  }

  /** Only the set of the last event can have an open group. */
  lemma {:induction false} OnlyLastSetIsOpen(stream: seq<Event>, id: int)
    requires GroupsWhole(stream)
    ensures LastWithNext(TableOf(OfSet(stream, id)).events) ==>
      stream != [] && stream[|stream| - 1].setId == id && ItemWithNext(stream[|stream| - 1].item)
  {
    if stream != [] {
      var front, last := stream[..|stream| - 1], stream[|stream| - 1];
      assert GroupsWhole(front);
      OnlyLastSetIsOpen(front, id);
      var i := |stream| - 2;
      if front != [] && ItemWithNext(front[i].item) {
        assert stream[i] == front[i] && stream[i + 1] == last;
        assert last.item.Matched? && last.setId == front[i].setId;
      }
      var before := OfSet(front, id);
      if last.setId == id {
        assert OfSet(stream, id) == before + [last.item] && (before + [last.item])[..|before|] == before;
        assert TableOf(OfSet(stream, id)) == AddTo(TableOf(before), last.item);
      } else {
        assert OfSet(stream, id) == before;
      }
    }
  }

  /** A matched event and a new unmatched run count; an event merged into the last run does not. */
  ghost predicate Grows(t: Table, item: Item) {
    item.Matched? || |AddTo(t, item).unmatchedIds| > |t.unmatchedIds|
  }

  ghost function LengthOf(stream: seq<Event>): nat {
    if stream == [] then 0
    else
      var front, last := stream[..|stream| - 1], stream[|stream| - 1];
      LengthOf(front) + (if Grows(TableAt(TablesOf(front), last.setId), last.item) then 1 else 0)
  }

  method FillTable(table: Table, item: Item) returns (t: Table, grew: bool)
    ensures t == AddTo(table, item)
    ensures grew == Grows(table, item)
  {
    t, grew := table, true;
    if item.Matched? {
      t := t.(events := t.events + [item]);
      if item.withNext {
        var addedEventIndex := |t.events| - 1;
        t := t.(withPrevious := t.withPrevious + [addedEventIndex]);
      }
      t := t.(matchedIndex := t.matchedIndex + [item.index]);
    } else {
      var nextIndex, last := |t.events|, |t.unmatchedCounts| - 1;
      if t.unmatchedIds != [] && t.unmatchedCounts != [] && t.unmatchedIds[|t.unmatchedIds| - 1] == nextIndex {
        t := t.(unmatchedCounts := t.unmatchedCounts[last := t.unmatchedCounts[last] + item.count]);
        grew := false;
      } else {
        t := t.(unmatchedIds := t.unmatchedIds + [nextIndex], unmatchedCounts := t.unmatchedCounts + [item.count]);
      }
    }
  }

  lemma NoEventNoLength(stream: seq<Event>)
    ensures LengthOf(stream) > 0 ==> stream != []
  {
  }

  lemma {:induction false} LastSetIsOpen(stream: seq<Event>)
    requires stream != [] && ItemWithNext(stream[|stream| - 1].item)
    ensures LastWithNext(TableOf(OfSet(stream, stream[|stream| - 1].setId)).events)
  {
    var front, last := stream[..|stream| - 1], stream[|stream| - 1];
    var before := OfSet(front, last.setId);
    assert OfSet(stream, last.setId) == before + [last.item] && (before + [last.item])[..|before|] == before;
    assert TableOf(before + [last.item]) == AddTo(TableOf(before), last.item);
  }

  /** With whole groups, some table ends inside a group exactly if the last event has a next one. */
  lemma OpenGroups(stream: seq<Event>)
    ensures stream != [] && GroupsWhole(stream) ==>
      ((forall id :: id in TablesOf(stream) ==> !LastWithNext(TablesOf(stream)[id].events)) <==> !ItemWithNext(stream[|stream| - 1].item))
  {
    if stream != [] && GroupsWhole(stream) {
      var last := stream[|stream| - 1];
      assert last.setId in TablesOf(stream);
      if ItemWithNext(last.item) {
        LastSetIsOpen(stream);
      } else {
        forall id | id in TablesOf(stream) ensures !LastWithNext(TablesOf(stream)[id].events) {
          OnlyLastSetIsOpen(stream, id);
        }
      }
    }
  }

  lemma AddedEvent(stream: seq<Event>, e: Event)
    ensures TablesOf(stream + [e]) == TablesOf(stream)[e.setId := AddTo(TableAt(TablesOf(stream), e.setId), e.item)]
    ensures LengthOf(stream + [e]) == LengthOf(stream) + (if Grows(TableAt(TablesOf(stream), e.setId), e.item) then 1 else 0)
    ensures (stream + [e])[|stream|] == e
  {
    TablesStep(stream, e);
    assert (stream + [e])[..|stream|] == stream;
  }

  class InputFormat {
    var tables: map<int, Table>      // test_tables_map
    var totalLength: nat
    var lastAddedWithNext: bool      // last_added_event->get_with_next()
    ghost var stream: seq<Event>     // everything added so far

    ghost predicate Valid()
      reads this
    {
      && tables == TablesOf(stream)
      && (stream != [] ==> lastAddedWithNext == ItemWithNext(stream[|stream| - 1].item))
      && totalLength == LengthOf(stream)
    }

    constructor ()
      ensures Valid() && stream == [] && totalLength == 0
    {
      tables, totalLength, lastAddedWithNext, stream := map[], 0, false, [];
    }

    method Add(e: Event)
      requires Valid()
      modifies this
      ensures Valid() && stream == old(stream) + [e]
    {
      AddedEvent(stream, e);
      hide TablesOf, LengthOf, AddTo, Grows;
      var t, grew := FillTable(TableAt(tables, e.setId), e.item);
      if grew {
        totalLength := totalLength + 1;
      }
      tables := tables[e.setId := t];
      lastAddedWithNext := ItemWithNext(e.item);
      stream := stream + [e];
    }

    /**
      extract_encoder_input_format_chunk: pops events until the chunk is long enough and the last
      group is complete.  `queue` is the list as the loop sees it, `closed` whether it is closed
      afterwards; then the chunk is ready whatever its last event is.
     */
    method ExtractChunk(queue: seq<Event>, maxLength: nat, closed: bool) returns (rest: seq<Event>, ready: bool)
      requires Valid()
      modifies this
      ensures Valid() && stream + rest == old(stream) + queue
      ensures ready ==> stream != []
      ensures ready <==> totalLength != 0 && (closed || (totalLength > maxLength && !ItemWithNext(stream[|stream| - 1].item)))
      ensures ready && GroupsWhole(stream) ==>
        ((forall id :: id in tables ==> !LastWithNext(tables[id].events)) <==> !ItemWithNext(stream[|stream| - 1].item))
      ensures rest != [] ==> totalLength > maxLength && stream != [] && !ItemWithNext(stream[|stream| - 1].item)
    {
      hide TablesOf, LengthOf, GroupsWhole, LastWithNext;
      rest := queue;
      while true
        invariant Valid() && stream + rest == old(stream) + queue
        decreases |rest|
      {
        if rest == [] {
          break;
        } else if totalLength > maxLength {
          NoEventNoLength(stream);
          if !lastAddedWithNext { break; }
        }
        ghost var before := stream;
        assert before + rest == before + [rest[0]] + rest[1..];
        this.Add(rest[0]);
        rest := rest[1..];
      }
      NoEventNoLength(stream);
      OpenGroups(stream);
      if totalLength == 0 {
        return rest, false;
      }
      ready := closed || (totalLength > maxLength && !lastAddedWithNext);
    }
  }

  // ----- closing an epoch -----

  datatype FormatError = TruncatedEpoch | LaterSmallerClock

  datatype Formatted =
    | Closed(clockOrders: seq<nat>, line: map<int, int>)
    | Rejected(error: FormatError)

  function Keys(events: seq<Item>): (keys: seq<Msg>)
    requires forall i :: 0 <= i < |events| ==> events[i].Matched?
    ensures |keys| == |events| && forall i :: 0 <= i < |keys| ==> keys[i] == events[i].Key()
  {
    seq(|events|, i requires 0 <= i < |events| => events[i].Key())
  }

  /** A real (clock, source) pair was recorded twice. */
  ghost predicate HasTwin(keys: seq<Msg>) {
    exists m :: m in keys && m.clock != 0 && multiset(keys)[m] >= 2
  }

  /** The epoch line: for every source its last clock. */
  ghost predicate IsLine(keys: seq<Msg>, line: map<int, int>) {
    && (forall m :: m in keys ==> m.source in line && m.clock <= line[m.source])
    && (forall source :: source in line ==> Msg(source, line[source]) in keys)
  }

  lemma LineStep(s: seq<Msg>, m: Msg, line: map<int, int>)
    requires IsLine(s, line) && forall x :: x in s ==> LessEq(x, m)
    ensures IsLine(s + [m], line[m.source := m.clock])
  {
    var next := line[m.source := m.clock];
    forall x | x in s + [m] ensures x.source in next && x.clock <= next[x.source] {
      assert x == m || x in s;
    }
    forall source | source in next ensures Msg(source, next[source]) in s + [m] {
      if source == m.source {
        assert Msg(source, next[source]) == m && (s + [m])[|s|] == m;
      }
    }
  }

  ghost predicate RealsDiffer(s: seq<Msg>) {
    forall j, k :: 0 <= j < k < |s| && s[j] == s[k] ==> s[j].clock == 0
  }

  /** In sorted order, a clock that is not above its source's line is a second copy. */
  lemma TwinFound(sorted: seq<Msg>, i: nat, line: map<int, int>)
    requires forall j, k :: 0 <= j < k < |sorted| ==> LessEq(sorted[j], sorted[k])
    requires i < |sorted| && IsLine(sorted[..i], line)
    requires sorted[i].source in line && line[sorted[i].source] >= sorted[i].clock && sorted[i].clock != 0
    ensures HasTwin(sorted)
  {
    var m := sorted[i];
    assert Msg(m.source, line[m.source]) in sorted[..i];
    var j :| 0 <= j < i && sorted[j] == Msg(m.source, line[m.source]);
    assert LessEq(sorted[j], m);
    TwiceMeansTwoPlaces(sorted, m);
    assert m in sorted;
  }

  lemma LineGrows(sorted: seq<Msg>, i: nat, line: map<int, int>)
    requires forall j, k :: 0 <= j < k < |sorted| ==> LessEq(sorted[j], sorted[k])
    requires i < |sorted| && IsLine(sorted[..i], line) && RealsDiffer(sorted[..i])
    requires !(sorted[i].source in line && line[sorted[i].source] >= sorted[i].clock && sorted[i].clock != 0)
    ensures IsLine(sorted[..i + 1], line[sorted[i].source := sorted[i].clock]) && RealsDiffer(sorted[..i + 1])
  {
    var s, m := sorted[..i], sorted[i];
    assert sorted[..i + 1] == s + [m];
    assert forall x :: x in s ==> LessEq(x, m);
    LineStep(s, m, line);
    forall j | 0 <= j < i && s[j] == m ensures m.clock == 0 {
      assert m in s;
    }
  }

  lemma NoTwinsLeft(s: seq<Msg>)
    requires RealsDiffer(s)
    ensures !HasTwin(s)
  {
    forall m | m in s && m.clock != 0 ensures multiset(s)[m] < 2 {
      TwiceMeansTwoPlaces(s, m);
    }
  }

  /** The loop of format over the sorted events; false means "Later message has smaller clock". */
  method EpochLine(sorted: seq<Msg>) returns (ok: bool, line: map<int, int>)
    requires forall i, j :: 0 <= i < j < |sorted| ==> LessEq(sorted[i], sorted[j])
    ensures ok <==> !HasTwin(sorted)
    ensures ok ==> IsLine(sorted, line)
  {
    line := map[];
    for i := 0 to |sorted|
      invariant IsLine(sorted[..i], line) && RealsDiffer(sorted[..i])
    {
      var m := sorted[i];
      if m.source in line && line[m.source] >= m.clock && m.clock != 0 {
        TwinFound(sorted, i, line);
        return false, line;
      }
      LineGrows(sorted, i, line);
      line := line[m.source := m.clock];
    }
    assert sorted[..|sorted|] == sorted;
    NoTwinsLeft(sorted);
    return true, line;
  }

  /** rempi_encoder_cdc_input_format::format on one table. */
  method Format(t: Table) returns (r: Formatted)
    requires WellFormed(t)
    ensures r == Rejected(TruncatedEpoch) <==> LastWithNext(t.events)
    ensures r == Rejected(LaterSmallerClock) <==> !LastWithNext(t.events) && HasTwin(Keys(t.events))
    ensures r.Closed? <==> !LastWithNext(t.events) && !HasTwin(Keys(t.events))
    ensures r.Closed? ==> r.clockOrders == ClockOrders(Keys(t.events)) && IsLine(Keys(t.events), r.line)
  {
    if |t.events| > 0 {
      if t.events[|t.events| - 1].withNext {
        return Rejected(TruncatedEpoch);
      }
    }
    var keys := Keys(t.events);
    SortCounts(keys);
    var ok, line := EpochLine(Sort(keys));
    if !ok {
      return Rejected(LaterSmallerClock);
    }
    return Closed(ClockOrders(keys), line);
  }

  /** With real clocks, a closed epoch has no message twice, so clock orders are a permutation. */
  lemma ClosedEpochIsPermutation(events: seq<Item>)
    requires forall i :: 0 <= i < |events| ==> events[i].Matched? && events[i].clock != 0
    requires !HasTwin(Keys(events))
    ensures NoRepeats(Keys(events)) && IsPermutation(ClockOrders(Keys(events)))
  {
    var keys := Keys(events);
    forall i, j | 0 <= i < j < |keys| ensures keys[i] != keys[j] {
      TwiceMeansTwoPlaces(keys, keys[i]);
      assert keys[i] in keys;
    }
    ClockOrdersPermute(keys);
  }
}
