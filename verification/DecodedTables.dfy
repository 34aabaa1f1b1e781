/**
  From a closed table to the table the replayer decodes, and the recording it describes.
 */
module DecodedTables {
  import opened EditScripts
  import opened Messages
  import opened EpochTables
  import opened IndexDecoder
  import opened ReplayOrdering
  import opened ReplayFidelity

  // ----- with_previous_vec and its flags -----

  /** with_previous_bool_vec: one flag per message, or none at all. */
  function Flags(withPrevious: seq<nat>, count: nat): (flags: seq<bool>)
    ensures withPrevious == [] ==> flags == []
    ensures withPrevious != [] ==> |flags| == count && forall i :: 0 <= i < count ==> (flags[i] <==> i in withPrevious)
  {
    if withPrevious == [] then [] else seq(count, i => i in withPrevious)
  }

  method SetFlags(withPrevious: seq<nat>, count: nat) returns (flags: seq<bool>)
    requires forall k :: 0 <= k < |withPrevious| ==> withPrevious[k] < count
    ensures flags == Flags(withPrevious, count)
  {
    flags := [];
    if |withPrevious| > 0 {
      flags := seq(count, i => false);
      for k := 0 to |withPrevious|
        invariant |flags| == count && forall i :: 0 <= i < count ==> (flags[i] <==> i in withPrevious[..k])
      {
        flags := flags[withPrevious[k] := true];
      }
      assert withPrevious[..|withPrevious|] == withPrevious;
    }
  }

  /** unmatched_events_umap, filled run by run. */
  method FillUnmatched(ids: seq<nat>, counts: seq<int>) returns (unmatched: map<nat, int>)
    requires |ids| == |counts|
    ensures unmatched == UnmatchedMap(ids, counts)
  {
    unmatched := map[];
    for k := 0 to |ids|
      invariant unmatched == UnmatchedMap(ids[..k], counts[..k])
    {
      assert ids[..k + 1][..k] == ids[..k] && counts[..k + 1][..k] == counts[..k];
      unmatched := unmatched[ids[k] := counts[k]];
    }
    assert ids[..|ids|] == ids && counts[..|ids|] == counts;
  }

  // ----- streams that the recorder produces -----

  /** What the recorder pushes for one set: real distinct clocks, nothing but matches inside a group. */
  ghost predicate RecordableSoFar(stream: seq<Item>) {
    && (forall i :: 0 <= i < |stream| && stream[i].Matched? ==> stream[i].clock > 0)
    && (forall i, j :: 0 <= i < j < |stream| && stream[i].Matched? && stream[j].Matched? ==> stream[i].Key() != stream[j].Key())
    && (forall i :: 0 <= i < |stream| - 1 && ItemWithNext(stream[i]) ==> stream[i + 1].Matched?)
  }

  /** The same, with the last group closed. */
  ghost predicate Recordable(stream: seq<Item>) {
    RecordableSoFar(stream) && (stream == [] || !ItemWithNext(stream[|stream| - 1]))
  }

  function MatchedOf(stream: seq<Item>): (events: seq<Item>)
    ensures forall i :: 0 <= i < |events| ==> events[i].Matched? && events[i] in stream
  {
    if stream == [] then []
    else
      var last := stream[|stream| - 1];
      MatchedOf(stream[..|stream| - 1]) + (if last.Matched? then [last] else [])
  }

  lemma {:induction false} TableEventsAreMatched(stream: seq<Item>)
    ensures TableOf(stream).events == MatchedOf(stream)
  {
    if stream != [] {
      TableEventsAreMatched(stream[..|stream| - 1]);
    }
  }

  lemma {:induction false} MatchedKeysDistinct(stream: seq<Item>)
    requires RecordableSoFar(stream)
    ensures NoRepeats(Keys(MatchedOf(stream)))
  {
    if stream != [] {
      var front, last := stream[..|stream| - 1], stream[|stream| - 1];
      MatchedKeysDistinct(front);
      if last.Matched? {
        forall i | 0 <= i < |MatchedOf(front)| ensures MatchedOf(front)[i].Key() != last.Key() {
          assert MatchedOf(front)[i] in front;
        }
      }
    }
  }

  /** The last event of the table is the last item of the stream, unless that is an unmatched run. */
  lemma {:induction false} RunsAtBoundaries(stream: seq<Item>)
    requires RecordableSoFar(stream)
    ensures var t := TableOf(stream);
      && WellFormed(t)
      && (stream != [] && stream[|stream| - 1].Matched? ==> t.events != [] && t.events[|t.events| - 1] == stream[|stream| - 1])
      && (stream != [] && stream[|stream| - 1].Unmatched? ==> |t.events| in t.unmatchedIds)
      && (forall k :: k in t.unmatchedIds && 0 < k <= |t.events| ==> !ItemWithNext(t.events[k - 1]))
  {
    TableStandsForStream(stream);
    if stream != [] {
      var front, last := stream[..|stream| - 1], stream[|stream| - 1];
      FrontIsRecordable(stream);
      RunsAtBoundaries(front);
      hide RecordableSoFar;
      if last.Unmatched? {
        UnmatchedAtBoundary(front, last);
      }
    }
  }

  lemma FrontIsRecordable(stream: seq<Item>)
    requires RecordableSoFar(stream) && stream != []
    ensures RecordableSoFar(stream[..|stream| - 1])
    ensures stream[..|stream| - 1] + [stream[|stream| - 1]] == stream
  {
  }

  lemma UnmatchedAtBoundary(front: seq<Item>, last: Item)
    requires last.Unmatched? && RecordableSoFar(front + [last])
    requires var t := TableOf(front);
      && WellFormed(t)
      && (front != [] && front[|front| - 1].Matched? ==> t.events != [] && t.events[|t.events| - 1] == front[|front| - 1])
      && (front != [] && front[|front| - 1].Unmatched? ==> |t.events| in t.unmatchedIds)
      && (forall k :: k in t.unmatchedIds && 0 < k <= |t.events| ==> !ItemWithNext(t.events[k - 1]))
    ensures var t := AddTo(TableOf(front), last);
      && |t.events| in t.unmatchedIds
      && (forall k :: k in t.unmatchedIds && 0 < k <= |t.events| ==> !ItemWithNext(t.events[k - 1]))
  {
    var t, t', n := TableOf(front), AddTo(TableOf(front), last), |TableOf(front).events|;
    if t'.unmatchedIds == t.unmatchedIds + [n] {
      assert t'.unmatchedIds[|t.unmatchedIds|] == n;
      if n > 0 && front != [] && front[|front| - 1].Matched? {
        assert (front + [last])[|front| - 1] == front[|front| - 1] && (front + [last])[|front|] == last;
      }
    } else {
      assert t.unmatchedIds[|t.unmatchedIds| - 1] == n;
    }
  }

  // ----- a closed table describes what was recorded -----

  function RecordingOf(t: Table): Recording
    requires |t.unmatchedIds| == |t.unmatchedCounts|
  {
    Recording(t.events, UnmatchedMap(t.unmatchedIds, t.unmatchedCounts))
  }

  function EpochOf(t: Table, positions: seq<nat>, line: map<int, int>): Epoch {
    Epoch(|t.events|, positions, Flags(t.withPrevious, |t.events|), t.matchedIndex, line)
  }

  lemma GroupsClosed(stream: seq<Item>)
    requires Recordable(stream)
    ensures var t := TableOf(stream);
      && WellFormed(t) && !LastWithNext(t.events)
      && (forall k :: k in UnmatchedMap(t.unmatchedIds, t.unmatchedCounts) ==> k <= |t.events| && (k == 0 || !ItemWithNext(t.events[k - 1])))
  {
    hide TableOf, UnmatchedMap, WellFormed, RecordableSoFar;
    var t := TableOf(stream);
    RunsAtBoundaries(stream);
    RunsFit(t);
    UnmatchedMapKeys(t.unmatchedIds, t.unmatchedCounts);
    EmptyStreamEmptyTable(stream);
  }

  lemma RunsFit(t: Table)
    requires WellFormed(t)
    ensures |t.unmatchedIds| == |t.unmatchedCounts| && (forall k :: k in t.unmatchedIds ==> k <= |t.events|)
    ensures t.unmatchedIds != [] ==> t.unmatchedIds[|t.unmatchedIds| - 1] <= |t.events|
    ensures forall k :: k == |t.events| && k in t.unmatchedIds ==> t.unmatchedIds != []
  {
  }

  lemma EmptyStreamEmptyTable(stream: seq<Item>)
    ensures stream == [] ==> TableOf(stream).events == []
  {
  }

  lemma EventsAreReal(stream: seq<Item>)
    requires RecordableSoFar(stream)
    ensures var events := TableOf(stream).events;
      && (forall i :: 0 <= i < |events| ==> events[i].Matched? && events[i].clock > 0)
      && NoRepeats(Keys(events))
  {
    TableEventsAreMatched(stream);
    MatchedKeysDistinct(stream);
  }

  lemma ClosedTableIsValid(stream: seq<Item>)
    requires Recordable(stream)
    ensures WellFormed(TableOf(stream)) && ValidRecording(RecordingOf(TableOf(stream)))
  {
    hide RecordableSoFar, TableOf, UnmatchedMap, NoRepeats;
    GroupsClosed(stream);
    EventsAreReal(stream);
  }

  /** The decoded positions lead from the sorted messages to their observed places. */
  lemma PositionsLeadToKeys(keys: seq<Msg>, positions: seq<nat>)
    requires NoRepeats(keys) && InverseOf(positions, ClockOrders(keys))
    ensures |positions| == |keys|
    ensures forall k :: 0 <= k < |keys| ==> positions[k] < |keys| && keys[positions[k]] == Sort(keys)[k]
  {
    var p := ClockOrders(keys);
    ClockOrdersPermute(keys);
    forall k | 0 <= k < |keys| ensures positions[k] < |keys| && keys[positions[k]] == Sort(keys)[k] {
      PermutationIsOnto(p, k);
      var i :| 0 <= i < |p| && p[i] == k;
      assert positions[p[i]] == i;
    }
  }

  lemma DecodedTableDescribes(t: Table, positions: seq<nat>, line: map<int, int>)
    requires WellFormed(t) && ValidRecording(RecordingOf(t))
    requires InverseOf(positions, ClockOrders(Keys(t.events))) && IsLine(Keys(t.events), line)
    ensures Describes(EpochOf(t, positions, line), RecordingOf(t))
  {
    PositionsLeadToKeys(Keys(t.events), positions);
  }
}
