/**
  From recorded streams to the bytes of a chunk and back: what the replayer decodes from the bytes
  makes it reproduce the streams.
 */
module EndToEnd {
  import opened Collections
  import opened EditScripts
  import opened Messages
  import opened EpochTables
  import Codec = ClockDeltaCompression
  import opened IndexDecoder
  import opened LinearPrediction
  import opened RecordLayout
  import opened EpochLines
  import opened ReplayOrdering
  import opened ReplayFidelity
  import opened ReplayRuns
  import opened DecodedTables
  import Epochs = EpochRuns
  import Replays = ChunkRuns
  import Exact = ChunkFaithfulness

  // ----- moves fit their width -----

  lemma {:induction false} MovesStayInList(list: seq<nat>, moves: seq<Move>)
    requires ApplyMoves(list, moves).Some?
    ensures forall k :: 0 <= k < |moves| ==> moves[k].id in list && -|list| <= moves[k].delay <= |list|
    decreases |moves|
  {
    if moves != [] {
      var next := ApplyMove(list, moves[0]).value;
      ApplyMoveKeepsElements(list, moves[0]);
      MovesStayInList(next, moves[1..]);
      forall k | 0 < k < |moves| ensures moves[k].id in list && -|list| <= moves[k].delay <= |list| {
        assert moves[k] == moves[1..][k - 1];
      }
    }
  }

  lemma ApplyMoveKeepsElements(list: seq<nat>, m: Move)
    requires ApplyMove(list, m).Some?
    ensures |ApplyMove(list, m).value| == |list|
    ensures forall x :: x in ApplyMove(list, m).value ==> x in list
  {
  }

  // ----- storing a table -----

  /** The values of the table fit the widths of the record, its vectors the memory. */
  ghost predicate Representable(t: Table) {
    && |t.events| < TWO_31
    && (forall i :: 0 <= i < |t.events| && t.events[i].Matched? ==> 0 <= t.events[i].source < TWO_64 && t.events[i].clock < TWO_64)
    && (forall k :: 0 <= k < |t.matchedIndex| ==> -TWO_31 <= t.matchedIndex[k] < TWO_31)
    && (forall k :: 0 <= k < |t.unmatchedCounts| ==> 0 <= t.unmatchedCounts[k] < TWO_64)
    && Fits(t.withPrevious) && Fits(t.unmatchedIds)
  }

  function Wide(v: seq<int>): seq<u64>
    requires forall k :: 0 <= k < |v| ==> 0 <= v[k] < TWO_64
  {
    v
  }

  function Narrow(v: seq<int>): seq<i32>
    requires forall k :: 0 <= k < |v| ==> -TWO_31 <= v[k] < TWO_31
  {
    v
  }

  /** The stored vectors stand for the table that the stream filled. */
  ghost predicate StandsFor(s: Stored, stream: seq<Item>) {
    var t := TableOf(stream);
    && Recordable(stream) && WellFormed(t)
    && s.count == |t.events| && |s.ranks| == |s.clocks|
    && IsLine(Keys(t.events), LineOf(s.ranks, s.clocks))
    && s.withPrevious == t.withPrevious && Truncated(s.matchedIndex) == t.matchedIndex
    && s.unmatchedIds == t.unmatchedIds && s.unmatchedCounts == t.unmatchedCounts
    && MovesInvert(s, ClockOrders(Keys(t.events)))
  }

  ghost predicate MovesInvert(s: Stored, p: seq<nat>) {
    && |s.ids| == |s.delays| && (forall k :: 0 <= k < |s.ids| ==> s.ids[k] >= 0)
    && DecodeIndices(|p|, Naturals(s.ids), s.delays).Some?
    && InverseOf(DecodeIndices(|p|, Naturals(s.ids), s.delays).value, p)
  }

  function Naturals(v: seq<int>): seq<nat>
    requires forall k :: 0 <= k < |v| ==> v[k] >= 0
  {
    v
  }

  lemma MovesFit(script: seq<Edit>, p: seq<nat>)
    requires IsPermutation(p) && Explains(script, p) && |p| < TWO_31
    ensures var moves := Moves(script);
      forall k :: 0 <= k < |moves| ==> 0 <= moves[k].id < TWO_31 && -TWO_31 <= moves[k].delay < TWO_31
  {
    MovesRebuildObservedOrder(script, p);
    MovesStayInList(Iota(|p|), Moves(script));
  }

  /** compress on one table: the moves in the width of the record. */
  method StoreMoves(keys: seq<Msg>, clockOrders: seq<nat>) returns (ids: seq<i32>, delays: seq<i32>)
    requires NoRepeats(keys) && clockOrders == ClockOrders(keys) && |keys| < TWO_31
    ensures |ids| == |delays| <= |keys| && (forall k :: 0 <= k < |ids| ==> ids[k] >= 0)
    ensures DecodeIndices(|keys|, Naturals(ids), delays).Some?
    ensures InverseOf(DecodeIndices(|keys|, Naturals(ids), delays).value, ClockOrders(keys))
  {
    ClockOrdersPermute(keys);
    ghost var script, rows;
    var moved, delayed;
    moved, delayed, script, rows := Codec.Compress(Iota(|clockOrders|), clockOrders);
    CodecRoundTrip(script, clockOrders);
    MovesFit(script, clockOrders);
    MoveCount(script, clockOrders);
    ids, delays := Narrow(moved), Narrow(delayed);
  }

  lemma LineIsWide(events: seq<Item>, line: map<int, int>)
    requires forall i :: 0 <= i < |events| ==> events[i].Matched? && 0 <= events[i].source < TWO_64 && 0 <= events[i].clock < TWO_64
    requires IsLine(Keys(events), line)
    ensures WideLine(line)
  {
    forall source | source in line ensures 0 <= source < TWO_64 && 0 <= line[source] < TWO_64 {
      assert Msg(source, line[source]) in Keys(events);
    }
  }

  /** The vectors of one table as they are queued for writing. */
  function Assemble(setId: i32, t: Table, ranks: seq<u64>, clocks: seq<u64>, ids: seq<i32>, delays: seq<i32>): Stored
    requires WellFormed(t) && Representable(t)
  {
    Stored(setId, |t.events|, ranks, clocks, Wide(t.withPrevious), SignExtended(Narrow(t.matchedIndex)), Wide(t.unmatchedIds),
           Wide(t.unmatchedCounts), ids, delays)
  }

  lemma AssembledFits(setId: i32, t: Table, ranks: seq<u64>, clocks: seq<u64>, ids: seq<i32>, delays: seq<i32>)
    requires WellFormed(t) && Representable(t)
    requires |ranks| == |clocks| <= |t.events| && |ids| == |delays| <= |t.events|
    ensures var s := Assemble(setId, t, ranks, clocks, ids, delays);
      Storable(s) && s.setId == setId && Truncated(s.matchedIndex) == t.matchedIndex
  {
    IntThroughSizeT(Narrow(t.matchedIndex));
  }

  /** format and compress on the table of one stream. */
  method StoreTable(setId: i32, stream: seq<Item>) returns (s: Stored)
    requires Recordable(stream) && Representable(TableOf(stream))
    ensures Storable(s) && s.setId == setId && StandsFor(s, stream)
  {
    var t := TableOf(stream);
    ClosedTableIsValid(stream);
    var line, clockOrders := CloseTable(t);
    LineIsWide(t.events, line);
    LineIsShort(Keys(t.events), line);
    var ranks, clocks := LineVectors(line);
    var ids, delays := StoreMoves(Keys(t.events), clockOrders);
    AssembledFits(setId, t, ranks, clocks, ids, delays);
    hide Recordable, Representable, TableOf, ValidRecording, IsLine, DecodeIndices, InverseOf, Storable, WellFormed;
    s := Assemble(setId, t, ranks, clocks, ids, delays);
  }

  method CloseTable(t: Table) returns (line: map<int, int>, clockOrders: seq<nat>)
    requires WellFormed(t) && ValidRecording(RecordingOf(t))
    ensures IsLine(Keys(t.events), line) && clockOrders == ClockOrders(Keys(t.events))
  {
    NoTwins(Keys(t.events));
    assert !LastWithNext(t.events);
    var closed := Format(t);
    line, clockOrders := closed.line, closed.clockOrders;
  }

  lemma NoTwins(keys: seq<Msg>)
    requires NoRepeats(keys)
    ensures !HasTwin(keys)
  {
    forall m | m in keys ensures multiset(keys)[m] < 2 {
      TwiceMeansTwoPlaces(keys, m);
    }
  }

  lemma LineIsShort(keys: seq<Msg>, line: map<int, int>)
    requires IsLine(keys, line)
    ensures |line| <= |keys|
  {
    var sources := set m | m in keys :: m.source;
    SourcesSize(keys);
    forall source | source in line ensures source in sources {
      assert Msg(source, line[source]) in keys;
    }
    SubsetSize(line.Keys, sources);
    assert |line| == |line.Keys|;
  }

  lemma {:induction false} SourcesSize(keys: seq<Msg>)
    ensures |set m | m in keys :: m.source| <= |keys|
  {
    if keys == [] {
      assert (set m | m in keys :: m.source) == {};
    } else {
      var front, last := keys[..|keys| - 1], keys[|keys| - 1];
      SourcesSize(front);
      assert keys == front + [last];
      assert (set m | m in keys :: m.source) == (set m | m in front :: m.source) + {last.source};
    }
  }

  // ----- loading a table -----

  datatype Loaded = Loaded(setId: int, epoch: Epoch, unmatched: map<nat, int>) | Unusable

  /** What decode builds from the vectors of one table. */
  function Load(s: Stored): Loaded {
    if s.count < 0 || |s.ranks| != |s.clocks| || |s.ids| != |s.delays| || |s.unmatchedIds| != |s.unmatchedCounts|
       || (exists k :: 0 <= k < |s.ids| && s.ids[k] < 0) || (exists k :: 0 <= k < |s.withPrevious| && s.withPrevious[k] >= s.count) then Unusable
    else
      match DecodeIndices(s.count, Naturals(s.ids), s.delays)
      case None => Unusable
      case Some(positions) =>
        Loaded(s.setId, Epoch(s.count, positions, Flags(s.withPrevious, s.count), Truncated(s.matchedIndex), LineOf(s.ranks, s.clocks)),
               UnmatchedMap(s.unmatchedIds, s.unmatchedCounts))
  }

  method LoadTable(s: Stored) returns (l: Loaded)
    ensures l == Load(s)
  {
    if s.count < 0 || |s.ranks| != |s.clocks| || |s.ids| != |s.delays| || |s.unmatchedIds| != |s.unmatchedCounts| {
      return Unusable;
    }
    if (exists k :: 0 <= k < |s.ids| && s.ids[k] < 0) || (exists k :: 0 <= k < |s.withPrevious| && s.withPrevious[k] >= s.count) {
      return Unusable;
    }
    var line := LineMap(s.ranks, s.clocks);
    var flags := SetFlags(s.withPrevious, s.count);
    var unmatched := FillUnmatched(s.unmatchedIds, s.unmatchedCounts);
    var positions := PrepareDecodeIndices(s.count, Naturals(s.ids), s.delays);
    match positions
    case None => l := Unusable;
    case Some(p) => l := Loaded(s.setId, Epoch(s.count, p, flags, Truncated(s.matchedIndex), line), unmatched);
  }

  /** What is loaded from a stored stream describes the recording of that stream. */
  lemma LoadedReproduces(s: Stored, stream: seq<Item>)
    requires StandsFor(s, stream)
    ensures Reproduces(Load(s), s.setId, stream)
  {
    LoadedDescribes(s, stream);
  }

  lemma LoadedDescribes(s: Stored, stream: seq<Item>)
    requires StandsFor(s, stream)
    ensures var t, l := TableOf(stream), Load(s);
      && WellFormed(t) && ValidRecording(RecordingOf(t)) && l.Loaded? && l.setId == s.setId
      && Describes(l.epoch, RecordingOf(t)) && l.unmatched == RecordingOf(t).unmatched
  {
    var t := TableOf(stream);
    ClosedTableIsValid(stream);
    var positions := DecodeIndices(|t.events|, Naturals(s.ids), s.delays).value;
    DecodedTableDescribes(t, positions, LineOf(s.ranks, s.clocks));
  }

  // ----- record, write, read, replay -----

  /** One matching set of a chunk. */
  datatype Recorded = Recorded(setId: i32, stream: seq<Item>)

  /** The replayed table reproduces the stream, with neighbouring unmatched runs merged. */
  ghost predicate Reproduces(l: Loaded, setId: int, stream: seq<Item>) {
    && Recordable(stream) && WellFormed(TableOf(stream)) && ValidRecording(RecordingOf(TableOf(stream)))
    && l.Loaded? && l.setId == setId && Describes(l.epoch, RecordingOf(TableOf(stream)))
    && l.unmatched == RecordingOf(TableOf(stream)).unmatched
  }

  /**
    The whole way: the streams of all matching sets of a chunk are formatted, compressed and laid
    out as bytes; parsing the bytes ends exactly at their end and every table comes back, in order,
    as one that reproduces its stream.
   */
  method RecordAndReload(chunk: seq<Recorded>) returns (bytes: seq<byte>, loaded: seq<Loaded>, consistent: bool)
    requires forall i :: 0 <= i < |chunk| ==> Recordable(chunk[i].stream) && Representable(TableOf(chunk[i].stream))
    ensures consistent && |loaded| == |chunk|
    ensures forall i :: 0 <= i < |chunk| ==> Reproduces(loaded[i], chunk[i].setId, chunk[i].stream)
  {
    hide StandsFor, Storable, Reproduces, Recordable, Representable, Load, Write, Parse;
    var tables: seq<Stored> := [];
    for i := 0 to |chunk|
      invariant |tables| == i
      invariant forall k :: 0 <= k < i ==> Storable(tables[k]) && tables[k].setId == chunk[k].setId && StandsFor(tables[k], chunk[k].stream)
    {
      var s := StoreTable(chunk[i].setId, chunk[i].stream);
      tables := tables + [s];
    }
    bytes := EncodeTables(tables);
    ParseAllWritten(tables);
    var parsed;
    parsed, consistent := DecodeTables(bytes);
    loaded := [];
    for i := 0 to |parsed|
      invariant |loaded| == i
      invariant forall k :: 0 <= k < i ==> Reproduces(loaded[k], chunk[k].setId, chunk[k].stream)
    {
      LoadedReproduces(parsed[i], chunk[i].stream);
      var l := LoadTable(parsed[i]);
      loaded := loaded + [l];
    }
  }

  /** Replay of a reloaded table, for every interleaving: a prefix of the stream, in the end all of it. */
  lemma ReloadedReplayIsFaithful(l: Loaded, setId: int, stream: seq<Item>, calls: seq<Call>, m: nat)
    requires Reproduces(l, setId, stream) && Possible(l.epoch, RecordingOf(TableOf(stream)), calls) && m <= |calls|
    ensures Run(l.epoch, l.unmatched, calls).Ran?
    ensures Run(l.epoch, l.unmatched, calls).out <= Merged(stream)
    ensures AllArrived(Ts(RecordingOf(TableOf(stream))), AsSet(Arrivals(calls[..m]))) && |calls| >= m + |Merged(stream)| ==>
      Run(l.epoch, l.unmatched, calls).out == Merged(stream)
  {
    var r := RecordingOf(TableOf(stream));
    TableStandsForStream(stream);
    assert Items(r.events, r.unmatched) == Merged(stream);
    ReplayIsFaithful(l.epoch, r, calls);
    if AllArrived(Ts(r), AsSet(Arrivals(calls[..m]))) && |calls| >= m + |Merged(stream)| {
      ReplayCompletes(l.epoch, r, calls, m);
    }
  }

  // ----- several chunks -----

  /** The reloaded tables of a chunk and what they were recorded from: every set once, and only sets with events. */
  ghost predicate ChunkReproduces(loaded: seq<Loaded>, recorded: seq<Recorded>) {
    && |loaded| == |recorded| != 0
    && (forall i :: 0 <= i < |recorded| ==> Reproduces(loaded[i], recorded[i].setId, recorded[i].stream) && recorded[i].stream != [])
    && (forall i, j :: 0 <= i < j < |recorded| ==> recorded[i].setId != recorded[j].setId)
  }

  ghost predicate AllReproduce(loaded: seq<seq<Loaded>>, recorded: seq<seq<Recorded>>) {
    |loaded| == |recorded| != 0 && forall k :: 0 <= k < |recorded| ==> ChunkReproduces(loaded[k], recorded[k])
  }

  ghost function PlanOf(l: Loaded, setId: int, stream: seq<Item>): (p: Epochs.Plan)
    requires Reproduces(l, setId, stream)
    ensures Epochs.ValidPlan(p) && Epochs.StreamOf(p) == Merged(stream)
  {
    TableStandsForStream(stream);
    Epochs.Plan(l.epoch, RecordingOf(TableOf(stream)))
  }

  function IdsOf(recorded: seq<Recorded>): (ids: seq<int>)
    ensures |ids| == |recorded|
  {
    seq(|recorded|, i requires 0 <= i < |recorded| => recorded[i].setId)
  }

  /** The tables by set. */
  ghost function PlanMap(loaded: seq<Loaded>, recorded: seq<Recorded>): (plans: map<int, Epochs.Plan>)
    requires |loaded| == |recorded| && forall i :: 0 <= i < |recorded| ==> Reproduces(loaded[i], recorded[i].setId, recorded[i].stream)
  {
    if recorded == [] then map[]
    else
      var n := |recorded| - 1;
      PlanMap(loaded[..n], recorded[..n])[recorded[n].setId := PlanOf(loaded[n], recorded[n].setId, recorded[n].stream)]
  }

  ghost function ChunkOf(loaded: seq<Loaded>, recorded: seq<Recorded>): Replays.Chunk
    requires ChunkReproduces(loaded, recorded)
  {
    Replays.Chunk(IdsOf(recorded), PlanMap(loaded, recorded))
  }

  ghost function ChunksOf(loaded: seq<seq<Loaded>>, recorded: seq<seq<Recorded>>): (chunks: seq<Replays.Chunk>)
    requires AllReproduce(loaded, recorded)
    ensures |chunks| == |recorded|
  {
    seq(|recorded|, k requires 0 <= k < |recorded| => ChunkOf(loaded[k], recorded[k]))
  }

  /** The recorded stream of a set in one chunk. */
  function StreamIn(recorded: seq<Recorded>, id: int): seq<Item> {
    if recorded == [] then []
    else
      var last := recorded[|recorded| - 1];
      if last.setId == id then Merged(last.stream) else StreamIn(recorded[..|recorded| - 1], id)
  }

  /** The recorded streams of a set in all chunks, one behind the other. */
  function MergedAll(recorded: seq<seq<Recorded>>, id: int): seq<Item> {
    if recorded == [] then [] else MergedAll(recorded[..|recorded| - 1], id) + StreamIn(recorded[|recorded| - 1], id)
  }

  lemma {:induction false} PlanMapIs(loaded: seq<Loaded>, recorded: seq<Recorded>, id: int)
    requires |loaded| == |recorded| && forall i :: 0 <= i < |recorded| ==> Reproduces(loaded[i], recorded[i].setId, recorded[i].stream)
    requires forall i :: 0 <= i < |recorded| ==> recorded[i].stream != []
    ensures id in PlanMap(loaded, recorded) <==> id in IdsOf(recorded)
    ensures id in PlanMap(loaded, recorded) ==> Epochs.ValidPlan(PlanMap(loaded, recorded)[id]) && Replays.Nonempty(PlanMap(loaded, recorded)[id])
    ensures Epochs.StreamOf(if id in PlanMap(loaded, recorded) then PlanMap(loaded, recorded)[id] else Epochs.NoPlan()) == StreamIn(recorded, id)
  {
    hide Reproduces, Epochs.ValidPlan, Epochs.StreamOf, Replays.Nonempty, PlanOf, Merged, Epochs.NoPlan;
    if recorded == [] {
      Epochs.NoPlanIsValid();
    } else {
      var n := |recorded| - 1;
      PlanMapIs(loaded[..n], recorded[..n], id);
      assert IdsOf(recorded) == IdsOf(recorded[..n]) + [recorded[n].setId];
      PlanIsNonempty(loaded[n], recorded[n].setId, recorded[n].stream);
    }
  }

  lemma PlanIsNonempty(l: Loaded, setId: int, stream: seq<Item>)
    requires Reproduces(l, setId, stream) && stream != []
    ensures Replays.Nonempty(PlanOf(l, setId, stream))
  {
    MergedIsNonempty(stream);
    NothingRecorded(PlanOf(l, setId, stream));
  }

  lemma NothingRecorded(p: Epochs.Plan)
    ensures !Replays.Nonempty(p) ==> Epochs.StreamOf(p) == []
  {
  }

  lemma MergedIsNonempty(stream: seq<Item>)
    requires stream != []
    ensures Merged(stream) != []
  {
  }

  lemma ChunkIsValid(loaded: seq<Loaded>, recorded: seq<Recorded>)
    requires ChunkReproduces(loaded, recorded)
    ensures Replays.ValidChunk(ChunkOf(loaded, recorded))
    ensures forall id :: Epochs.ValidPlan(Replays.PlanAt(ChunkOf(loaded, recorded), id))
    ensures forall id :: Epochs.StreamOf(Replays.PlanAt(ChunkOf(loaded, recorded), id)) == StreamIn(recorded, id)
  {
    hide Reproduces, Epochs.ValidPlan, Epochs.StreamOf, Replays.Nonempty, PlanMap, StreamIn, Epochs.NoPlan;
    Epochs.NoPlanIsValid();
    forall id ensures id in PlanMap(loaded, recorded) <==> id in IdsOf(recorded)
      ensures id in PlanMap(loaded, recorded) ==> Replays.Nonempty(PlanMap(loaded, recorded)[id])
      ensures Epochs.ValidPlan(Replays.PlanAt(ChunkOf(loaded, recorded), id))
      ensures Epochs.StreamOf(Replays.PlanAt(ChunkOf(loaded, recorded), id)) == StreamIn(recorded, id)
    {
      PlanMapIs(loaded, recorded, id);
    }
  }

  lemma {:induction false} StreamIsMerged(loaded: seq<seq<Loaded>>, recorded: seq<seq<Recorded>>, id: int, k: nat)
    requires AllReproduce(loaded, recorded) && k <= |recorded|
    ensures Epochs.StreamTo(Replays.PlansOf(ChunksOf(loaded, recorded), id), k) == MergedAll(recorded[..k], id)
  {
    hide ChunkReproduces, StreamIn, Epochs.StreamOf, ChunkOf;
    if k > 0 {
      StreamIsMerged(loaded, recorded, id, k - 1);
      assert recorded[..k][..k - 1] == recorded[..k - 1];
      ChunkIsValid(loaded[k - 1], recorded[k - 1]);
      assert Replays.PlansOf(ChunksOf(loaded, recorded), id)[k - 1] == Replays.PlanAt(ChunkOf(loaded[k - 1], recorded[k - 1]), id);
    }
  }

  /** No message of a set is recorded twice. */
  ghost predicate MessagesDiffer(loaded: seq<seq<Loaded>>, recorded: seq<seq<Recorded>>)
    requires AllReproduce(loaded, recorded)
  {
    forall id :: NoRepeats(Epochs.AllKeys(Replays.PlansOf(ChunksOf(loaded, recorded), id)))
  }

  lemma ReloadedChunks(loaded: seq<seq<Loaded>>, recorded: seq<seq<Recorded>>)
    requires AllReproduce(loaded, recorded) && MessagesDiffer(loaded, recorded)
    ensures Replays.ValidChunks(ChunksOf(loaded, recorded)) && ChunksOf(loaded, recorded) != []
    ensures forall id :: Epochs.Stream(Replays.PlansOf(ChunksOf(loaded, recorded), id)) == MergedAll(recorded, id)
  {
    hide *;
    var chunks := ChunksOf(loaded, recorded);
    HowMany(loaded, recorded);
    forall k | 0 <= k < |chunks| ensures Replays.ValidChunk(chunks[k]) {
      OneChunk(loaded, recorded, k);
    }
    forall id ensures Epochs.ValidPlans(Replays.PlansOf(chunks, id)) && Epochs.Stream(Replays.PlansOf(chunks, id)) == MergedAll(recorded, id) {
      forall k | 0 <= k < |chunks| ensures Epochs.ValidPlan(Replays.PlansOf(chunks, id)[k]) {
        OneChunk(loaded, recorded, k);
        OnePlan(chunks, id, k);
      }
      SetIsValid(loaded, recorded, id);
      StreamIsMerged(loaded, recorded, id, |recorded|);
      Epochs.StreamIs(Replays.PlansOf(chunks, id));
      assert recorded[..|recorded|] == recorded;
    }
    ChunksAreValid(chunks);
  }

  lemma HowMany(loaded: seq<seq<Loaded>>, recorded: seq<seq<Recorded>>)
    requires AllReproduce(loaded, recorded)
    ensures |ChunksOf(loaded, recorded)| == |recorded| == |loaded| != 0
  {
    hide ChunkReproduces;
  }

  lemma OneChunk(loaded: seq<seq<Loaded>>, recorded: seq<seq<Recorded>>, k: nat)
    requires AllReproduce(loaded, recorded) && k < |recorded| == |ChunksOf(loaded, recorded)|
    ensures Replays.ValidChunk(ChunksOf(loaded, recorded)[k])
    ensures forall id :: Epochs.ValidPlan(Replays.PlanAt(ChunksOf(loaded, recorded)[k], id))
  {
    hide ChunkReproduces, ChunkOf, Replays.ValidChunk, Epochs.ValidPlan, Replays.PlanAt, StreamIn, Epochs.StreamOf;
    ChunkIsValid(loaded[k], recorded[k]);
  }

  lemma OnePlan(chunks: seq<Replays.Chunk>, id: int, k: nat)
    requires k < |chunks|
    ensures Replays.PlansOf(chunks, id)[k] == Replays.PlanAt(chunks[k], id)
  {
  }

  lemma SetIsValid(loaded: seq<seq<Loaded>>, recorded: seq<seq<Recorded>>, id: int)
    requires AllReproduce(loaded, recorded) && MessagesDiffer(loaded, recorded)
    requires var plans := Replays.PlansOf(ChunksOf(loaded, recorded), id); plans != [] && forall k :: 0 <= k < |plans| ==> Epochs.ValidPlan(plans[k])
    ensures Epochs.ValidPlans(Replays.PlansOf(ChunksOf(loaded, recorded), id))
  {
    hide AllReproduce, ChunksOf, Replays.PlansOf, Epochs.ValidPlan, NoRepeats, Epochs.KeysFrom;
    var plans := Replays.PlansOf(ChunksOf(loaded, recorded), id);
    assert NoRepeats(Epochs.AllKeys(plans));
  }

  lemma ChunksAreValid(chunks: seq<Replays.Chunk>)
    requires chunks != [] && (forall k :: 0 <= k < |chunks| ==> Replays.ValidChunk(chunks[k]))
    requires forall id :: Epochs.ValidPlans(Replays.PlansOf(chunks, id))
    ensures Replays.ValidChunks(chunks)
  {
    hide Replays.ValidChunk, Epochs.ValidPlans, Replays.PlansOf;
  }

  /** The run hands out prefixes of what was recorded. */
  ghost predicate ReplaysFaithfully(loaded: seq<seq<Loaded>>, recorded: seq<seq<Recorded>>, turns: seq<Replays.Turn>)
    requires AllReproduce(loaded, recorded) && ChunksOf(loaded, recorded) != []
  {
    var r := Replays.Run(ChunksOf(loaded, recorded), turns);
    r.Ran? && forall id :: id in r.outs ==> r.outs[id] <= MergedAll(recorded, id)
  }

  lemma FaithfulMeans(loaded: seq<seq<Loaded>>, recorded: seq<seq<Recorded>>, turns: seq<Replays.Turn>)
    requires AllReproduce(loaded, recorded) && ChunksOf(loaded, recorded) != []
    requires forall id :: Epochs.Stream(Replays.PlansOf(ChunksOf(loaded, recorded), id)) == MergedAll(recorded, id)
    ensures ReplaysFaithfully(loaded, recorded, turns) <==> Replays.Faithful(ChunksOf(loaded, recorded), turns)
  {
    hide AllReproduce, ChunksOf, Replays.PlansOf, Epochs.Stream, MergedAll, Replays.Run;
  }

  /**
    Record, write, read and replay over all chunks and sets: every possible run opens all chunks,
    decodes without a failure and hands out prefixes of the recorded streams if and only if the
    reloaded record is replayable.
   */
  lemma ReloadedRecordIsFaithful(loaded: seq<seq<Loaded>>, recorded: seq<seq<Recorded>>)
    requires AllReproduce(loaded, recorded) && MessagesDiffer(loaded, recorded)
    ensures Replays.ValidChunks(ChunksOf(loaded, recorded)) && ChunksOf(loaded, recorded) != []
    ensures (forall turns :: Replays.Possible(ChunksOf(loaded, recorded), turns) ==> ReplaysFaithfully(loaded, recorded, turns))
      <==> Replays.Replayable(ChunksOf(loaded, recorded))
  {
    hide *;
    ReloadedChunks(loaded, recorded);
    var chunks := ChunksOf(loaded, recorded);
    forall turns ensures ReplaysFaithfully(loaded, recorded, turns) <==> Replays.Faithful(chunks, turns) {
      FaithfulMeans(loaded, recorded, turns);
    }
    Exact.FaithfulIffReplayable(chunks);
  }
}
