/**
  Whole replays of all matching sets of one rank.  The tables of a chunk are replayed side by side;
  the call that finishes the last of them opens the next chunk, which may fail.
 */
module ChunkRuns {
  import opened Collections
  import opened EditScripts
  import opened Messages
  import opened EpochTables
  import opened ReplayOrdering
  import opened ReplayFidelity
  import opened EpochRuns
  import opened ChunkOpening

  /** The tables of a chunk, by matching set; `ids` is the order in which decode visits them. */
  datatype Chunk = Chunk(ids: seq<int>, plans: map<int, Plan>)

  /** mc_recv_ranks: the sources of all tables. */
  function Sources(chunk: Chunk): set<int> {
    set id, s | id in chunk.plans && s in chunk.plans[id].epoch.line :: s
  }

  function PlanAt(chunk: Chunk, id: int): Plan {
    if id in chunk.plans then chunk.plans[id] else NoPlan()
  }

  /** The tables of one matching set. */
  function PlansOf(chunks: seq<Chunk>, id: int): (plans: seq<Plan>)
    ensures |plans| == |chunks|
  {
    seq(|chunks|, k requires 0 <= k < |chunks| => PlanAt(chunks[k], id))
  }

  /** All matching sets of the record. */
  function RecordedSets(chunks: seq<Chunk>): set<int> {
    set k, id | 0 <= k < |chunks| && id in chunks[k].plans :: id
  }

  /** A chunk has a table for every set in which something was recorded, and only for these. */
  ghost predicate ValidChunk(chunk: Chunk) {
    && chunk.ids != [] && Distinct(chunk.ids) && (forall id :: id in chunk.ids <==> id in chunk.plans)
    && forall id :: id in chunk.plans ==> Nonempty(chunk.plans[id])
  }

  ghost predicate Nonempty(p: Plan) {
    p.recording.events != [] || p.recording.unmatched != map[]
  }

  ghost predicate ValidChunks(chunks: seq<Chunk>) {
    && chunks != [] && (forall k {:trigger ValidChunk(chunks[k])} :: 0 <= k < |chunks| ==> ValidChunk(chunks[k]))
    && forall id {:trigger ValidPlans(PlansOf(chunks, id))} :: ValidPlans(PlansOf(chunks, id))
  }

  // ----- a run -----

  datatype Reason = Decoder(failure: Failure) | Opening(error: OpenError) | NoSuchSet | NoSuchRank

  /**
    Chunk c is being replayed.  If it was just opened, the set whose call opened it is asked for once
    more, by the same call of progress_decoding.
   */
  datatype Replay =
    | Ran(c: nat, known: Bounds, tables: map<int, Progress>, outs: map<int, seq<Item>>, again: Option<int>)
    | Broke(reason: Reason)

  predicate Fits(chunks: seq<Chunk>, r: Replay) {
    r.Ran? ==> r.c < |chunks| && r.tables.Keys == RecordedSets(chunks) && r.outs.Keys == RecordedSets(chunks)
  }

  function StartReplay(chunks: seq<Chunk>): (r: Replay)
    requires chunks != []
    ensures Fits(chunks, r)
  {
    match Open(map[], chunks[0].ids, Sources(chunks[0]))
    case Refused(error) => Broke(Opening(error))
    case Opens(known) =>
      Ran(0, known, map id | id in RecordedSets(chunks) :: Start(PlanAt(chunks[0], id).recording.unmatched),
          map id | id in RecordedSets(chunks) :: [], None)
  }

  predicate AllDone(chunk: Chunk, tables: map<int, Progress>) {
    forall id :: id in chunk.plans ==> id in tables && DecodedAll(chunk.plans[id].epoch, tables[id])
  }

  /** One call for one set: it looks the set and its bounds up, then decodes. */
  function Call(chunks: seq<Chunk>, r: Replay, id: int, bound: Msg, localClock: int): (next: Replay)
    requires r.Ran? && Fits(chunks, r)
    ensures Fits(chunks, next)
  {
    var chunk := chunks[r.c];
    if id !in chunk.plans then Broke(NoSuchSet)
    else if id !in r.known || !(chunk.plans[id].epoch.line.Keys <= r.known[id].Keys) then Broke(NoSuchRank)
    else
      assert id in RecordedSets(chunks);
      match Step(chunk.plans[id].epoch, r.tables[id], bound, localClock)
      case Failed(failure) => Broke(Decoder(failure))
      case Decoded(s, emitted, _) =>
        var next := r.(tables := r.tables[id := s], outs := r.outs[id := r.outs[id] + emitted], again := None);
        if AllDone(chunk, next.tables) && r.c + 1 < |chunks| then NextChunk(chunks, next, id) else next
  }

  function NextChunk(chunks: seq<Chunk>, r: Replay, id: int): (next: Replay)
    requires r.Ran? && Fits(chunks, r) && r.c + 1 < |chunks|
    ensures Fits(chunks, next)
  {
    var chunk := chunks[r.c + 1];
    match Open(r.known, chunk.ids, Sources(chunk))
    case Refused(error) => Broke(Opening(error))
    case Opens(known) =>
      Ran(r.c + 1, known, map s | s in r.tables :: Opened(PlanAt(chunk, s), r.tables[s]), r.outs, Some(id))
  }

  /** A call for a set, and the messages of the set that arrived in front of it. */
  datatype Turn = Turn(id: int, arrivals: seq<Msg>, bound: Msg, localClock: int)

  function Arrive(r: Replay, id: int, msgs: seq<Msg>): Replay
    requires r.Ran?
  {
    if id in r.tables then r.(tables := r.tables[id := r.tables[id].(waiting := r.tables[id].waiting + msgs)]) else r
  }

  function TurnTaken(chunks: seq<Chunk>, r: Replay, t: Turn): (next: Replay)
    requires r.Ran? && Fits(chunks, r)
    ensures Fits(chunks, next)
  {
    Call(chunks, Arrive(r, t.id, t.arrivals), t.id, t.bound, t.localClock)
  }

  function Run(chunks: seq<Chunk>, turns: seq<Turn>): (r: Replay)
    requires chunks != []
    ensures Fits(chunks, r)
  {
    if turns == [] then StartReplay(chunks)
    else
      var r := Run(chunks, turns[..|turns| - 1]);
      if r.Broke? then r else TurnTaken(chunks, r, turns[|turns| - 1])
  }

  /** What arrived for one set, in order. */
  function ArrivedAt(turns: seq<Turn>, id: int): seq<Msg> {
    if turns == [] then []
    else
      var last := turns[|turns| - 1];
      ArrivedAt(turns[..|turns| - 1], id) + (if last.id == id then last.arrivals else [])
  }

  /** The set is in the chunk, or asked for once more, and the bound is sound for its table. */
  ghost predicate TurnFits(chunks: seq<Chunk>, r: Replay, arrived: set<Msg>, t: Turn)
    requires r.Ran? && Fits(chunks, r)
  {
    && (if r.again.Some? then t.id == r.again.value else t.id in chunks[r.c].plans)
    && SoundBound(TotalOf(PlanAt(chunks[r.c], t.id)), arrived, t.bound)
  }

  ghost predicate TurnsFit(chunks: seq<Chunk>, turns: seq<Turn>)
    requires chunks != []
  {
    turns == [] ||
    (var n := |turns| - 1;
      && TurnsFit(chunks, turns[..n])
      && (Run(chunks, turns[..n]).Ran? ==> TurnFits(chunks, Run(chunks, turns[..n]), AsSet(ArrivedAt(turns, turns[n].id)), turns[n])))
  }

  /** The sets are called in any order, and their messages arrive in any order that keeps each source's. */
  ghost predicate Possible(chunks: seq<Chunk>, turns: seq<Turn>)
    requires chunks != []
  {
    (forall id :: ArriveOnce(AllKeys(PlansOf(chunks, id)), ArrivedAt(turns, id))) && TurnsFit(chunks, turns)
  }

  /** No call failed, every chunk could be opened, and every set was handed out a prefix of its recorded stream. */
  ghost predicate Faithful(chunks: seq<Chunk>, turns: seq<Turn>)
    requires chunks != []
  {
    var r := Run(chunks, turns);
    r.Ran? && forall id :: id in r.outs ==> r.outs[id] <= Stream(PlansOf(chunks, id))
  }

  // ----- the exact condition -----

  /** Chunk k has the sets of the first chunk, as many sources as sets, and no source that the first one lacks. */
  ghost predicate ChunkFits(chunks: seq<Chunk>, k: nat)
    requires k < |chunks|
  {
    && chunks[k].plans.Keys == chunks[0].plans.Keys && Sources(chunks[k]) <= Sources(chunks[0])
    && (k > 0 ==> |Sources(chunks[k])| == |chunks[0].plans|)
  }

  /** Behind chunk k every set was cut in clock order for every source. */
  ghost predicate CutsAt(chunks: seq<Chunk>, k: nat)
    requires k < |chunks|
  {
    forall id {:trigger PlansOf(chunks, id)} :: id in chunks[0].plans ==> CutAt(PlansOf(chunks, id), k)
  }

  ghost predicate GoodTo(chunks: seq<Chunk>, n: nat)
    requires n <= |chunks|
  {
    forall k {:trigger CutsAt(chunks, k)} {:trigger ChunkFits(chunks, k)} :: 0 <= k < n ==> ChunkFits(chunks, k) && CutsAt(chunks, k)
  }

  ghost predicate Replayable(chunks: seq<Chunk>)
    requires chunks != []
  {
    |Sources(chunks[0])| <= MAX_MC_LENGTH && GoodTo(chunks, |chunks|)
  }

  // ----- the invariant -----

  ghost function ArrivedFor(got: set<Tagged>, id: int): set<Msg> {
    set x | x in got && x.id == id :: x.msg
  }

  ghost predicate SetInv(plans: seq<Plan>, c: nat, s: Progress, out: seq<Item>, arrived: set<Msg>) {
    ValidPlans(plans) && EpochInv(plans, c, s, out, arrived)
  }

  ghost predicate SetFresh(plans: seq<Plan>, c: nat, s: Progress, out: seq<Item>, arrived: set<Msg>) {
    ValidPlans(plans) && Fresh(plans, c, s, out, arrived)
  }

  ghost predicate SetOk(chunks: seq<Chunk>, r: Replay, got: set<Tagged>, id: int)
    requires r.Ran?
  {
    id in r.tables && id in r.outs && SetInv(PlansOf(chunks, id), r.c, r.tables[id], r.outs[id], ArrivedFor(got, id))
  }

  ghost predicate SetBegins(chunks: seq<Chunk>, r: Replay, got: set<Tagged>, id: int)
    requires r.Ran?
  {
    id in r.tables && id in r.outs && SetFresh(PlansOf(chunks, id), r.c, r.tables[id], r.outs[id], ArrivedFor(got, id))
  }

  /** The known bounds are those of the first chunk. */
  ghost predicate KnownIs(chunks: seq<Chunk>, known: Bounds)
    requires chunks != []
  {
    known.Keys == chunks[0].plans.Keys && forall id :: id in known ==> known[id].Keys == Sources(chunks[0])
  }

  ghost predicate SetsOk(chunks: seq<Chunk>, r: Replay, got: set<Tagged>)
    requires chunks != []
  {
    && r.Ran? && Fits(chunks, r) && KnownIs(chunks, r.known)
    && forall id {:trigger SetOk(chunks, r, got, id)} :: id in chunks[0].plans ==> SetOk(chunks, r, got, id)
  }

  predicate Unfinished(chunks: seq<Chunk>, r: Replay, id: int)
    requires r.Ran? && Fits(chunks, r)
  {
    id in chunks[r.c].plans && id in r.tables && !DecodedAll(chunks[r.c].plans[id].epoch, r.tables[id])
  }

  /** Every set is in order, only of the last chunk all tables can be done, and a set asked for once more has just begun. */
  ghost predicate RunInv(chunks: seq<Chunk>, r: Replay, got: set<Tagged>)
    requires chunks != []
  {
    && SetsOk(chunks, r, got) && (AllDone(chunks[r.c], r.tables) ==> r.c + 1 == |chunks|)
    && (r.again.Some? ==> Unfinished(chunks, r, r.again.value))
  }

  // ----- one call -----

  lemma PlansAre(chunks: seq<Chunk>, id: int, k: nat)
    requires ValidChunks(chunks) && k < |chunks|
    ensures |PlansOf(chunks, id)| == |chunks| && ValidPlans(PlansOf(chunks, id)) && PlansOf(chunks, id)[k] == PlanAt(chunks[k], id)
    ensures id in chunks[k].plans ==> PlanAt(chunks[k], id) == chunks[k].plans[id]
  {
    hide ValidPlans, ValidChunk, NoPlan;
    assert PlansOf(chunks, id)[k] == PlanAt(chunks[k], id);
  }

  lemma OneSet(chunks: seq<Chunk>, r: Replay, got: set<Tagged>, id: int)
    requires chunks != [] && SetsOk(chunks, r, got) && id in chunks[0].plans
    ensures r.Ran? && Fits(chunks, r) && r.c < |chunks| && KnownIs(chunks, r.known)
    ensures id in r.tables && id in r.outs && SetInv(PlansOf(chunks, id), r.c, r.tables[id], r.outs[id], ArrivedFor(got, id))
    ensures id in r.known && r.known[id].Keys == Sources(chunks[0])
  {
    hide SetInv, PlansOf, ArrivedFor, Sources;
    assert SetOk(chunks, r, got, id);
  }

  lemma LineIsKnown(chunk: Chunk, id: int)
    requires id in chunk.plans
    ensures chunk.plans[id].epoch.line.Keys <= Sources(chunk)
  {
    forall s | s in chunk.plans[id].epoch.line ensures s in Sources(chunk) {
      assert id in chunk.plans;
    }
  }

  lemma CallIs(chunks: seq<Chunk>, r: Replay, id: int, bound: Msg, localClock: int, s: Progress, emitted: seq<Item>) returns (next: Replay)
    requires r.Ran? && Fits(chunks, r) && id in chunks[r.c].plans && id in r.tables && id in r.outs && id in r.known
    requires chunks[r.c].plans[id].epoch.line.Keys <= r.known[id].Keys
    requires var o := Step(chunks[r.c].plans[id].epoch, r.tables[id], bound, localClock); o.Decoded? && s == o.next && emitted == o.emitted
    ensures next == r.(tables := r.tables[id := s], outs := r.outs[id := r.outs[id] + emitted], again := None) && Fits(chunks, next)
    ensures Call(chunks, r, id, bound, localClock) ==
      if AllDone(chunks[r.c], next.tables) && r.c + 1 < |chunks| then NextChunk(chunks, next, id) else next
  {
    hide Step, AllDone, NextChunk, RecordedSets;
    next := r.(tables := r.tables[id := s], outs := r.outs[id := r.outs[id] + emitted], again := None);
    assert next.tables.Keys == r.tables.Keys && next.outs.Keys == r.outs.Keys;
  }

  lemma CallStops(chunks: seq<Chunk>, r: Replay, id: int, bound: Msg, localClock: int)
    requires r.Ran? && Fits(chunks, r)
    requires !(id in chunks[r.c].plans && id in r.known && chunks[r.c].plans[id].epoch.line.Keys <= r.known[id].Keys)
    ensures Call(chunks, r, id, bound, localClock).Broke? && !Call(chunks, r, id, bound, localClock).reason.Decoder?
  {
    hide Step, AllDone, NextChunk, RecordedSets;
  }

  /** One call in a chunk that was cut in clock order: it continues the stream of its set and leaves the others alone. */
  lemma CallKeeps(chunks: seq<Chunk>, r: Replay, got: set<Tagged>, id: int, bound: Msg, localClock: int)
    returns (next: Replay, emitted: seq<Item>)
    requires ValidChunks(chunks) && SetsOk(chunks, r, got) && r.c < |chunks| && ChunkFits(chunks, r.c) && id in chunks[0].plans
    requires CutAt(PlansOf(chunks, id), r.c) && SoundBound(TotalOf(PlanAt(chunks[r.c], id)), ArrivedFor(got, id), bound)
    ensures next.Ran? && Fits(chunks, next) && r.c < |chunks| && SetsOk(chunks, next, got)
    ensures id in next.tables && id in next.outs && id in chunks[r.c].plans && id in r.tables && id in r.outs
    ensures next == r.(tables := r.tables[id := next.tables[id]], outs := r.outs[id := next.outs[id]], again := None)
    ensures var o := Step(chunks[r.c].plans[id].epoch, r.tables[id], bound, localClock);
      o.Decoded? && next.tables[id] == o.next && emitted == o.emitted && next.outs[id] == r.outs[id] + emitted
    ensures Call(chunks, r, id, bound, localClock) ==
      if AllDone(chunks[r.c], next.tables) && r.c + 1 < |chunks| then NextChunk(chunks, next, id) else next
    ensures AllArrived(AllKeys(PlansOf(chunks, id)), ArrivedFor(got, id)) && !DecodedAll(chunks[r.c].plans[id].epoch, r.tables[id]) ==>
      emitted != []
  {
    hide *;
    SomeChunk(chunks);
    OneSet(chunks, r, got, id);
    InChunk(chunks, r.c, id);
    PlansAre(chunks, id, r.c);
    LineIsKnown(chunks[r.c], id);
    var plans := PlansOf(chunks, id);
    SetInvIs(plans, r.c, r.tables[id], r.outs[id], ArrivedFor(got, id));
    var s;
    s, emitted := EpochCall(plans, r.c, r.tables[id], r.outs[id], ArrivedFor(got, id), bound, localClock);
    next := CallIs(chunks, r, id, bound, localClock, s, emitted);
    SetInvFrom(plans, r.c, s, r.outs[id] + emitted, ArrivedFor(got, id));
    OneSetChanged(chunks, r, got, next, got, id);
    if AllArrived(AllKeys(plans), ArrivedFor(got, id)) {
      PlanIsValid(plans, r.c);
      AllOfEpochArrived(plans, r.c, ArrivedFor(got, id));
    }
  }

  lemma SomeChunk(chunks: seq<Chunk>)
    requires ValidChunks(chunks)
    ensures chunks != []
  {
  }

  lemma InChunk(chunks: seq<Chunk>, k: nat, id: int)
    requires k < |chunks| && ChunkFits(chunks, k)
    ensures id in chunks[0].plans <==> id in chunks[k].plans
    ensures Sources(chunks[k]) <= Sources(chunks[0])
  {
    hide Sources;
    assert id in chunks[0].plans.Keys <==> id in chunks[k].plans.Keys;
  }

  lemma SetInvIs(plans: seq<Plan>, c: nat, s: Progress, out: seq<Item>, arrived: set<Msg>)
    requires SetInv(plans, c, s, out, arrived)
    ensures ValidPlans(plans) && EpochInv(plans, c, s, out, arrived)
  {
    hide ValidPlans, EpochInv;
  }

  lemma SetInvFrom(plans: seq<Plan>, c: nat, s: Progress, out: seq<Item>, arrived: set<Msg>)
    requires ValidPlans(plans) && EpochInv(plans, c, s, out, arrived)
    ensures SetInv(plans, c, s, out, arrived)
  {
    hide ValidPlans, EpochInv;
  }

  /** Only one set changes, and what arrived for the others stays the same. */
  lemma OneSetChanged(chunks: seq<Chunk>, r: Replay, got: set<Tagged>, next: Replay, got': set<Tagged>, id: int)
    requires chunks != [] && SetsOk(chunks, r, got) && id in r.tables && id in r.outs && next.Ran? && id in next.tables && id in next.outs
    requires next == r.(tables := r.tables[id := next.tables[id]], outs := r.outs[id := next.outs[id]], again := next.again)
    requires forall o :: o != id ==> ArrivedFor(got', o) == ArrivedFor(got, o)
    requires SetInv(PlansOf(chunks, id), next.c, next.tables[id], next.outs[id], ArrivedFor(got', id))
    ensures SetsOk(chunks, next, got')
  {
    hide SetInv, PlansOf, ArrivedFor, Sources, RecordedSets;
    forall o | o in chunks[0].plans ensures SetOk(chunks, next, got', o) {
      assert SetOk(chunks, r, got, o);
    }
  }

  // ----- the next chunk -----

  lemma OpensNext(chunks: seq<Chunk>, known: Bounds, k: nat)
    requires ValidChunks(chunks) && KnownIs(chunks, known) && 0 < k < |chunks| && ChunkFits(chunks, k)
    requires |Sources(chunks[0])| <= MAX_MC_LENGTH
    ensures Open(known, chunks[k].ids, Sources(chunks[k])) == Opens(known)
  {
    hide *;
    SomeChunk(chunks);
    IdsAreKeys(chunks, k);
    FitsLike(chunks, known, k);
    SubsetSize(Sources(chunks[k]), Sources(chunks[0]));
    LaterChunkOpensIff(known, chunks[k].ids, Sources(chunks[k]));
  }

  lemma FitsLike(chunks: seq<Chunk>, known: Bounds, k: nat)
    requires 0 < k < |chunks| && KnownIs(chunks, known) && ChunkFits(chunks, k)
    ensures chunks[k].plans.Keys == known.Keys && |known| == |chunks[k].plans.Keys| == |Sources(chunks[k])|
    ensures Sources(chunks[k]) <= Sources(chunks[0])
  {
    hide Sources;
    assert |known| == |known.Keys| && |chunks[0].plans| == |chunks[0].plans.Keys|;
  }

  lemma IdsAreKeys(chunks: seq<Chunk>, k: nat)
    requires ValidChunks(chunks) && k < |chunks|
    ensures chunks[k].ids != [] && Distinct(chunks[k].ids) && SetOf(chunks[k].ids) == chunks[k].plans.Keys
    ensures |chunks[k].ids| == |chunks[k].plans.Keys|
    ensures forall id :: id in chunks[k].ids <==> id in chunks[k].plans.Keys
  {
    assert ValidChunk(chunks[k]);
    SetSize(chunks[k].ids);
  }

  /** When all tables of a chunk are done, the tables of the next one begin. */
  lemma ChunkEnds(chunks: seq<Chunk>, r: Replay, got: set<Tagged>, known: Bounds, id: int) returns (next: Replay)
    requires ValidChunks(chunks) && SetsOk(chunks, r, got) && r.c + 1 < |chunks| && ChunkFits(chunks, r.c) && AllDone(chunks[r.c], r.tables)
    requires Open(r.known, chunks[r.c + 1].ids, Sources(chunks[r.c + 1])) == Opens(known)
    ensures next == NextChunk(chunks, r, id) && next.Ran? && next.c == r.c + 1 && next.known == known && next.again == Some(id) && next.outs == r.outs
    ensures Fits(chunks, next)
    ensures forall o :: o in chunks[0].plans ==> SetBegins(chunks, next, got, o)
  {
    SomeChunk(chunks);
    next := NextChunk(chunks, r, id);
    forall o | o in chunks[0].plans ensures SetBegins(chunks, next, got, o) {
      hide *;
      SetEnds(chunks, r, got, o);
      NextTable(chunks, r, got, known, id, o);
    }
  }

  lemma SetEnds(chunks: seq<Chunk>, r: Replay, got: set<Tagged>, o: int)
    requires ValidChunks(chunks) && SetsOk(chunks, r, got) && r.c + 1 < |chunks| && ChunkFits(chunks, r.c) && AllDone(chunks[r.c], r.tables)
    requires o in chunks[0].plans
    ensures o in r.tables && o in r.outs
    ensures SetFresh(PlansOf(chunks, o), r.c + 1, Opened(PlanAt(chunks[r.c + 1], o), r.tables[o]), r.outs[o], ArrivedFor(got, o))
  {
    hide *;
    SomeChunk(chunks);
    OneSet(chunks, r, got, o);
    InChunk(chunks, r.c, o);
    PlansAre(chunks, o, r.c);
    PlansAre(chunks, o, r.c + 1);
    SetInvIs(PlansOf(chunks, o), r.c, r.tables[o], r.outs[o], ArrivedFor(got, o));
    IsDone(chunks[r.c], r.tables, o);
    EpochEnds(PlansOf(chunks, o), r.c, r.tables[o], r.outs[o], ArrivedFor(got, o));
    FreshFrom(PlansOf(chunks, o), r.c + 1, Opened(PlanAt(chunks[r.c + 1], o), r.tables[o]), r.outs[o], ArrivedFor(got, o));
  }

  lemma FreshFrom(plans: seq<Plan>, c: nat, s: Progress, out: seq<Item>, arrived: set<Msg>)
    requires ValidPlans(plans) && Fresh(plans, c, s, out, arrived)
    ensures SetFresh(plans, c, s, out, arrived)
  {
    hide ValidPlans, Fresh;
  }

  lemma IsDone(chunk: Chunk, tables: map<int, Progress>, id: int)
    requires AllDone(chunk, tables) && id in chunk.plans
    ensures id in tables && DecodedAll(chunk.plans[id].epoch, tables[id])
  {
  }

  lemma NextTable(chunks: seq<Chunk>, r: Replay, got: set<Tagged>, known: Bounds, id: int, o: int)
    requires r.Ran? && Fits(chunks, r) && r.c + 1 < |chunks| && o in r.tables && o in r.outs
    requires Open(r.known, chunks[r.c + 1].ids, Sources(chunks[r.c + 1])) == Opens(known)
    requires SetFresh(PlansOf(chunks, o), r.c + 1, Opened(PlanAt(chunks[r.c + 1], o), r.tables[o]), r.outs[o], ArrivedFor(got, o))
    ensures SetBegins(chunks, NextChunk(chunks, r, id), got, o)
  {
    hide SetFresh, Open, Sources, RecordedSets, ArrivedFor, PlansOf, PlanAt;
  }

  lemma FreshIsNotDone(plans: seq<Plan>, k: nat, s: Progress, out: seq<Item>, arrived: set<Msg>)
    requires SetFresh(plans, k, s, out, arrived) && k < |plans| && Nonempty(plans[k])
    ensures !DecodedAll(plans[k].epoch, s)
  {
    PlanIsValid(plans, k);
    assert s.unmatched == plans[k].recording.unmatched && s.replayed == 0;
  }

  lemma CutOf(chunks: seq<Chunk>, k: nat, id: int)
    requires k < |chunks| && CutsAt(chunks, k) && id in chunks[0].plans
    ensures CutAt(PlansOf(chunks, id), k)
  {
    hide CutAt, PlansOf;
    var plans := PlansOf(chunks, id);
  }

  lemma BeginsNotDone(chunks: seq<Chunk>, r: Replay, got: set<Tagged>, id: int)
    requires ValidChunks(chunks) && r.Ran? && Fits(chunks, r) && SetBegins(chunks, r, got, id) && id in chunks[r.c].plans
    ensures Unfinished(chunks, r, id)
  {
    PlansAre(chunks, id, r.c);
    assert ValidChunk(chunks[r.c]);
    assert Nonempty(chunks[r.c].plans[id]);
    hide DecodedAll, SetFresh, PlansOf, PlanAt, Nonempty, ValidChunks, ArrivedFor;
    FreshIsNotDone(PlansOf(chunks, id), r.c, r.tables[id], r.outs[id], ArrivedFor(got, id));
  }

  lemma BeginsOk(chunks: seq<Chunk>, r: Replay, got: set<Tagged>, id: int)
    requires ValidChunks(chunks) && r.Ran? && Fits(chunks, r) && SetBegins(chunks, r, got, id) && CutAt(PlansOf(chunks, id), r.c)
    ensures SetOk(chunks, r, got, id)
  {
    hide PlansOf, ArrivedFor, ValidPlans, CutAt, Fresh, EpochInv;
    FreshKeeps(PlansOf(chunks, id), r.c, r.tables[id], r.outs[id], ArrivedFor(got, id));
  }

  /** A chunk that begins, was cut in clock order and fits satisfies the invariant. */
  lemma ChunkBegins(chunks: seq<Chunk>, r: Replay, got: set<Tagged>)
    requires ValidChunks(chunks) && r.Ran? && Fits(chunks, r) && KnownIs(chunks, r.known) && ChunkFits(chunks, r.c) && CutsAt(chunks, r.c)
    requires forall id :: id in chunks[0].plans ==> SetBegins(chunks, r, got, id)
    requires r.again.Some? ==> r.again.value in chunks[0].plans
    ensures RunInv(chunks, r, got)
  {
    hide *;
    SomeChunk(chunks);
    InRecord(chunks, r);
    IdsAreKeys(chunks, 0);
    var first := chunks[0].ids[0];
    forall id | id in chunks[0].plans ensures SetOk(chunks, r, got, id) && Unfinished(chunks, r, id) {
      InChunk(chunks, r.c, id);
      CutOf(chunks, r.c, id);
      BeginsOk(chunks, r, got, id);
      BeginsNotDone(chunks, r, got, id);
    }
    assert first in chunks[0].ids;
    assert first in chunks[0].plans.Keys;
    OneUnfinished(chunks, r, first);
    RunInvFrom(chunks, r, got);
  }

  lemma InRecord(chunks: seq<Chunk>, r: Replay)
    requires r.Ran? && Fits(chunks, r)
    ensures r.c < |chunks|
  {
  }

  lemma RunInvFrom(chunks: seq<Chunk>, r: Replay, got: set<Tagged>)
    requires chunks != [] && r.Ran? && Fits(chunks, r) && KnownIs(chunks, r.known) && !AllDone(chunks[r.c], r.tables)
    requires forall id :: id in chunks[0].plans ==> SetOk(chunks, r, got, id)
    requires r.again.Some? ==> Unfinished(chunks, r, r.again.value)
    ensures RunInv(chunks, r, got)
  {
    hide SetOk, KnownIs, AllDone, Unfinished, RecordedSets;
  }

  lemma OneUnfinished(chunks: seq<Chunk>, r: Replay, id: int)
    requires r.Ran? && Fits(chunks, r) && Unfinished(chunks, r, id)
    ensures !AllDone(chunks[r.c], r.tables) && id in chunks[r.c].plans
  {
  }

  lemma Parts(chunks: seq<Chunk>, r: Replay, got: set<Tagged>)
    requires chunks != [] && RunInv(chunks, r, got)
    ensures r.Ran? && Fits(chunks, r) && r.c < |chunks| && KnownIs(chunks, r.known) && SetsOk(chunks, r, got)
    ensures AllDone(chunks[r.c], r.tables) ==> r.c + 1 == |chunks|
    ensures r.again.Some? ==> Unfinished(chunks, r, r.again.value) && r.again.value in chunks[r.c].plans
  {
    hide SetOk, AllDone;
  }

  lemma GoodAt(chunks: seq<Chunk>, n: nat, k: nat)
    requires n <= |chunks| && GoodTo(chunks, n) && k < n
    ensures ChunkFits(chunks, k) && CutsAt(chunks, k)
  {
    hide ChunkFits, CutsAt;
  }

  /** A call keeps the invariant, also where it opens the next chunk. */
  lemma CallStaysGood(chunks: seq<Chunk>, r: Replay, got: set<Tagged>, id: int, bound: Msg, localClock: int)
    returns (next: Replay, emitted: seq<Item>)
    requires ValidChunks(chunks) && |Sources(chunks[0])| <= MAX_MC_LENGTH && GoodTo(chunks, |chunks|)
    requires RunInv(chunks, r, got) && id in chunks[r.c].plans
    requires SoundBound(TotalOf(PlanAt(chunks[r.c], id)), ArrivedFor(got, id), bound)
    ensures next == Call(chunks, r, id, bound, localClock) && RunInv(chunks, next, got)
    ensures id in r.outs && id in r.tables && next.outs == r.outs[id := r.outs[id] + emitted] && next.known == r.known
    ensures Step(chunks[r.c].plans[id].epoch, r.tables[id], bound, localClock).Decoded?
    ensures Step(chunks[r.c].plans[id].epoch, r.tables[id], bound, localClock).emitted == emitted
    ensures InterimsAre(r, next, id, Step(chunks[r.c].plans[id].epoch, r.tables[id], bound, localClock).next.interim)
    ensures AllArrived(AllKeys(PlansOf(chunks, id)), ArrivedFor(got, id)) && Unfinished(chunks, r, id) ==> emitted != []
  {
    hide *;
    SomeChunk(chunks);
    Parts(chunks, r, got);
    GoodAt(chunks, |chunks|, r.c);
    InChunk(chunks, r.c, id);
    CutOf(chunks, r.c, id);
    var after;
    after, emitted := CallKeeps(chunks, r, got, id, bound, localClock);
    if Unfinished(chunks, r, id) {
      UnfinishedIs(chunks, r, id);
    }
    next := after;
    OneInterim(r, after, id);
    if AllDone(chunks[r.c], after.tables) && r.c + 1 < |chunks| {
      GoodAt(chunks, |chunks|, r.c + 1);
      OpensNext(chunks, r.known, r.c + 1);
      next := ChunkEnds(chunks, after, got, r.known, id);
      ChunkBegins(chunks, next, got);
      NextInterim(chunks, r, after, id);
    } else {
      InvFrom(chunks, after, got);
    }
  }

  lemma UnfinishedIs(chunks: seq<Chunk>, r: Replay, id: int)
    requires r.Ran? && Fits(chunks, r) && Unfinished(chunks, r, id)
    ensures id in chunks[r.c].plans && id in r.tables && !DecodedAll(chunks[r.c].plans[id].epoch, r.tables[id])
  {
    hide DecodedAll;
  }

  lemma InvFrom(chunks: seq<Chunk>, r: Replay, got: set<Tagged>)
    requires chunks != [] && SetsOk(chunks, r, got) && r.again.None? && !(AllDone(chunks[r.c], r.tables) && r.c + 1 < |chunks|)
    ensures RunInv(chunks, r, got)
  {
    hide SetOk, AllDone;
  }

  /** Only the interim clock of the called set may change. */
  ghost predicate InterimsAre(before: Replay, after: Replay, id: int, interim: int) {
    && before.Ran? && after.Ran? && after.tables.Keys == before.tables.Keys
    && forall s :: s in before.tables ==> after.tables[s].interim == if s == id then interim else before.tables[s].interim
  }

  lemma OneInterim(r: Replay, after: Replay, id: int)
    requires r.Ran? && after.Ran? && id in r.tables && id in after.tables && after.tables == r.tables[id := after.tables[id]]
    ensures InterimsAre(r, after, id, after.tables[id].interim)
  {
  }

  lemma NextInterim(chunks: seq<Chunk>, before: Replay, r: Replay, id: int)
    requires r.Ran? && Fits(chunks, r) && r.c + 1 < |chunks| && NextChunk(chunks, r, id).Ran?
    requires id in r.tables && InterimsAre(before, r, id, r.tables[id].interim)
    ensures InterimsAre(before, NextChunk(chunks, r, id), id, r.tables[id].interim)
  {
    hide Open, Sources, RecordedSets;
  }

  // ----- one turn -----

  ghost function GotBy(turns: seq<Turn>): set<Tagged> {
    if turns == [] then {}
    else
      var last := turns[|turns| - 1];
      GotBy(turns[..|turns| - 1]) + set m | m in last.arrivals :: Tagged(m, last.id)
  }

  lemma {:induction false} GotIsArrived(turns: seq<Turn>, id: int)
    ensures ArrivedFor(GotBy(turns), id) == AsSet(ArrivedAt(turns, id))
  {
    if turns != [] {
      var front, last := turns[..|turns| - 1], turns[|turns| - 1];
      GotIsArrived(front, id);
      forall m ensures m in ArrivedFor(GotBy(turns), id) <==> m in AsSet(ArrivedAt(turns, id)) {
        assert Tagged(m, id) in GotBy(turns) <==> m in ArrivedFor(GotBy(turns), id);
        assert Tagged(m, id) in GotBy(front) <==> m in ArrivedFor(GotBy(front), id);
      }
    }
  }

  /** Messages of one set arrive. */
  lemma ArriveKeeps(chunks: seq<Chunk>, r: Replay, got: set<Tagged>, got': set<Tagged>, id: int, before: seq<Msg>, msgs: seq<Msg>)
    returns (next: Replay)
    requires ValidChunks(chunks) && RunInv(chunks, r, got) && id in chunks[0].plans && CutAt(PlansOf(chunks, id), r.c)
    requires ArriveOnce(AllKeys(PlansOf(chunks, id)), before + msgs)
    requires ArrivedFor(got, id) == AsSet(before) && ArrivedFor(got', id) == AsSet(before + msgs)
    requires forall o :: o != id ==> ArrivedFor(got', o) == ArrivedFor(got, o)
    ensures next == Arrive(r, id, msgs) && RunInv(chunks, next, got') && next.c == r.c && next.again == r.again && next.known == r.known
    ensures id in r.tables && next.outs == r.outs && next.tables == r.tables[id := r.tables[id].(waiting := r.tables[id].waiting + msgs)]
  {
    hide *;
    SomeChunk(chunks);
    Parts(chunks, r, got);
    OneSet(chunks, r, got, id);
    ArriveIs(chunks, r, id, msgs);
    next := Arrive(r, id, msgs);
    var plans := PlansOf(chunks, id);
    SetInvIs(plans, r.c, r.tables[id], r.outs[id], ArrivedFor(got, id));
    ArriveAll(plans, r.c, r.tables[id], r.outs[id], before, msgs);
    SetInvFrom(plans, r.c, next.tables[id], r.outs[id], ArrivedFor(got', id));
    assert r.outs[id := r.outs[id]] == r.outs;
    OneSetChanged(chunks, r, got, next, got', id);
    SameUnfinished(chunks, r, next, id, msgs);
  }

  /** One message arrives. */
  lemma ArriveOne(chunks: seq<Chunk>, r: Replay, got: set<Tagged>, id: int, m: Msg) returns (next: Replay)
    requires ValidChunks(chunks) && RunInv(chunks, r, got) && id in chunks[0].plans && CutAt(PlansOf(chunks, id), r.c)
    requires Arrives(AllKeys(PlansOf(chunks, id)), ArrivedFor(got, id), m)
    ensures next == Arrive(r, id, [m]) && RunInv(chunks, next, got + {Tagged(m, id)}) && id in r.tables
    ensures next == r.(tables := r.tables[id := r.tables[id].(waiting := r.tables[id].waiting + [m])])
  {
    hide *;
    SomeChunk(chunks);
    Parts(chunks, r, got);
    OneSet(chunks, r, got, id);
    ArriveIs(chunks, r, id, [m]);
    next := Arrive(r, id, [m]);
    var plans, got' := PlansOf(chunks, id), got + {Tagged(m, id)};
    OneMoreGot(got, Tagged(m, id));
    SetInvIs(plans, r.c, r.tables[id], r.outs[id], ArrivedFor(got, id));
    EpochArrive(plans, r.c, r.tables[id], r.outs[id], ArrivedFor(got, id), m);
    SetInvFrom(plans, r.c, next.tables[id], r.outs[id], ArrivedFor(got', id));
    assert r.outs[id := r.outs[id]] == r.outs;
    OneSetChanged(chunks, r, got, next, got', id);
    SameUnfinished(chunks, r, next, id, [m]);
  }

  lemma OneMoreGot(got: set<Tagged>, x: Tagged)
    ensures ArrivedFor(got + {x}, x.id) == ArrivedFor(got, x.id) + {x.msg}
    ensures forall o :: o != x.id ==> ArrivedFor(got + {x}, o) == ArrivedFor(got, o)
  {
  }

  lemma ArriveIs(chunks: seq<Chunk>, r: Replay, id: int, msgs: seq<Msg>)
    requires r.Ran? && id in r.tables && Fits(chunks, r)
    ensures Arrive(r, id, msgs) == r.(tables := r.tables[id := r.tables[id].(waiting := r.tables[id].waiting + msgs)])
    ensures Fits(chunks, Arrive(r, id, msgs))
  {
    hide RecordedSets;
  }

  /** What arrives does not finish a table. */
  lemma SameUnfinished(chunks: seq<Chunk>, r: Replay, next: Replay, id: int, msgs: seq<Msg>)
    requires chunks != [] && r.Ran? && Fits(chunks, r) && id in r.tables
    requires next == r.(tables := r.tables[id := r.tables[id].(waiting := r.tables[id].waiting + msgs)]) && Fits(chunks, next)
    ensures forall o :: Unfinished(chunks, next, o) <==> Unfinished(chunks, r, o)
    ensures AllDone(chunks[r.c], next.tables) <==> AllDone(chunks[r.c], r.tables)
    ensures forall got, got' :: RunInv(chunks, r, got) && SetsOk(chunks, next, got') ==> RunInv(chunks, next, got')
  {
    hide SetsOk, RecordedSets;
  }

  lemma OneMoreTurn(chunks: seq<Chunk>, turns: seq<Turn>)
    requires chunks != [] && turns != []
    ensures var front, t := turns[..|turns| - 1], turns[|turns| - 1];
      && (forall id :: ArrivedAt(turns, id) == ArrivedAt(front, id) + (if id == t.id then t.arrivals else []))
      && Run(chunks, turns) == if Run(chunks, front).Broke? then Run(chunks, front) else TurnTaken(chunks, Run(chunks, front), t)
  {
    hide TurnTaken, StartReplay, Fits;
  }

  lemma PossibleFront(chunks: seq<Chunk>, turns: seq<Turn>)
    requires chunks != [] && Possible(chunks, turns) && turns != []
    ensures Possible(chunks, turns[..|turns| - 1])
    ensures var r, t := Run(chunks, turns[..|turns| - 1]), turns[|turns| - 1];
      r.Ran? ==> TurnFits(chunks, r, AsSet(ArrivedAt(turns, t.id)), t)
    ensures ArriveOnce(AllKeys(PlansOf(chunks, turns[|turns| - 1].id)), ArrivedAt(turns, turns[|turns| - 1].id))
  {
    OneMoreTurn(chunks, turns);
    var front, t := turns[..|turns| - 1], turns[|turns| - 1];
    hide Run, ArrivedAt, TurnFits, PlansOf, AllKeys, ArriveOnce;
    forall id ensures ArriveOnce(AllKeys(PlansOf(chunks, id)), ArrivedAt(front, id)) {
      if id == t.id {
        OnceFront(AllKeys(PlansOf(chunks, id)), ArrivedAt(front, id), t.arrivals);
      } else {
        assert ArrivedAt(front, id) + [] == ArrivedAt(front, id);
      }
    }
  }

  lemma FitsMeans(chunks: seq<Chunk>, r: Replay, got: set<Tagged>, arrived: set<Msg>, t: Turn)
    requires ValidChunks(chunks) && RunInv(chunks, r, got) && TurnFits(chunks, r, arrived, t)
    ensures t.id in chunks[r.c].plans && SoundBound(TotalOf(PlanAt(chunks[r.c], t.id)), arrived, t.bound)
  {
    hide SoundBound, TotalOf, PlanAt, SetsOk;
  }

  lemma TakenIs(chunks: seq<Chunk>, r: Replay, t: Turn)
    requires r.Ran? && Fits(chunks, r)
    ensures Fits(chunks, Arrive(r, t.id, t.arrivals))
    ensures TurnTaken(chunks, r, t) == Call(chunks, Arrive(r, t.id, t.arrivals), t.id, t.bound, t.localClock)
  {
    hide Call, RecordedSets;
  }

  /** The arrivals of the last turn of a possible run. */
  lemma TurnArrives(chunks: seq<Chunk>, turns: seq<Turn>) returns (next: Replay)
    requires ValidChunks(chunks) && Possible(chunks, turns) && turns != []
    requires var r := Run(chunks, turns[..|turns| - 1]);
      RunInv(chunks, r, GotBy(turns[..|turns| - 1])) && ChunkFits(chunks, r.c) && CutsAt(chunks, r.c)
    ensures var r, t := Run(chunks, turns[..|turns| - 1]), turns[|turns| - 1];
      && next == Arrive(r, t.id, t.arrivals) && next.Ran? && Fits(chunks, next) && next.c == r.c && next.known == r.known && next.outs == r.outs
      && Run(chunks, turns) == Call(chunks, next, t.id, t.bound, t.localClock)
      && (Unfinished(chunks, next, t.id) <==> Unfinished(chunks, r, t.id))
    ensures RunInv(chunks, next, GotBy(turns)) && turns[|turns| - 1].id in chunks[next.c].plans && turns[|turns| - 1].id in chunks[0].plans
    ensures SoundBound(TotalOf(PlanAt(chunks[next.c], turns[|turns| - 1].id)), ArrivedFor(GotBy(turns), turns[|turns| - 1].id), turns[|turns| - 1].bound)
  {
    hide *;
    SomeChunk(chunks);
    var front, t := turns[..|turns| - 1], turns[|turns| - 1];
    var r, got := Run(chunks, front), GotBy(front);
    Parts(chunks, r, got);
    PossibleFront(chunks, turns);
    FitsMeans(chunks, r, got, AsSet(ArrivedAt(turns, t.id)), t);
    InChunk(chunks, r.c, t.id);
    CutOf(chunks, r.c, t.id);
    OneMoreTurn(chunks, turns);
    GotIsArrived(front, t.id);
    GotIsArrived(turns, t.id);
    forall o | o != t.id ensures ArrivedFor(GotBy(turns), o) == ArrivedFor(got, o) {
      GotIsArrived(front, o);
      GotIsArrived(turns, o);
      assert ArrivedAt(front, o) + [] == ArrivedAt(front, o);
    }
    next := ArriveKeeps(chunks, r, got, GotBy(turns), t.id, ArrivedAt(front, t.id), t.arrivals);
    Parts(chunks, next, GotBy(turns));
    SameUnfinished(chunks, r, next, t.id, t.arrivals);
    TakenIs(chunks, r, t);
  }

  // ----- every run -----

  lemma StartKeeps(chunks: seq<Chunk>)
    requires ValidChunks(chunks) && |Sources(chunks[0])| <= MAX_MC_LENGTH
    ensures StartReplay(chunks).Ran? && KnownIs(chunks, StartReplay(chunks).known) && StartReplay(chunks).c == 0 && StartReplay(chunks).again == None
    ensures StartReplay(chunks).known == FirstBounds(chunks[0].ids, Sources(chunks[0]))
    ensures forall id :: id in chunks[0].plans ==> SetBegins(chunks, StartReplay(chunks), {}, id)
  {
    IdsAreKeys(chunks, 0);
    FirstChunkOpens(chunks[0].ids, Sources(chunks[0]));
    hide SetBegins, Open, Sources, RecordedSets, PlanAt, ValidChunks;
    forall id | id in chunks[0].plans ensures SetBegins(chunks, StartReplay(chunks), {}, id) {
      StartTable(chunks, id);
    }
  }

  lemma StartTable(chunks: seq<Chunk>, id: int)
    requires ValidChunks(chunks) && StartReplay(chunks).Ran? && id in chunks[0].plans
    ensures SetBegins(chunks, StartReplay(chunks), {}, id)
  {
    hide *;
    SomeChunk(chunks);
    PlansAre(chunks, id, 0);
    Begins(PlansOf(chunks, id));
    var s := Start(PlanAt(chunks[0], id).recording.unmatched);
    FreshFrom(PlansOf(chunks, id), 0, s, [], {});
    StartTableIs(chunks, id, s);
  }

  lemma StartTableIs(chunks: seq<Chunk>, id: int, s: Progress)
    requires chunks != [] && StartReplay(chunks).Ran? && id in chunks[0].plans && s == Start(PlanAt(chunks[0], id).recording.unmatched)
    requires SetFresh(PlansOf(chunks, id), 0, s, [], {})
    ensures SetBegins(chunks, StartReplay(chunks), {}, id)
  {
    hide SetFresh, PlansOf, PlanAt, Open, Sources, Start;
    assert id in RecordedSets(chunks);
    assert ArrivedFor({}, id) == {};
  }

  lemma StartIsGood(chunks: seq<Chunk>)
    requires ValidChunks(chunks) && |Sources(chunks[0])| <= MAX_MC_LENGTH && ChunkFits(chunks, 0) && CutsAt(chunks, 0)
    ensures RunInv(chunks, Run(chunks, []), {})
  {
    StartKeeps(chunks);
    hide *;
    SomeChunk(chunks);
    RunStarts(chunks);
    ChunkBegins(chunks, StartReplay(chunks), {});
  }

  lemma RunStarts(chunks: seq<Chunk>)
    requires chunks != []
    ensures Run(chunks, []) == StartReplay(chunks) && Fits(chunks, StartReplay(chunks)) && GotBy([]) == {}
  {
  }

  lemma ReplayableIs(chunks: seq<Chunk>)
    requires chunks != [] && Replayable(chunks)
    ensures |Sources(chunks[0])| <= MAX_MC_LENGTH && GoodTo(chunks, |chunks|) && ChunkFits(chunks, 0) && CutsAt(chunks, 0)
  {
    hide ChunkFits, CutsAt, Sources;
  }

  /** The invariant holds along every possible run. */
  lemma {:induction false} RunKeeps(chunks: seq<Chunk>, turns: seq<Turn>)
    requires ValidChunks(chunks) && Replayable(chunks) && Possible(chunks, turns)
    ensures RunInv(chunks, Run(chunks, turns), GotBy(turns))
  {
    hide *;
    SomeChunk(chunks);
    ReplayableIs(chunks);
    if turns == [] {
      StartIsGood(chunks);
      RunStarts(chunks);
    } else {
      var t := turns[|turns| - 1];
      PossibleFront(chunks, turns);
      RunKeeps(chunks, turns[..|turns| - 1]);
      Parts(chunks, Run(chunks, turns[..|turns| - 1]), GotBy(turns[..|turns| - 1]));
      GoodAt(chunks, |chunks|, Run(chunks, turns[..|turns| - 1]).c);
      var r := TurnArrives(chunks, turns);
      var next, emitted := CallStaysGood(chunks, r, GotBy(turns), t.id, t.bound, t.localClock);
    }
  }

  lemma SetsAreThose(chunks: seq<Chunk>, id: int)
    requires chunks != [] && GoodTo(chunks, |chunks|)
    ensures id in RecordedSets(chunks) <==> id in chunks[0].plans
  {
    hide CutsAt;
    if id in RecordedSets(chunks) {
      var k :| 0 <= k < |chunks| && id in chunks[k].plans;
      assert ChunkFits(chunks, k);
      InChunk(chunks, k, id);
    }
  }

  lemma OutsArePrefixes(chunks: seq<Chunk>, r: Replay, got: set<Tagged>, id: int)
    requires ValidChunks(chunks) && RunInv(chunks, r, got) && id in chunks[0].plans
    ensures id in r.outs && r.outs[id] <= Stream(PlansOf(chunks, id))
  {
    hide *;
    SomeChunk(chunks);
    Parts(chunks, r, got);
    OneSet(chunks, r, got, id);
    SetInvIs(PlansOf(chunks, id), r.c, r.tables[id], r.outs[id], ArrivedFor(got, id));
    OutIsPrefix(PlansOf(chunks, id), r.c, r.tables[id], r.outs[id], ArrivedFor(got, id));
  }

  lemma FitsIs(chunks: seq<Chunk>, r: Replay)
    requires r.Ran? && Fits(chunks, r)
    ensures r.outs.Keys == r.tables.Keys == RecordedSets(chunks)
  {
    hide RecordedSets;
  }

  /**
    Replay of a whole record: whatever the order in which the sets are called and messages arrive, no
    call fails, every chunk opens, and every set is handed out a prefix of its recorded stream.
   */
  lemma ReplayableMeansFaithful(chunks: seq<Chunk>, turns: seq<Turn>)
    requires ValidChunks(chunks) && Replayable(chunks) && Possible(chunks, turns)
    ensures Faithful(chunks, turns)
  {
    hide *;
    SomeChunk(chunks);
    RunKeeps(chunks, turns);
    ReplayableIs(chunks);
    var r := Run(chunks, turns);
    Parts(chunks, r, GotBy(turns));
    FitsIs(chunks, r);
    forall id | id in r.outs ensures r.outs[id] <= Stream(PlansOf(chunks, id)) {
      SetsAreThose(chunks, id);
      OutsArePrefixes(chunks, r, GotBy(turns), id);
    }
    FaithfulFrom(chunks, turns);
  }

  lemma FaithfulFrom(chunks: seq<Chunk>, turns: seq<Turn>)
    requires chunks != [] && Run(chunks, turns).Ran?
    requires forall id :: id in Run(chunks, turns).outs ==> Run(chunks, turns).outs[id] <= Stream(PlansOf(chunks, id))
    ensures Faithful(chunks, turns)
  {
    hide Run, Stream, PlansOf;
  }

  // ----- everything is handed out -----

  /** The turns from the m-th on that called a set whose table was not done. */
  function Useful(chunks: seq<Chunk>, turns: seq<Turn>, m: nat): nat
    requires chunks != []
  {
    if |turns| <= m then 0
    else
      var front, r := turns[..|turns| - 1], Run(chunks, turns[..|turns| - 1]);
      Useful(chunks, front, m) + (if r.Ran? && Unfinished(chunks, r, turns[|turns| - 1].id) then 1 else 0)
  }

  /** Number of items of these sets. */
  function Total(ids: seq<int>, outs: map<int, seq<Item>>): nat
    requires forall id :: id in ids ==> id in outs
  {
    if ids == [] then 0
    else
      var last := ids[|ids| - 1];
      assert last in ids;
      Total(ids[..|ids| - 1], outs) + |outs[last]|
  }

  ghost function Streams(chunks: seq<Chunk>): map<int, seq<Item>>
    requires chunks != []
  {
    map id | id in chunks[0].plans :: Stream(PlansOf(chunks, id))
  }

  lemma {:induction false} TotalGrows(ids: seq<int>, a: map<int, seq<Item>>, b: map<int, seq<Item>>)
    requires forall id :: id in ids ==> id in a && id in b && |a[id]| <= |b[id]|
    ensures Total(ids, a) <= Total(ids, b)
    ensures (exists id :: id in ids && |a[id]| < |b[id]|) ==> Total(ids, a) < Total(ids, b)
  {
    if ids != [] {
      var front, last := ids[..|ids| - 1], ids[|ids| - 1];
      assert ids == front + [last];
      TotalGrows(front, a, b);
    }
  }

  lemma TurnGoesOn(chunks: seq<Chunk>, turns: seq<Turn>) returns (emitted: seq<Item>)
    requires ValidChunks(chunks) && Replayable(chunks) && Possible(chunks, turns) && turns != []
    ensures var r, next, id := Run(chunks, turns[..|turns| - 1]), Run(chunks, turns), turns[|turns| - 1].id;
      && r.Ran? && Fits(chunks, r) && next.Ran? && id in chunks[0].plans && id in r.outs && next.outs == r.outs[id := r.outs[id] + emitted]
      && (AllArrived(AllKeys(PlansOf(chunks, id)), AsSet(ArrivedAt(turns, id))) && Unfinished(chunks, r, id) ==> emitted != [])
  {
    hide *;
    SomeChunk(chunks);
    ReplayableIs(chunks);
    var front, t := turns[..|turns| - 1], turns[|turns| - 1];
    PossibleFront(chunks, turns);
    RunKeeps(chunks, front);
    Parts(chunks, Run(chunks, front), GotBy(front));
    GoodAt(chunks, |chunks|, Run(chunks, front).c);
    var r := TurnArrives(chunks, turns);
    GotIsArrived(turns, t.id);
    var next;
    next, emitted := CallStaysGood(chunks, r, GotBy(turns), t.id, t.bound, t.localClock);
    Parts(chunks, next, GotBy(turns));
  }

  /** Everything that was recorded from the first to the last chunk has arrived. */
  ghost predicate AllThere(chunks: seq<Chunk>, turns: seq<Turn>) {
    forall id {:trigger PlansOf(chunks, id)} :: AllArrived(AllKeys(PlansOf(chunks, id)), AsSet(ArrivedAt(turns, id)))
  }

  lemma {:induction false} StillThere(chunks: seq<Chunk>, turns: seq<Turn>, m: nat)
    requires m <= |turns| && AllThere(chunks, turns[..m])
    ensures AllThere(chunks, turns)
    decreases |turns|
  {
    if m == |turns| {
      assert turns[..m] == turns;
    } else {
      assert turns[..|turns| - 1][..m] == turns[..m];
      StillThere(chunks, turns[..|turns| - 1], m);
      hide PlansOf, AllKeys;
    }
  }

  lemma {:induction false} UsefulTurnsCount(chunks: seq<Chunk>, turns: seq<Turn>, m: nat)
    requires ValidChunks(chunks) && Replayable(chunks) && Possible(chunks, turns) && m <= |turns| && AllThere(chunks, turns[..m])
    ensures Run(chunks, turns).Ran? && forall id :: id in chunks[0].ids ==> id in Run(chunks, turns).outs
    ensures Total(chunks[0].ids, Run(chunks, turns).outs) >= Useful(chunks, turns, m)
    decreases |turns|
  {
    hide *;
    SomeChunk(chunks);
    RunKeeps(chunks, turns);
    OutsAre(chunks, turns);
    UsefulIs(chunks, turns, m);
    if m < |turns| {
      var front, id := turns[..|turns| - 1], turns[|turns| - 1].id;
      PossibleFront(chunks, turns);
      assert front[..m] == turns[..m];
      UsefulTurnsCount(chunks, front, m);
      var emitted := TurnGoesOn(chunks, turns);
      StillThere(chunks, turns, m);
      ThereAt(chunks, turns, id);
      IdsAreKeys(chunks, 0);
      OneMoreItem(chunks[0].ids, Run(chunks, front).outs, id, emitted);
    }
  }

  lemma OneMoreItem(ids: seq<int>, outs: map<int, seq<Item>>, id: int, emitted: seq<Item>)
    requires id in ids && forall id :: id in ids ==> id in outs
    ensures Total(ids, outs[id := outs[id] + emitted]) >= Total(ids, outs) + (if emitted == [] then 0 else 1)
  {
    TotalGrows(ids, outs, outs[id := outs[id] + emitted]);
  }

  lemma ThereAt(chunks: seq<Chunk>, turns: seq<Turn>, id: int)
    requires AllThere(chunks, turns)
    ensures AllArrived(AllKeys(PlansOf(chunks, id)), AsSet(ArrivedAt(turns, id)))
  {
    hide PlansOf, AllKeys, AllArrived;
    var plans := PlansOf(chunks, id);
  }

  lemma UsefulIs(chunks: seq<Chunk>, turns: seq<Turn>, m: nat)
    requires chunks != []
    ensures |turns| <= m ==> Useful(chunks, turns, m) == 0
    ensures |turns| > m ==>
      var r := Run(chunks, turns[..|turns| - 1]);
      Useful(chunks, turns, m) ==
        Useful(chunks, turns[..|turns| - 1], m) + (if r.Ran? && Unfinished(chunks, r, turns[|turns| - 1].id) then 1 else 0)
  {
    hide Run, Unfinished;
  }

  lemma OutsAre(chunks: seq<Chunk>, turns: seq<Turn>)
    requires ValidChunks(chunks) && Replayable(chunks) && RunInv(chunks, Run(chunks, turns), GotBy(turns))
    ensures Run(chunks, turns).Ran?
    ensures forall id :: id in chunks[0].ids <==> id in Run(chunks, turns).outs
    ensures forall id :: id in chunks[0].ids ==> id in chunks[0].plans && Run(chunks, turns).outs[id] <= Stream(PlansOf(chunks, id))
  {
    hide *;
    SomeChunk(chunks);
    ReplayableIs(chunks);
    var r := Run(chunks, turns);
    Parts(chunks, r, GotBy(turns));
    FitsIs(chunks, r);
    IdsAreKeys(chunks, 0);
    forall id ensures id in chunks[0].ids <==> id in r.outs {
      SetsAreThose(chunks, id);
    }
    forall id | id in chunks[0].ids ensures id in chunks[0].plans && r.outs[id] <= Stream(PlansOf(chunks, id)) {
      OutsArePrefixes(chunks, r, GotBy(turns), id);
    }
  }

  /**
    Once all messages are there, as many calls for unfinished sets as the recorded streams have items
    hand out all streams of all chunks.
   */
  lemma AllChunksComplete(chunks: seq<Chunk>, turns: seq<Turn>, m: nat)
    requires ValidChunks(chunks) && Replayable(chunks) && Possible(chunks, turns) && m <= |turns| && AllThere(chunks, turns[..m])
    requires (forall id :: id in chunks[0].ids ==> id in chunks[0].plans) && Useful(chunks, turns, m) >= Total(chunks[0].ids, Streams(chunks))
    ensures Run(chunks, turns).Ran? && forall id :: id in Run(chunks, turns).outs ==> Run(chunks, turns).outs[id] == Stream(PlansOf(chunks, id))
  {
    hide *;
    SomeChunk(chunks);
    UsefulTurnsCount(chunks, turns, m);
    RunKeeps(chunks, turns);
    OutsAre(chunks, turns);
    StreamsAre(chunks);
    var outs := Run(chunks, turns).outs;
    TotalGrows(chunks[0].ids, outs, Streams(chunks));
    forall id | id in outs ensures outs[id] == Stream(PlansOf(chunks, id)) {
      assert id in chunks[0].ids;
    }
  }

  lemma StreamsAre(chunks: seq<Chunk>)
    requires chunks != []
    ensures Streams(chunks).Keys == chunks[0].plans.Keys
    ensures forall id :: id in Streams(chunks) ==> Streams(chunks)[id] == Stream(PlansOf(chunks, id))
  {
    hide Stream, PlansOf;
  }

  /** Until then some set that may be called is not finished. */
  lemma SomeCallIsUseful(chunks: seq<Chunk>, turns: seq<Turn>) returns (id: int)
    requires ValidChunks(chunks) && Replayable(chunks) && Possible(chunks, turns)
    ensures Run(chunks, turns).Ran?
    ensures (forall s :: s in Run(chunks, turns).outs ==> Run(chunks, turns).outs[s] == Stream(PlansOf(chunks, s)))
      || ((Run(chunks, turns).again.Some? ==> id == Run(chunks, turns).again.value) && Unfinished(chunks, Run(chunks, turns), id))
  {
    hide *;
    SomeChunk(chunks);
    RunKeeps(chunks, turns);
    ReplayableIs(chunks);
    var r, got := Run(chunks, turns), GotBy(turns);
    Parts(chunks, r, got);
    if r.again.Some? {
      id := r.again.value;
    } else if AllDone(chunks[r.c], r.tables) {
      id := 0;
      OutsAre(chunks, turns);
      forall s | s in r.outs ensures r.outs[s] == Stream(PlansOf(chunks, s)) {
        GoodAt(chunks, |chunks|, r.c);
        LastSetEnds(chunks, r, got, s);
      }
    } else {
      id := NotDone(chunks, r, got);
    }
  }

  lemma NotDone(chunks: seq<Chunk>, r: Replay, got: set<Tagged>) returns (id: int)
    requires ValidChunks(chunks) && RunInv(chunks, r, got) && !AllDone(chunks[r.c], r.tables)
    ensures r.Ran? && Fits(chunks, r) && Unfinished(chunks, r, id)
  {
    hide ValidChunk, ValidPlans, SetsOk, DecodedAll, PlansOf;
    Parts(chunks, r, got);
    var ids := chunks[r.c].ids;
    IdsAreKeys(chunks, r.c);
    var k: nat :| k < |ids| && !(ids[k] in r.tables && DecodedAll(chunks[r.c].plans[ids[k]].epoch, r.tables[ids[k]]));
    id := ids[k];
    InSets(chunks, r.c, id);
  }

  lemma InSets(chunks: seq<Chunk>, k: nat, id: int)
    requires k < |chunks| && id in chunks[k].plans
    ensures id in RecordedSets(chunks)
  {
  }

  lemma LastSetEnds(chunks: seq<Chunk>, r: Replay, got: set<Tagged>, id: int)
    requires ValidChunks(chunks) && RunInv(chunks, r, got) && AllDone(chunks[r.c], r.tables) && ChunkFits(chunks, r.c) && id in chunks[0].plans
    ensures id in r.outs && r.outs[id] == Stream(PlansOf(chunks, id))
  {
    hide *;
    SomeChunk(chunks);
    Parts(chunks, r, got);
    InChunk(chunks, r.c, id);
    OneSet(chunks, r, got, id);
    PlansAre(chunks, id, r.c);
    SetInvIs(PlansOf(chunks, id), r.c, r.tables[id], r.outs[id], ArrivedFor(got, id));
    IsDone(chunks[r.c], r.tables, id);
    EpochEnds(PlansOf(chunks, id), r.c, r.tables[id], r.outs[id], ArrivedFor(got, id));
    StreamIs(PlansOf(chunks, id));
  }
}
