/**
  Records whose chunks need not fit: with all cuts in clock order a run may stop, but it never hands
  out anything wrong.
 */
module ChunkSafety {
  import opened Messages
  import opened EpochTables
  import opened ReplayOrdering
  import opened ReplayFidelity
  import opened EpochRuns
  import opened ChunkOpening
  import opened ChunkRuns

  ghost predicate CutsInOrder(chunks: seq<Chunk>) {
    forall id {:trigger AllCutsInOrder(PlansOf(chunks, id))} :: AllCutsInOrder(PlansOf(chunks, id))
  }

  ghost predicate AllSetsOk(chunks: seq<Chunk>, r: Replay, got: set<Tagged>) {
    && r.Ran? && Fits(chunks, r)
    && forall id {:trigger SetOk(chunks, r, got, id)} :: id in RecordedSets(chunks) ==> SetOk(chunks, r, got, id)
  }

  /** A run stopped, but not in the decoder, or all sets are in order. */
  ghost predicate Safe(chunks: seq<Chunk>, r: Replay, got: set<Tagged>) {
    if r.Broke? then !r.reason.Decoder? else AllSetsOk(chunks, r, got)
  }

  lemma CutHere(chunks: seq<Chunk>, id: int, k: nat)
    requires CutsInOrder(chunks) && k < |chunks|
    ensures CutAt(PlansOf(chunks, id), k)
  {
    hide CutAt, PlansOf;
    var plans := PlansOf(chunks, id);
    assert AllCutsInOrder(plans);
  }

  lemma SetIs(chunks: seq<Chunk>, r: Replay, got: set<Tagged>, id: int)
    requires AllSetsOk(chunks, r, got) && id in RecordedSets(chunks)
    ensures r.Ran? && Fits(chunks, r) && r.c < |chunks| && id in r.tables && id in r.outs
    ensures SetInv(PlansOf(chunks, id), r.c, r.tables[id], r.outs[id], ArrivedFor(got, id))
  {
    hide SetInv, PlansOf, ArrivedFor, RecordedSets;
    assert SetOk(chunks, r, got, id);
  }

  lemma AllSetsAre(chunks: seq<Chunk>, r: Replay, got: set<Tagged>)
    requires AllSetsOk(chunks, r, got)
    ensures r.Ran? && Fits(chunks, r) && r.c < |chunks| && r.tables.Keys == RecordedSets(chunks) == r.outs.Keys
  {
    hide SetOk, RecordedSets;
  }

  lemma OneSetMoves(chunks: seq<Chunk>, r: Replay, got: set<Tagged>, next: Replay, got': set<Tagged>, id: int)
    requires AllSetsOk(chunks, r, got) && next.Ran? && Fits(chunks, next) && id in r.tables && id in r.outs && id in next.tables && id in next.outs
    requires next == r.(tables := r.tables[id := next.tables[id]], outs := r.outs[id := next.outs[id]], again := next.again)
    requires forall o :: o != id ==> ArrivedFor(got', o) == ArrivedFor(got, o)
    requires SetInv(PlansOf(chunks, id), next.c, next.tables[id], next.outs[id], ArrivedFor(got', id))
    ensures AllSetsOk(chunks, next, got')
  {
    hide SetInv, PlansOf, ArrivedFor, RecordedSets;
    forall o | o in RecordedSets(chunks) ensures SetOk(chunks, next, got', o) {
      assert SetOk(chunks, r, got, o);
    }
  }

  /** A set without a table in a chunk has nothing to do there. */
  lemma NothingToDo(plans: seq<Plan>, k: nat, s: Progress, out: seq<Item>, arrived: set<Msg>)
    requires SetInv(plans, k, s, out, arrived) && plans[k] == NoPlan()
    ensures DecodedAll(plans[k].epoch, s)
  {
    InvParts(plans, k, s, out, arrived);
    var r := plans[k].recording;
    assert r.unmatched == map[] && plans[k].epoch.count == 0;
    assert OutputOk(r, s, out[|StreamTo(plans, k)|..]);
    assert forall i :: i in s.unmatched ==> i in r.unmatched;
  }

  /** When all tables of a chunk are done, every set of the record goes on in order. */
  lemma SetGoesOn(chunks: seq<Chunk>, r: Replay, got: set<Tagged>, o: int) returns (s: Progress)
    requires ValidChunks(chunks) && CutsInOrder(chunks) && AllSetsOk(chunks, r, got) && r.c + 1 < |chunks| && AllDone(chunks[r.c], r.tables)
    requires o in RecordedSets(chunks)
    ensures o in r.tables && o in r.outs && s == Opened(PlanAt(chunks[r.c + 1], o), r.tables[o])
    ensures SetInv(PlansOf(chunks, o), r.c + 1, s, r.outs[o], ArrivedFor(got, o))
  {
    hide *;
    SetIs(chunks, r, got, o);
    PlansAre(chunks, o, r.c);
    PlansAre(chunks, o, r.c + 1);
    CutHere(chunks, o, r.c + 1);
    var plans, arrived := PlansOf(chunks, o), ArrivedFor(got, o);
    s := Opened(PlanAt(chunks[r.c + 1], o), r.tables[o]);
    if o in chunks[r.c].plans {
      IsDone(chunks[r.c], r.tables, o);
    } else {
      NoPlanThere(chunks[r.c], o);
      NothingToDo(plans, r.c, r.tables[o], r.outs[o], arrived);
    }
    SetInvIs(plans, r.c, r.tables[o], r.outs[o], arrived);
    EpochEnds(plans, r.c, r.tables[o], r.outs[o], arrived);
    FreshKeeps(plans, r.c + 1, s, r.outs[o], arrived);
    SetInvFrom(plans, r.c + 1, s, r.outs[o], arrived);
  }

  lemma NoPlanThere(chunk: Chunk, id: int)
    requires id !in chunk.plans
    ensures PlanAt(chunk, id) == NoPlan()
  {
  }

  lemma NextIsSafe(chunks: seq<Chunk>, r: Replay, got: set<Tagged>, id: int)
    requires ValidChunks(chunks) && CutsInOrder(chunks) && AllSetsOk(chunks, r, got) && r.c + 1 < |chunks| && AllDone(chunks[r.c], r.tables)
    ensures Fits(chunks, r) && Safe(chunks, NextChunk(chunks, r, id), got)
  {
    hide *;
    AllSetsAre(chunks, r, got);
    var next := NextChunk(chunks, r, id);
    NextIs(chunks, r, id);
    if next.Ran? {
      forall o | o in RecordedSets(chunks) ensures SetOk(chunks, next, got, o) {
        var s := SetGoesOn(chunks, r, got, o);
        SetOkFrom(chunks, next, got, o, s, r.outs[o]);
      }
      AllSetsFrom(chunks, next, got);
    }
    SafeFrom(chunks, next, got);
  }

  lemma NextIs(chunks: seq<Chunk>, r: Replay, id: int)
    requires r.Ran? && Fits(chunks, r) && r.c + 1 < |chunks|
    ensures var next := NextChunk(chunks, r, id);
      && Fits(chunks, next) && (next.Broke? ==> next.reason.Opening?)
      && (next.Ran? ==> next.c == r.c + 1 && next.outs == r.outs && next.tables.Keys == r.tables.Keys)
      && (next.Ran? ==> forall o :: o in r.tables ==> next.tables[o] == Opened(PlanAt(chunks[r.c + 1], o), r.tables[o]))
  {
    hide Open, Sources, PlanAt, RecordedSets;
  }

  lemma SetOkFrom(chunks: seq<Chunk>, r: Replay, got: set<Tagged>, id: int, s: Progress, out: seq<Item>)
    requires r.Ran? && id in r.tables && id in r.outs && r.tables[id] == s && r.outs[id] == out
    requires SetInv(PlansOf(chunks, id), r.c, s, out, ArrivedFor(got, id))
    ensures SetOk(chunks, r, got, id)
  {
    hide SetInv, PlansOf, ArrivedFor;
  }

  lemma AllSetsFrom(chunks: seq<Chunk>, r: Replay, got: set<Tagged>)
    requires r.Ran? && Fits(chunks, r) && forall id :: id in RecordedSets(chunks) ==> SetOk(chunks, r, got, id)
    ensures AllSetsOk(chunks, r, got)
  {
    hide SetOk, RecordedSets;
  }

  lemma SafeFrom(chunks: seq<Chunk>, r: Replay, got: set<Tagged>)
    requires if r.Broke? then !r.reason.Decoder? else AllSetsOk(chunks, r, got)
    ensures Safe(chunks, r, got)
  {
    hide AllSetsOk;
  }

  /** One call, for whatever set: it stops, or it continues the stream of the set. */
  lemma CallIsSafe(chunks: seq<Chunk>, r: Replay, got: set<Tagged>, id: int, bound: Msg, localClock: int)
    requires ValidChunks(chunks) && CutsInOrder(chunks) && AllSetsOk(chunks, r, got) && r.c < |chunks|
    requires SoundBound(TotalOf(PlanAt(chunks[r.c], id)), ArrivedFor(got, id), bound)
    ensures Fits(chunks, r) && Safe(chunks, Call(chunks, r, id, bound, localClock), got)
  {
    hide *;
    AllSetsAre(chunks, r, got);
    if id in chunks[r.c].plans && id in r.known && chunks[r.c].plans[id].epoch.line.Keys <= r.known[id].Keys {
      InSets(chunks, r.c, id);
      SetIs(chunks, r, got, id);
      PlansAre(chunks, id, r.c);
      CutHere(chunks, id, r.c);
      var plans, arrived := PlansOf(chunks, id), ArrivedFor(got, id);
      SetInvIs(plans, r.c, r.tables[id], r.outs[id], arrived);
      var s, emitted := EpochCall(plans, r.c, r.tables[id], r.outs[id], arrived, bound, localClock);
      var next := CallIs(chunks, r, id, bound, localClock, s, emitted);
      SetInvFrom(plans, r.c, s, r.outs[id] + emitted, arrived);
      OneSetMoves(chunks, r, got, next, got, id);
      if AllDone(chunks[r.c], next.tables) && r.c + 1 < |chunks| {
        NextIsSafe(chunks, next, got, id);
      } else {
        SafeFrom(chunks, next, got);
      }
    } else {
      CallStops(chunks, r, id, bound, localClock);
      SafeFrom(chunks, Call(chunks, r, id, bound, localClock), got);
    }
  }

  /** Messages of a recorded set arrive. */
  lemma ArriveIsSafe(chunks: seq<Chunk>, r: Replay, got: set<Tagged>, got': set<Tagged>, id: int, before: seq<Msg>, msgs: seq<Msg>)
    requires ValidChunks(chunks) && CutsInOrder(chunks) && AllSetsOk(chunks, r, got)
    requires ArriveOnce(AllKeys(PlansOf(chunks, id)), before + msgs)
    requires ArrivedFor(got, id) == AsSet(before) && ArrivedFor(got', id) == AsSet(before + msgs)
    requires forall o :: o != id ==> ArrivedFor(got', o) == ArrivedFor(got, o)
    ensures r.Ran? && Arrive(r, id, msgs).Ran? && Arrive(r, id, msgs).c == r.c && AllSetsOk(chunks, Arrive(r, id, msgs), got')
  {
    hide *;
    AllSetsAre(chunks, r, got);
    if id in RecordedSets(chunks) {
      SetIs(chunks, r, got, id);
      ArriveIs(chunks, r, id, msgs);
      var next, plans := Arrive(r, id, msgs), PlansOf(chunks, id);
      CutHere(chunks, id, r.c);
      SetInvIs(plans, r.c, r.tables[id], r.outs[id], ArrivedFor(got, id));
      ArriveAll(plans, r.c, r.tables[id], r.outs[id], before, msgs);
      SetInvFrom(plans, r.c, next.tables[id], r.outs[id], ArrivedFor(got', id));
      assert r.outs[id := r.outs[id]] == r.outs;
      OneSetMoves(chunks, r, got, next, got', id);
    } else {
      NotForUs(chunks, r, id, msgs);
      forall o | o in RecordedSets(chunks) ensures SetOk(chunks, r, got', o) {
        SetIs(chunks, r, got, o);
        SetOkFrom(chunks, r, got', o, r.tables[o], r.outs[o]);
      }
      AllSetsFrom(chunks, r, got');
    }
  }

  lemma NotForUs(chunks: seq<Chunk>, r: Replay, id: int, msgs: seq<Msg>)
    requires r.Ran? && Fits(chunks, r) && id !in RecordedSets(chunks)
    ensures Arrive(r, id, msgs) == r
  {
    hide RecordedSets;
  }

  lemma SafeIs(chunks: seq<Chunk>, r: Replay, got: set<Tagged>)
    requires Safe(chunks, r, got)
    ensures if r.Broke? then !r.reason.Decoder? else AllSetsOk(chunks, r, got)
  {
    hide AllSetsOk;
  }

  lemma BoundFits(chunks: seq<Chunk>, r: Replay, arrived: set<Msg>, t: Turn)
    requires r.Ran? && Fits(chunks, r) && TurnFits(chunks, r, arrived, t)
    ensures r.c < |chunks| && SoundBound(TotalOf(PlanAt(chunks[r.c], t.id)), arrived, t.bound)
  {
    hide SoundBound, TotalOf, PlanAt, RecordedSets;
  }

  lemma StartIsSafe(chunks: seq<Chunk>)
    requires ValidChunks(chunks) && CutsInOrder(chunks)
    ensures chunks != [] && Safe(chunks, Run(chunks, []), {})
  {
    hide *;
    SomeChunk(chunks);
    RunStarts(chunks);
    var r := StartReplay(chunks);
    StartIs(chunks);
    if r.Ran? {
      forall o | o in RecordedSets(chunks) ensures SetOk(chunks, r, {}, o) {
        PlansAre(chunks, o, 0);
        CutHere(chunks, o, 0);
        Begins(PlansOf(chunks, o));
        NothingGot(o);
        FreshKeeps(PlansOf(chunks, o), 0, r.tables[o], [], {});
        SetInvFrom(PlansOf(chunks, o), 0, r.tables[o], [], {});
        SetOkFrom(chunks, r, {}, o, r.tables[o], []);
      }
      AllSetsFrom(chunks, r, {});
    }
    SafeFrom(chunks, r, {});
  }

  lemma NothingGot(id: int)
    ensures ArrivedFor({}, id) == {}
  {
  }

  lemma StartIs(chunks: seq<Chunk>)
    requires chunks != []
    ensures var r := StartReplay(chunks);
      && Fits(chunks, r) && (r.Broke? ==> r.reason.Opening?) && (r.Ran? ==> r.c == 0)
      && (r.Ran? ==> forall o :: o in RecordedSets(chunks) ==>
        o in r.tables && o in r.outs && r.outs[o] == [] && r.tables[o] == Start(PlanAt(chunks[0], o).recording.unmatched))
  {
    hide Open, Sources, PlanAt, RecordedSets, Start;
  }

  lemma {:induction false} RunIsSafe(chunks: seq<Chunk>, turns: seq<Turn>)
    requires ValidChunks(chunks) && CutsInOrder(chunks) && chunks != [] && Possible(chunks, turns)
    ensures Safe(chunks, Run(chunks, turns), GotBy(turns))
  {
    hide *;
    if turns == [] {
      StartIsSafe(chunks);
      RunStarts(chunks);
    } else {
      var front, t := turns[..|turns| - 1], turns[|turns| - 1];
      var r, got := Run(chunks, front), GotBy(front);
      PossibleFront(chunks, turns);
      RunIsSafe(chunks, front);
      SafeIs(chunks, r, got);
      OneMoreTurn(chunks, turns);
      if r.Broke? {
        SafeFrom(chunks, r, GotBy(turns));
      } else {
        AllSetsAre(chunks, r, got);
        GotIsArrived(front, t.id);
        GotIsArrived(turns, t.id);
        forall o | o != t.id ensures ArrivedFor(GotBy(turns), o) == ArrivedFor(got, o) {
          GotIsArrived(front, o);
          GotIsArrived(turns, o);
          assert ArrivedAt(front, o) + [] == ArrivedAt(front, o);
        }
        ArriveIsSafe(chunks, r, got, GotBy(turns), t.id, ArrivedAt(front, t.id), t.arrivals);
        BoundFits(chunks, r, AsSet(ArrivedAt(turns, t.id)), t);
        TakenIs(chunks, r, t);
        CallIsSafe(chunks, Arrive(r, t.id, t.arrivals), GotBy(turns), t.id, t.bound, t.localClock);
      }
    }
  }

  /**
    Whatever the chunks of a record and the order of the calls: when all cuts are in clock order, every
    set is handed out a prefix of its recorded stream until the run stops, if it does; and it stops
    because a chunk is refused, or a set or a source is not found, never in the decoder.
   */
  lemma CutsInOrderNeverMislead(chunks: seq<Chunk>, turns: seq<Turn>)
    requires ValidChunks(chunks) && CutsInOrder(chunks) && chunks != [] && Possible(chunks, turns)
    ensures Run(chunks, turns).Broke? ==> !Run(chunks, turns).reason.Decoder?
    ensures Run(chunks, turns).Ran? ==>
      forall id :: id in Run(chunks, turns).outs ==> Run(chunks, turns).outs[id] <= Stream(PlansOf(chunks, id))
  {
    hide *;
    RunIsSafe(chunks, turns);
    var r, got := Run(chunks, turns), GotBy(turns);
    SafeIs(chunks, r, got);
    if r.Ran? {
      AllSetsAre(chunks, r, got);
      forall id | id in r.outs ensures r.outs[id] <= Stream(PlansOf(chunks, id)) {
        SetIs(chunks, r, got, id);
        SetInvIs(PlansOf(chunks, id), r.c, r.tables[id], r.outs[id], ArrivedFor(got, id));
        OutIsPrefix(PlansOf(chunks, id), r.c, r.tables[id], r.outs[id], ArrivedFor(got, id));
      }
    }
  }
}
