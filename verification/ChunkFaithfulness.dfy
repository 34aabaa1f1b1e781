/**
  Exactly when the replay of a record is faithful, and how it goes wrong otherwise.
 */
module ChunkFaithfulness {
  import opened EditScripts
  import opened Messages
  import opened EpochTables
  import opened ReplayOrdering
  import opened ReplayFidelity
  import opened EpochCuts
  import opened EpochRuns
  import opened OutOfOrderCuts
  import opened ChunkOpening
  import opened ChunkRuns

  // ----- everything arrives at once -----

  /** The first call for a set brings all messages of the set; no bound says anything. */
  ghost function NextCall(chunks: seq<Chunk>, turns: seq<Turn>, id: int): Turn {
    Turn(id, if ArrivedAt(turns, id) == [] then Sort(AllKeys(PlansOf(chunks, id))) else [], Msg(0, 0), 0)
  }

  ghost function Eager(chunks: seq<Chunk>, order: seq<int>): (turns: seq<Turn>)
    ensures |turns| == |order|
  {
    if order == [] then []
    else
      var front := Eager(chunks, order[..|order| - 1]);
      front + [NextCall(chunks, front, order[|order| - 1])]
  }

  predicate MayCall(chunks: seq<Chunk>, r: Replay, id: int)
    requires Fits(chunks, r)
  {
    r.Ran? ==> if r.again.Some? then id == r.again.value else id in chunks[r.c].plans
  }

  /** Each set may be called when its turn comes. */
  ghost predicate Allowed(chunks: seq<Chunk>, order: seq<int>)
    requires chunks != []
  {
    order == [] ||
    (var front := order[..|order| - 1]; Allowed(chunks, front) && MayCall(chunks, Run(chunks, Eager(chunks, front)), order[|order| - 1]))
  }

  lemma EagerStep(chunks: seq<Chunk>, order: seq<int>, id: int)
    ensures Eager(chunks, order + [id]) == Eager(chunks, order) + [NextCall(chunks, Eager(chunks, order), id)]
    ensures Eager(chunks, order + [id])[..|order|] == Eager(chunks, order)
  {
    assert (order + [id])[..|order|] == order;
  }

  lemma {:induction false} EagerArrived(chunks: seq<Chunk>, order: seq<int>, id: int)
    ensures ArrivedAt(Eager(chunks, order), id) == if id in order then Sort(AllKeys(PlansOf(chunks, id))) else []
  {
    hide *;
    if order == [] {
      NothingArrives(chunks, id);
    } else {
      var front, last := order[..|order| - 1], order[|order| - 1];
      EagerArrived(chunks, front, id);
      assert order == front + [last];
      OneMoreCall(chunks, front, last, id, Sort(AllKeys(PlansOf(chunks, id))));
    }
  }

  lemma OneMoreCall(chunks: seq<Chunk>, front: seq<int>, last: int, id: int, all: seq<Msg>)
    requires all == Sort(AllKeys(PlansOf(chunks, id))) && ArrivedAt(Eager(chunks, front), id) == if id in front then all else []
    ensures ArrivedAt(Eager(chunks, front + [last]), id) == if id in front || id == last then all else []
  {
    hide *;
    EagerStep(chunks, front, last);
    NextCallIs(chunks, Eager(chunks, front), last);
    OneMoreArrives(Eager(chunks, front), NextCall(chunks, Eager(chunks, front), last), id);
    assert [] + all == all && all + [] == all;
  }

  lemma NothingArrives(chunks: seq<Chunk>, id: int)
    ensures ArrivedAt(Eager(chunks, []), id) == []
  {
  }

  lemma OneMoreArrives(turns: seq<Turn>, t: Turn, id: int)
    ensures ArrivedAt(turns + [t], id) == if t.id == id then ArrivedAt(turns, id) + t.arrivals else ArrivedAt(turns, id)
  {
    assert (turns + [t])[..|turns|] == turns;
  }

  lemma SortedArrives(chunks: seq<Chunk>, order: seq<int>, id: int)
    requires ValidChunks(chunks)
    ensures ArriveOnce(AllKeys(PlansOf(chunks, id)), ArrivedAt(Eager(chunks, order), id))
    ensures id in order ==> AllArrived(AllKeys(PlansOf(chunks, id)), AsSet(ArrivedAt(Eager(chunks, order), id)))
  {
    EagerArrived(chunks, order, id);
    var all := AllKeys(PlansOf(chunks, id));
    assert ValidPlans(PlansOf(chunks, id));
    hide ValidChunks, PlansOf, Eager, ArrivedAt;
    SortedArrivesOnce(all);
  }

  lemma EagerBound(chunks: seq<Chunk>, order: seq<int>, id: int, k: nat)
    requires ValidChunks(chunks) && id in order && k < |chunks|
    ensures SoundBound(TotalOf(PlanAt(chunks[k], id)), AsSet(ArrivedAt(Eager(chunks, order), id)), Msg(0, 0))
  {
    SortedArrives(chunks, order, id);
    PlansAre(chunks, id, k);
    var arrived := AsSet(ArrivedAt(Eager(chunks, order), id));
    hide ValidChunks, PlansOf, Eager, ArrivedAt, PlanAt, ValidPlans, AllKeys, TotalOf, AsSet;
    PlanIsValid(PlansOf(chunks, id), k);
    AllOfEpochArrived(PlansOf(chunks, id), k, arrived);
  }

  lemma {:induction false} EagerFits(chunks: seq<Chunk>, order: seq<int>)
    requires ValidChunks(chunks) && Allowed(chunks, order)
    ensures TurnsFit(chunks, Eager(chunks, order))
  {
    hide *;
    SomeChunk(chunks);
    if order == [] {
      NoTurns(chunks);
    } else {
      var front, last := order[..|order| - 1], order[|order| - 1];
      AllowedIs(chunks, order);
      EagerFits(chunks, front);
      assert order == front + [last];
      EagerStep(chunks, front, last);
      var r := Run(chunks, Eager(chunks, front));
      if r.Ran? {
        InRecord(chunks, r);
        EagerBound(chunks, order, last, r.c);
        NextCallIs(chunks, Eager(chunks, front), last);
        CallFits(chunks, r, AsSet(ArrivedAt(Eager(chunks, order), last)), Eager(chunks, order)[|order| - 1]);
      }
      FitsFrom(chunks, Eager(chunks, order));
    }
  }

  lemma NoTurns(chunks: seq<Chunk>)
    requires chunks != []
    ensures Eager(chunks, []) == [] && TurnsFit(chunks, []) && Allowed(chunks, [])
  {
  }

  lemma AllowedIs(chunks: seq<Chunk>, order: seq<int>)
    requires chunks != [] && order != []
    ensures Fits(chunks, Run(chunks, Eager(chunks, order[..|order| - 1])))
    ensures Allowed(chunks, order) <==>
      Allowed(chunks, order[..|order| - 1]) && MayCall(chunks, Run(chunks, Eager(chunks, order[..|order| - 1])), order[|order| - 1])
  {
    hide Run, Fits, MayCall, Eager;
  }

  lemma NextCallIs(chunks: seq<Chunk>, turns: seq<Turn>, id: int)
    ensures NextCall(chunks, turns, id).id == id && NextCall(chunks, turns, id).bound == Msg(0, 0)
    ensures NextCall(chunks, turns, id).localClock == 0
    ensures NextCall(chunks, turns, id).arrivals == if ArrivedAt(turns, id) == [] then Sort(AllKeys(PlansOf(chunks, id))) else []
  {
  }

  lemma CallFits(chunks: seq<Chunk>, r: Replay, arrived: set<Msg>, t: Turn)
    requires r.Ran? && Fits(chunks, r) && MayCall(chunks, r, t.id) && SoundBound(TotalOf(PlanAt(chunks[r.c], t.id)), arrived, t.bound)
    ensures TurnFits(chunks, r, arrived, t)
  {
    hide SoundBound, TotalOf, PlanAt, RecordedSets;
  }

  lemma FitsFrom(chunks: seq<Chunk>, turns: seq<Turn>)
    requires chunks != [] && turns != [] && TurnsFit(chunks, turns[..|turns| - 1])
    requires var r, t := Run(chunks, turns[..|turns| - 1]), turns[|turns| - 1];
      r.Ran? ==> TurnFits(chunks, r, AsSet(ArrivedAt(turns, t.id)), t)
    ensures TurnsFit(chunks, turns)
  {
    hide Run, TurnFits, ArrivedAt;
  }

  /** Whatever order is allowed is possible. */
  lemma EagerIsPossible(chunks: seq<Chunk>, order: seq<int>)
    requires ValidChunks(chunks) && Allowed(chunks, order)
    ensures Possible(chunks, Eager(chunks, order))
  {
    EagerFits(chunks, order);
    hide ValidChunks, Allowed, TurnsFit, Eager, ArriveOnce, PlansOf, AllKeys, ArrivedAt;
    SomeChunk(chunks);
    forall id ensures ArriveOnce(AllKeys(PlansOf(chunks, id)), ArrivedAt(Eager(chunks, order), id)) {
      SortedArrives(chunks, order, id);
    }
  }

  // ----- a chunk that fits and was cut in clock order -----

  ghost function FirstKnown(chunks: seq<Chunk>): Bounds
    requires chunks != []
  {
    FirstBounds(chunks[0].ids, Sources(chunks[0]))
  }

  /** The state that these calls lead to, in chunk c. */
  ghost predicate At(chunks: seq<Chunk>, order: seq<int>, c: nat, r: Replay) {
    && ValidChunks(chunks) && Allowed(chunks, order) && r == Run(chunks, Eager(chunks, order)) && r.Ran? && r.c == c < |chunks|
    && Fits(chunks, r) && RunInv(chunks, r, GotBy(Eager(chunks, order))) && r.known == FirstKnown(chunks)
  }

  lemma AtIs(chunks: seq<Chunk>, order: seq<int>, c: nat, r: Replay)
    requires At(chunks, order, c, r)
    ensures ValidChunks(chunks) && chunks != [] && Allowed(chunks, order) && r == Run(chunks, Eager(chunks, order))
    ensures r.Ran? && r.c == c < |chunks| && Fits(chunks, r) && RunInv(chunks, r, GotBy(Eager(chunks, order))) && r.known == FirstKnown(chunks)
  {
    hide ValidPlans, ValidChunk, Allowed, Run, Eager, RunInv, Fits, FirstKnown;
  }

  lemma AtFrom(chunks: seq<Chunk>, order: seq<int>, c: nat, r: Replay)
    requires ValidChunks(chunks) && chunks != [] && Allowed(chunks, order) && r == Run(chunks, Eager(chunks, order))
    requires r.Ran? && r.c == c < |chunks| && Fits(chunks, r) && RunInv(chunks, r, GotBy(Eager(chunks, order))) && r.known == FirstKnown(chunks)
    ensures At(chunks, order, c, r)
  {
    hide ValidChunks, Allowed, Run, Eager, RunInv, Fits, FirstKnown;
  }

  /** One more call: what it does before the next chunk may be opened. */
  lemma EagerCall(chunks: seq<Chunk>, order: seq<int>, c: nat, r: Replay, id: int) returns (next: Replay)
    requires At(chunks, order, c, r) && c < |chunks| && ChunkFits(chunks, c) && CutsAt(chunks, c) && MayCall(chunks, r, id)
    ensures Allowed(chunks, order + [id]) && id in chunks[0].plans && id in chunks[c].plans
    ensures next.Ran? && Fits(chunks, next) && SetsOk(chunks, next, GotBy(Eager(chunks, order + [id])))
    ensures next.c == c && next.known == r.known && next.again == None && id in next.tables && id in r.outs && id in next.outs
    ensures Run(chunks, Eager(chunks, order + [id])) ==
      if AllDone(chunks[c], next.tables) && c + 1 < |chunks| then NextChunk(chunks, next, id) else next
    ensures forall o :: o != id ==> (Unfinished(chunks, next, o) <==> Unfinished(chunks, r, o))
    ensures |r.outs[id]| <= |next.outs[id]| && (Unfinished(chunks, r, id) ==> |r.outs[id]| < |next.outs[id]|)
  {
    hide *;
    AtIs(chunks, order, c, r);
    var turns := Eager(chunks, order + [id]);
    EagerStep(chunks, order, id);
    assert (order + [id])[..|order|] == order;
    AllowedIs(chunks, order + [id]);
    EagerIsPossible(chunks, order + [id]);
    NextCallIs(chunks, Eager(chunks, order), id);
    var r' := TurnArrives(chunks, turns);
    var got := GotBy(turns);
    Parts(chunks, r', got);
    CutOf(chunks, c, id);
    var emitted;
    next, emitted := CallKeeps(chunks, r', got, id, Msg(0, 0), 0);
    OthersUnfinished(chunks, r, r', next, id, turns[|order|].arrivals);
    SortedArrives(chunks, order + [id], id);
    GotIsArrived(turns, id);
    if Unfinished(chunks, r, id) {
      UnfinishedIs(chunks, r', id);
    }
  }

  lemma OthersUnfinished(chunks: seq<Chunk>, r: Replay, r': Replay, next: Replay, id: int, msgs: seq<Msg>)
    requires r.Ran? && Fits(chunks, r) && r' == Arrive(r, id, msgs) && r'.Ran? && next.Ran? && id in r'.tables && id in next.tables && id in r'.outs && id in next.outs
    requires next == r'.(tables := r'.tables[id := next.tables[id]], outs := r'.outs[id := next.outs[id]], again := None)
    requires Fits(chunks, next)
    ensures forall o :: o != id ==> (Unfinished(chunks, next, o) <==> Unfinished(chunks, r, o))
  {
    hide DecodedAll, RecordedSets;
  }

  lemma OutFits(chunks: seq<Chunk>, order: seq<int>, c: nat, r: Replay, id: int)
    requires At(chunks, order, c, r) && id in chunks[0].plans
    ensures id in r.outs && |r.outs[id]| <= |Stream(PlansOf(chunks, id))|
  {
    hide *;
    AtIs(chunks, order, c, r);
    OutsArePrefixes(chunks, r, GotBy(Eager(chunks, order)), id);
  }

  /** While another set is not finished, a set can be finished without leaving the chunk. */
  lemma {:induction false} FinishSet(chunks: seq<Chunk>, order: seq<int>, c: nat, r: Replay, id: int, other: int)
    returns (order': seq<int>, r': Replay)
    requires At(chunks, order, c, r) && c < |chunks| && ChunkFits(chunks, c) && CutsAt(chunks, c) && id in chunks[0].plans
    requires other != id && Unfinished(chunks, r, other) && (r.again.None? || r.again == Some(id))
    ensures At(chunks, order', c, r') && r'.again.None? && !Unfinished(chunks, r', id)
    ensures forall o :: o != id ==> (Unfinished(chunks, r', o) <==> Unfinished(chunks, r, o))
    decreases |Stream(PlansOf(chunks, id))| - (if r.Ran? && id in r.outs then |r.outs[id]| else 0)
  {
    hide *;
    AtIs(chunks, order, c, r);
    Parts(chunks, r, GotBy(Eager(chunks, order)));
    if !Unfinished(chunks, r, id) {
      order', r' := order, r;
    } else {
      InChunk(chunks, c, id);
      Asked(chunks, r, id);
      var next := EagerCall(chunks, order, c, r, id);
      OneUnfinished(chunks, next, other);
      InvFrom(chunks, next, GotBy(Eager(chunks, order + [id])));
      AtFrom(chunks, order + [id], c, next);
      OutFits(chunks, order + [id], c, next, id);
      order', r' := FinishSet(chunks, order + [id], c, next, id, other);
    }
  }

  lemma Asked(chunks: seq<Chunk>, r: Replay, id: int)
    requires r.Ran? && Fits(chunks, r) && id in chunks[r.c].plans && (r.again.None? || r.again == Some(id))
    ensures MayCall(chunks, r, id)
  {
    hide RecordedSets;
  }

  /** All other sets are finished, then this one: the call that does it goes to the next chunk. */
  lemma {:induction false} FinishLast(chunks: seq<Chunk>, order: seq<int>, c: nat, r: Replay, id: int)
    returns (order': seq<int>, last: Replay)
    requires At(chunks, order, c, r) && c + 1 < |chunks| && ChunkFits(chunks, c) && CutsAt(chunks, c) && id in chunks[0].plans
    requires Unfinished(chunks, r, id) && (forall o :: o != id ==> !Unfinished(chunks, r, o)) && (r.again.None? || r.again == Some(id))
    ensures Allowed(chunks, order') && last.Ran? && Fits(chunks, last) && last.c == c && last.known == FirstKnown(chunks)
    ensures SetsOk(chunks, last, GotBy(Eager(chunks, order'))) && AllDone(chunks[c], last.tables) && id in order'
    ensures Run(chunks, Eager(chunks, order')) == NextChunk(chunks, last, id)
    decreases |Stream(PlansOf(chunks, id))| - (if r.Ran? && id in r.outs then |r.outs[id]| else 0)
  {
    hide *;
    AtIs(chunks, order, c, r);
    Parts(chunks, r, GotBy(Eager(chunks, order)));
    InChunk(chunks, c, id);
    Asked(chunks, r, id);
    var next := EagerCall(chunks, order, c, r, id);
    if AllDone(chunks[c], next.tables) {
      order', last := order + [id], next;
    } else {
      InvFrom(chunks, next, GotBy(Eager(chunks, order + [id])));
      AtFrom(chunks, order + [id], c, next);
      OutFits(chunks, order + [id], c, next, id);
      var left := NotDone(chunks, next, GotBy(Eager(chunks, order + [id])));
      order', last := FinishLast(chunks, order + [id], c, next, id);
    }
  }

  /** All sets but one are finished. */
  lemma {:induction false} FinishOthers(chunks: seq<Chunk>, order: seq<int>, c: nat, r: Replay, id: int, n: nat)
    returns (order': seq<int>, r': Replay)
    requires At(chunks, order, c, r) && c < |chunks| && ChunkFits(chunks, c) && CutsAt(chunks, c) && r.again.None?
    requires Unfinished(chunks, r, id) && n <= |chunks[0].ids|
    ensures At(chunks, order', c, r') && r'.again.None? && Unfinished(chunks, r', id)
    ensures forall k :: 0 <= k < n && chunks[0].ids[k] != id ==> !Unfinished(chunks, r', chunks[0].ids[k])
  {
    hide *;
    AtIs(chunks, order, c, r);
    order', r' := order, r;
    if n > 0 {
      order', r' := FinishOthers(chunks, order, c, r, id, n - 1);
      var s := chunks[0].ids[n - 1];
      if s != id {
        IdsAreKeys(chunks, 0);
        assert s in chunks[0].ids;
        order', r' := FinishSet(chunks, order', c, r', s, id);
      }
    }
  }

  ghost predicate AllUnfinished(chunks: seq<Chunk>, r: Replay)
    requires chunks != [] && r.Ran? && Fits(chunks, r)
  {
    forall id :: id in chunks[0].plans ==> Unfinished(chunks, r, id)
  }

  /** From the beginning of a chunk to its end, with the last call for a set of our choice. */
  lemma FinishChunk(chunks: seq<Chunk>, order: seq<int>, c: nat, r: Replay, id: int)
    returns (order': seq<int>, last: Replay)
    requires At(chunks, order, c, r) && c + 1 < |chunks| && ChunkFits(chunks, c) && CutsAt(chunks, c) && id in chunks[0].plans
    requires AllUnfinished(chunks, r) && (r.again == Some(id) ==> chunks[0].plans.Keys == {id})
    ensures Allowed(chunks, order') && last.Ran? && Fits(chunks, last) && last.c == c && last.known == FirstKnown(chunks)
    ensures SetsOk(chunks, last, GotBy(Eager(chunks, order'))) && AllDone(chunks[c], last.tables) && id in order'
    ensures Run(chunks, Eager(chunks, order')) == NextChunk(chunks, last, id)
  {
    hide *;
    AtIs(chunks, order, c, r);
    Parts(chunks, r, GotBy(Eager(chunks, order)));
    UnfinishedAt(chunks, r, id);
    var order1, r1 := order, r;
    if r.again.Some? && r.again.value != id {
      InChunk(chunks, c, r.again.value);
      order1, r1 := FinishSet(chunks, order, c, r, r.again.value, id);
      AtIs(chunks, order1, c, r1);
    }
    if r1.again.None? {
      order1, r1 := FinishOthers(chunks, order1, c, r1, id, |chunks[0].ids|);
    }
    AtIs(chunks, order1, c, r1);
    IdsAreKeys(chunks, 0);
    forall o | o != id ensures !Unfinished(chunks, r1, o) {
      OnlyInChunk(chunks, r1, o);
      InChunk(chunks, c, o);
      if o in chunks[0].ids {
        var k :| 0 <= k < |chunks[0].ids| && chunks[0].ids[k] == o;
      }
    }
    order', last := FinishLast(chunks, order1, c, r1, id);
  }

  lemma OnlyInChunk(chunks: seq<Chunk>, r: Replay, id: int)
    requires r.Ran? && Fits(chunks, r)
    ensures Unfinished(chunks, r, id) ==> id in chunks[r.c].plans
  {
    hide RecordedSets, DecodedAll;
  }

  lemma UnfinishedAt(chunks: seq<Chunk>, r: Replay, id: int)
    requires chunks != [] && r.Ran? && Fits(chunks, r) && AllUnfinished(chunks, r) && id in chunks[0].plans
    ensures Unfinished(chunks, r, id)
  {
    hide RecordedSets, Unfinished;
  }

  // ----- a chunk begins -----

  /** These calls just opened chunk i, the last of them for this set. */
  ghost predicate JustOpened(chunks: seq<Chunk>, order: seq<int>, i: nat, r: Replay, last: int) {
    && ValidChunks(chunks) && Allowed(chunks, order) && r == Run(chunks, Eager(chunks, order)) && r.Ran? && r.c == i < |chunks|
    && Fits(chunks, r) && r.again == Some(last) && last in chunks[0].plans && last in order
    && forall id :: id in chunks[0].plans ==> SetBegins(chunks, r, GotBy(Eager(chunks, order)), id)
  }

  ghost predicate ChunkOpens(chunks: seq<Chunk>, i: nat)
    requires i < |chunks|
  {
    Open(FirstKnown(chunks), chunks[i].ids, Sources(chunks[i])).Opens?
  }

  lemma JustOpenedIs(chunks: seq<Chunk>, order: seq<int>, i: nat, r: Replay, last: int)
    requires JustOpened(chunks, order, i, r, last)
    ensures ValidChunks(chunks) && chunks != [] && Allowed(chunks, order) && r == Run(chunks, Eager(chunks, order))
    ensures r.Ran? && r.c == i < |chunks| && Fits(chunks, r) && r.again == Some(last) && last in chunks[0].plans && last in order
    ensures forall id :: id in chunks[0].plans ==> SetBegins(chunks, r, GotBy(Eager(chunks, order)), id)
  {
    hide ValidPlans, ValidChunk, Allowed, Run, Eager, SetBegins, Fits;
  }

  lemma JustOpenedFrom(chunks: seq<Chunk>, order: seq<int>, i: nat, r: Replay, last: int)
    requires ValidChunks(chunks) && chunks != [] && Allowed(chunks, order) && r == Run(chunks, Eager(chunks, order))
    requires r.Ran? && r.c == i < |chunks| && Fits(chunks, r) && r.again == Some(last) && last in chunks[0].plans && last in order
    requires forall id :: id in chunks[0].plans ==> SetBegins(chunks, r, GotBy(Eager(chunks, order)), id)
    ensures JustOpened(chunks, order, i, r, last)
  {
    hide ValidChunks, Allowed, Run, Eager, SetBegins, Fits;
  }

  lemma FirstKnownIs(chunks: seq<Chunk>)
    requires ValidChunks(chunks)
    ensures chunks != [] && KnownIs(chunks, FirstKnown(chunks)) && FirstKnown(chunks).Keys == chunks[0].plans.Keys
    ensures forall id :: id in chunks[0].plans ==> id in FirstKnown(chunks) && FirstKnown(chunks)[id].Keys == Sources(chunks[0])
  {
    IdsAreKeys(chunks, 0);
    hide Sources, ValidChunks;
  }

  lemma StartAt(chunks: seq<Chunk>) returns (r: Replay)
    requires ValidChunks(chunks) && |Sources(chunks[0])| <= MAX_MC_LENGTH && ChunkFits(chunks, 0)
    ensures r.Ran? && Fits(chunks, r) && r.c == 0 && r.again.None? && r == Run(chunks, Eager(chunks, [])) && Allowed(chunks, []) && chunks != []
    ensures forall id :: id in chunks[0].plans ==> SetBegins(chunks, r, GotBy(Eager(chunks, [])), id)
    ensures CutsAt(chunks, 0) ==> At(chunks, [], 0, r) && AllUnfinished(chunks, r)
  {
    StartKeeps(chunks);
    hide *;
    SomeChunk(chunks);
    RunStarts(chunks);
    NoTurns(chunks);
    r := StartReplay(chunks);
    FirstKnownIs(chunks);
    StartKnown(chunks);
    if CutsAt(chunks, 0) {
      ChunkBegins(chunks, r, {});
      AtFrom(chunks, [], 0, r);
      BeginUnfinished(chunks, r, {});
    }
  }

  lemma StartKnown(chunks: seq<Chunk>)
    requires ValidChunks(chunks) && |Sources(chunks[0])| <= MAX_MC_LENGTH
    ensures StartReplay(chunks).Ran? && StartReplay(chunks).known == FirstKnown(chunks)
  {
    StartKeeps(chunks);
  }

  lemma BeginUnfinished(chunks: seq<Chunk>, r: Replay, got: set<Tagged>)
    requires ValidChunks(chunks) && r.Ran? && Fits(chunks, r) && ChunkFits(chunks, r.c)
    requires forall id :: id in chunks[0].plans ==> SetBegins(chunks, r, got, id)
    ensures AllUnfinished(chunks, r)
  {
    hide SetBegins, ChunkFits, ValidChunks, Unfinished;
    forall id | id in chunks[0].plans ensures Unfinished(chunks, r, id) {
      InChunk(chunks, r.c, id);
      BeginsNotDone(chunks, r, got, id);
    }
  }

  /** A chunk that was opened, fits, and was cut in clock order. */
  lemma OpenedAt(chunks: seq<Chunk>, order: seq<int>, i: nat, r: Replay, last: int)
    requires JustOpened(chunks, order, i, r, last) && i < |chunks| && ChunkFits(chunks, i) && CutsAt(chunks, i)
    requires r.known == FirstKnown(chunks)
    ensures At(chunks, order, i, r) && r.Ran? && Fits(chunks, r) && AllUnfinished(chunks, r) && r.again == Some(last)
  {
    hide *;
    JustOpenedIs(chunks, order, i, r, last);
    FirstKnownIs(chunks);
    ChunkBegins(chunks, r, GotBy(Eager(chunks, order)));
    AtFrom(chunks, order, i, r);
    BeginUnfinished(chunks, r, GotBy(Eager(chunks, order)));
  }

  /** Another set, if there is one. */
  lemma OtherSet(chunks: seq<Chunk>, last: int) returns (prev: int)
    requires ValidChunks(chunks) && last in chunks[0].plans
    ensures prev in chunks[0].plans && (prev == last ==> chunks[0].plans.Keys == {last})
  {
    hide ValidPlans, ValidChunk;
    IdsAreKeys(chunks, 0);
    var ids := chunks[0].ids;
    if k: nat :| k < |ids| && ids[k] != last {
      prev := ids[k];
      assert prev in ids;
    } else {
      prev := last;
      forall id ensures id in chunks[0].plans.Keys <==> id in {last} {
      }
    }
  }

  /** The end of chunk i, when all chunks up to it fit and were cut in clock order. */
  lemma {:induction false} EndOfChunk(chunks: seq<Chunk>, i: nat, last: int) returns (order: seq<int>, r: Replay)
    requires ValidChunks(chunks) && |Sources(chunks[0])| <= MAX_MC_LENGTH && i + 1 < |chunks| && GoodTo(chunks, i + 1) && last in chunks[0].plans
    ensures Allowed(chunks, order) && r.Ran? && Fits(chunks, r) && r.c == i && r.known == FirstKnown(chunks) && last in order
    ensures SetsOk(chunks, r, GotBy(Eager(chunks, order))) && AllDone(chunks[i], r.tables)
    ensures Run(chunks, Eager(chunks, order)) == NextChunk(chunks, r, last)
    decreases i
  {
    hide *;
    SomeChunk(chunks);
    GoodAt(chunks, i + 1, i);
    if i == 0 {
      var start := StartAt(chunks);
      order, r := FinishChunk(chunks, [], 0, start, last);
    } else {
      GoodBefore(chunks, i + 1, i);
      var prev := OtherSet(chunks, last);
      FirstKnownIs(chunks);
      OpensNext(chunks, FirstKnown(chunks), i);
      ChunkOpensIs(chunks, i);
      var order0, r0 := Reach(chunks, i, prev);
      OpenedAt(chunks, order0, i, r0, prev);
      order, r := FinishChunk(chunks, order0, i, r0, last);
    }
  }

  lemma ChunkOpensIs(chunks: seq<Chunk>, i: nat)
    requires i < |chunks|
    ensures ChunkOpens(chunks, i) <==> Open(FirstKnown(chunks), chunks[i].ids, Sources(chunks[i])).Opens?
  {
  }

  lemma GoodBefore(chunks: seq<Chunk>, n: nat, m: nat)
    requires m <= n <= |chunks| && GoodTo(chunks, n)
    ensures GoodTo(chunks, m)
  {
    hide ChunkFits, CutsAt;
  }

  /** The beginning of chunk i, opened by a call for a set of our choice. */
  lemma {:induction false} Reach(chunks: seq<Chunk>, i: nat, last: int) returns (order: seq<int>, r: Replay)
    requires ValidChunks(chunks) && |Sources(chunks[0])| <= MAX_MC_LENGTH && 0 < i < |chunks| && GoodTo(chunks, i) && last in chunks[0].plans
    requires ChunkOpens(chunks, i)
    ensures JustOpened(chunks, order, i, r, last) && r.Ran? && Opens(r.known) == Open(FirstKnown(chunks), chunks[i].ids, Sources(chunks[i]))
    decreases i, 0
  {
    hide *;
    SomeChunk(chunks);
    var before;
    order, before := EndOfChunk(chunks, i - 1, last);
    ChunkOpensIs(chunks, i);
    GoodAt(chunks, i, i - 1);
    var known := Open(FirstKnown(chunks), chunks[i].ids, Sources(chunks[i])).known;
    r := ChunkEnds(chunks, before, GotBy(Eager(chunks, order)), known, last);
    JustOpenedFrom(chunks, order, i, r, last);
  }

  // ----- a chunk that does not fit -----

  /** The tables of chunk i can be looked up when its sets and sources are known. */
  predicate CanLookUp(chunk: Chunk, known: Bounds, id: int) {
    id in chunk.plans && id in known && chunk.plans[id].epoch.line.Keys <= known[id].Keys
  }

  lemma LookedUpFits(chunks: seq<Chunk>, i: nat)
    requires ValidChunks(chunks) && 0 < i < |chunks| && ChunkOpens(chunks, i)
    requires forall id :: id in chunks[0].plans ==> CanLookUp(chunks[i], Open(FirstKnown(chunks), chunks[i].ids, Sources(chunks[i])).known, id)
    ensures ChunkFits(chunks, i)
  {
    FirstKnownIs(chunks);
    IdsAreKeys(chunks, 0);
    IdsAreKeys(chunks, i);
    var known, ids, sources := FirstKnown(chunks), chunks[i].ids, Sources(chunks[i]);
    assert |known| == |known.Keys| && |chunks[0].plans| == |chunks[0].plans.Keys|;
    hide ValidChunks, FirstKnown, Sources, KnownIs;
    NotMoreSets(known, ids, sources);
    SameSize(chunks[0].plans.Keys, chunks[i].plans.Keys);
    hide Open;
    LaterChunkOpensIff(known, ids, sources);
    SourcesWithin(chunks[i], Sources(chunks[0]), known);
  }

  lemma NotMoreSets(known: Bounds, ids: seq<int>, sources: set<int>)
    requires Open(known, ids, sources).Opens?
    ensures |known| != 0 ==> |ids| <= |known|
  {
    hide KnowSets;
  }

  lemma SameSize(a: set<int>, b: set<int>)
    requires a <= b && |b| <= |a|
    ensures a == b
  {
    assert b == a + (b - a);
  }

  lemma SourcesWithin(chunk: Chunk, sources: set<int>, known: Bounds)
    requires forall id :: id in chunk.plans ==> CanLookUp(chunk, known, id) && known[id].Keys == sources
    ensures Sources(chunk) <= sources
  {
    forall s | s in Sources(chunk) ensures s in sources {
      var id: int :| id in chunk.plans && s in chunk.plans[id].epoch.line;
      assert CanLookUp(chunk, known, id);
    }
  }

  /** Some set of the first chunk that cannot be looked up in chunk i. */
  lemma LostSet(chunks: seq<Chunk>, i: nat) returns (last: int)
    requires ValidChunks(chunks) && 0 < i < |chunks| && ChunkOpens(chunks, i) && !ChunkFits(chunks, i)
    ensures last in chunks[0].plans && !CanLookUp(chunks[i], Open(FirstKnown(chunks), chunks[i].ids, Sources(chunks[i])).known, last)
  {
    hide ValidPlans, ValidChunk, CanLookUp, ChunkFits, FirstKnown, Sources;
    IdsAreKeys(chunks, 0);
    var ids, known := chunks[0].ids, Open(FirstKnown(chunks), chunks[i].ids, Sources(chunks[i])).known;
    if k: nat :| k < |ids| && !CanLookUp(chunks[i], known, ids[k]) {
      last := ids[k];
      assert last in ids;
    } else {
      forall id | id in chunks[0].plans ensures CanLookUp(chunks[i], known, id) {
        var k :| 0 <= k < |ids| && ids[k] == id;
      }
      LookedUpFits(chunks, i);
    }
  }

  /** The first chunk that does not fit stops some possible run: it cannot be opened, or a set or source is not found. */
  lemma UnfitChunkStops(chunks: seq<Chunk>, i: nat) returns (turns: seq<Turn>)
    requires ValidChunks(chunks) && |Sources(chunks[0])| <= MAX_MC_LENGTH && 0 < i < |chunks| && GoodTo(chunks, i) && !ChunkFits(chunks, i)
    ensures Possible(chunks, turns) && Run(chunks, turns).Broke? && !Run(chunks, turns).reason.Decoder?
  {
    hide *;
    SomeChunk(chunks);
    ChunkOpensIs(chunks, i);
    if ChunkOpens(chunks, i) {
      var last := LostSet(chunks, i);
      var order, r := Reach(chunks, i, last);
      JustOpenedIs(chunks, order, i, r, last);
      LookUpIs(chunks[i], r.known, last);
      turns := Stopped(chunks, order, r, last);
    } else {
      var first := FirstSet(chunks);
      var order, r := EndOfChunk(chunks, i - 1, first);
      turns := Eager(chunks, order);
      EagerIsPossible(chunks, order);
      Refuses(chunks, r, first);
    }
  }

  lemma FirstSet(chunks: seq<Chunk>) returns (id: int)
    requires ValidChunks(chunks)
    ensures id in chunks[0].plans
  {
    IdsAreKeys(chunks, 0);
    hide ValidChunks;
    id := chunks[0].ids[0];
    assert id in chunks[0].ids;
  }

  lemma LookUpIs(chunk: Chunk, known: Bounds, id: int)
    ensures CanLookUp(chunk, known, id) <==> id in chunk.plans && id in known && chunk.plans[id].epoch.line.Keys <= known[id].Keys
  {
  }

  lemma Refuses(chunks: seq<Chunk>, r: Replay, id: int)
    requires r.Ran? && Fits(chunks, r) && r.c + 1 < |chunks| && Open(r.known, chunks[r.c + 1].ids, Sources(chunks[r.c + 1])).Refused?
    ensures NextChunk(chunks, r, id).Broke? && NextChunk(chunks, r, id).reason.Opening?
  {
    hide Open, Sources, RecordedSets;
  }

  lemma Stopped(chunks: seq<Chunk>, order: seq<int>, r: Replay, id: int) returns (turns: seq<Turn>)
    requires ValidChunks(chunks) && chunks != [] && Allowed(chunks, order) && r == Run(chunks, Eager(chunks, order)) && r.Ran? && Fits(chunks, r)
    requires r.again == Some(id) && !CanLookUp(chunks[r.c], r.known, id)
    ensures Possible(chunks, turns) && Run(chunks, turns).Broke? && !Run(chunks, turns).reason.Decoder?
  {
    hide *;
    turns := Eager(chunks, order + [id]);
    EagerStep(chunks, order, id);
    assert (order + [id])[..|order|] == order;
    AllowedIs(chunks, order + [id]);
    AskedAgain(chunks, r, id);
    EagerIsPossible(chunks, order + [id]);
    OneMoreTurn(chunks, turns);
    var t := turns[|order|];
    NextCallIs(chunks, Eager(chunks, order), id);
    TakenIs(chunks, r, t);
    SameKnown(chunks, r, id, t.arrivals);
    InRecord(chunks, r);
    LookUpIs(chunks[r.c], r.known, id);
    CallStops(chunks, Arrive(r, id, t.arrivals), id, t.bound, t.localClock);
  }

  lemma AskedAgain(chunks: seq<Chunk>, r: Replay, id: int)
    requires r.Ran? && Fits(chunks, r) && r.again == Some(id)
    ensures MayCall(chunks, r, id)
  {
    hide RecordedSets;
  }

  lemma SameKnown(chunks: seq<Chunk>, r: Replay, id: int, msgs: seq<Msg>)
    requires r.Ran? && Fits(chunks, r)
    ensures var next := Arrive(r, id, msgs); next.Ran? && next.known == r.known && next.c == r.c && next.again == r.again && next.outs == r.outs
  {
  }

  // ----- a chunk that was cut out of clock order -----

  /** These calls are inside chunk i, which reads messages of later chunks into the table of this set. */
  ghost predicate Reading(chunks: seq<Chunk>, order: seq<int>, i: nat, id: int, r: Replay, s: Progress, out: seq<Item>, all: set<Msg>) {
    && ValidChunks(chunks) && Allowed(chunks, order) && r == Run(chunks, Eager(chunks, order)) && r.Ran? && r.c == i < |chunks|
    && Fits(chunks, r) && CanLookUp(chunks[i], r.known, id) && (r.again.None? || r.again == Some(id)) && id in r.tables && id in r.outs
    && s == r.tables[id].(waiting := r.tables[id].waiting + NextCall(chunks, Eager(chunks, order), id).arrivals)
    && InChunkReads(PlansOf(chunks, id), i, r.outs[id], s, out, all)
  }

  ghost predicate InChunkReads(plans: seq<Plan>, i: nat, outs: seq<Item>, s: Progress, out: seq<Item>, all: set<Msg>) {
    && ValidPlans(plans) && i < |plans| && ReadsWide(plans, i) && plans[i].recording.events != [] && outs == StreamTo(plans, i) + out
    && WideInv(plans, i, s, out, all) && AllArrived(KeysFrom(plans, i), all) && !DecodedAll(plans[i].epoch, s)
  }

  /** What chunk i hands out for the set in the end. */
  ghost function ReadSmallest(plans: seq<Plan>, i: nat): seq<Item>
    requires i < |plans| && ReadsWide(plans, i)
  {
    StreamTo(plans, i) + Items(Misread(plans, i).events, plans[i].recording.unmatched)
  }

  lemma ReadStep(plans: seq<Plan>, i: nat, outs: seq<Item>, s: Progress, out: seq<Item>, all: set<Msg>, bound: Msg, localClock: int)
    returns (next: Progress, emitted: seq<Item>)
    requires InChunkReads(plans, i, outs, s, out, all)
    ensures i < |plans| && ReadsWide(plans, i)
    ensures var o := Step(plans[i].epoch, s, bound, localClock); o.Decoded? && next == o.next && emitted == o.emitted && emitted != []
    ensures if DecodedAll(plans[i].epoch, next) then outs + emitted == ReadSmallest(plans, i)
      else InChunkReads(plans, i, outs + emitted, next, out + emitted, all)
  {
    hide *;
    ReadIs(plans, i, outs, s, out, all);
    WideStep(plans, i, s, out, all, bound, localClock);
    var o := Step(plans[i].epoch, s, bound, localClock);
    next, emitted := o.next, o.emitted;
    assert outs + emitted == StreamTo(plans, i) + (out + emitted);
    if DecodedAll(plans[i].epoch, next) {
      WideIsDone(plans, i, next, out + emitted, all);
      SmallestIs(plans, i);
    } else {
      ReadFrom(plans, i, outs + emitted, next, out + emitted, all);
    }
  }

  lemma SmallestIs(plans: seq<Plan>, i: nat)
    requires i < |plans| && ReadsWide(plans, i)
    ensures ValidPlan(plans[i]) && LetsIn(plans[i].epoch, plans[i].recording, LetIn(plans, i))
    ensures ReadSmallest(plans, i) == StreamTo(plans, i) + Items(Misread(plans, i).events, plans[i].recording.unmatched)
  {
    hide ValidPlan, LetsIn, LetIn, Misread, StreamTo, Items;
  }

  lemma ReadIs(plans: seq<Plan>, i: nat, outs: seq<Item>, s: Progress, out: seq<Item>, all: set<Msg>)
    requires InChunkReads(plans, i, outs, s, out, all)
    ensures ValidPlans(plans) && i < |plans| && ReadsWide(plans, i) && plans[i].recording.events != [] && outs == StreamTo(plans, i) + out
    ensures WideInv(plans, i, s, out, all) && AllArrived(KeysFrom(plans, i), all) && !DecodedAll(plans[i].epoch, s)
  {
    hide ValidPlans, ReadsWide, StreamTo, WideInv, AllArrived, KeysFrom, DecodedAll;
  }

  lemma ReadFrom(plans: seq<Plan>, i: nat, outs: seq<Item>, s: Progress, out: seq<Item>, all: set<Msg>)
    requires ValidPlans(plans) && i < |plans| && ReadsWide(plans, i) && plans[i].recording.events != [] && outs == StreamTo(plans, i) + out
    requires WideInv(plans, i, s, out, all) && AllArrived(KeysFrom(plans, i), all) && !DecodedAll(plans[i].epoch, s)
    ensures InChunkReads(plans, i, outs, s, out, all)
  {
    hide ValidPlans, ReadsWide, StreamTo, WideInv, AllArrived, KeysFrom, DecodedAll;
  }

  lemma ReadingIs(chunks: seq<Chunk>, order: seq<int>, i: nat, id: int, r: Replay, s: Progress, out: seq<Item>, all: set<Msg>)
    requires Reading(chunks, order, i, id, r, s, out, all)
    ensures ValidChunks(chunks) && chunks != [] && Allowed(chunks, order) && r == Run(chunks, Eager(chunks, order)) && r.Ran? && r.c == i < |chunks|
    ensures Fits(chunks, r) && CanLookUp(chunks[i], r.known, id) && (r.again.None? || r.again == Some(id)) && id in r.tables && id in r.outs
    ensures s == r.tables[id].(waiting := r.tables[id].waiting + NextCall(chunks, Eager(chunks, order), id).arrivals)
    ensures InChunkReads(PlansOf(chunks, id), i, r.outs[id], s, out, all)
  {
    hide ValidPlans, ValidChunk, Allowed, Run, Eager, Fits, CanLookUp, NextCall, InChunkReads, PlansOf;
  }

  lemma ReadingFrom(chunks: seq<Chunk>, order: seq<int>, i: nat, id: int, r: Replay, s: Progress, out: seq<Item>, all: set<Msg>)
    requires ValidChunks(chunks) && chunks != [] && Allowed(chunks, order) && r == Run(chunks, Eager(chunks, order)) && r.Ran? && r.c == i < |chunks|
    requires Fits(chunks, r) && CanLookUp(chunks[i], r.known, id) && (r.again.None? || r.again == Some(id)) && id in r.tables && id in r.outs
    requires s == r.tables[id].(waiting := r.tables[id].waiting + NextCall(chunks, Eager(chunks, order), id).arrivals)
    requires InChunkReads(PlansOf(chunks, id), i, r.outs[id], s, out, all)
    ensures Reading(chunks, order, i, id, r, s, out, all)
  {
    hide ValidChunks, Allowed, Run, Eager, Fits, CanLookUp, NextCall, InChunkReads, PlansOf;
  }

  /** One more call for the set: it hands out something, and its table may be done. */
  lemma ReadingCall(chunks: seq<Chunk>, order: seq<int>, i: nat, id: int, r: Replay, s: Progress, out: seq<Item>, all: set<Msg>)
    returns (next: Replay, emitted: seq<Item>)
    requires Reading(chunks, order, i, id, r, s, out, all)
    ensures Possible(chunks, Eager(chunks, order + [id])) && Allowed(chunks, order + [id]) && chunks != []
    ensures i < |PlansOf(chunks, id)| && ReadsWide(PlansOf(chunks, id), i) && PlansOf(chunks, id)[i] == PlanAt(chunks[i], id)
    ensures next.Ran? && Fits(chunks, next) && next.c == i && id in next.outs && id in next.tables && emitted != []
    ensures if DecodedAll(PlanAt(chunks[i], id).epoch, next.tables[id]) then
        && next.outs[id] == ReadSmallest(PlansOf(chunks, id), i)
        && Run(chunks, Eager(chunks, order + [id])) == if AllDone(chunks[i], next.tables) && i + 1 < |chunks| then NextChunk(chunks, next, id) else next
      else Reading(chunks, order + [id], i, id, next, next.tables[id], out + emitted, all)
  {
    hide *;
    ReadingIs(chunks, order, i, id, r, s, out, all);
    var turns := Eager(chunks, order + [id]);
    EagerStep(chunks, order, id);
    assert (order + [id])[..|order|] == order;
    AllowedIs(chunks, order + [id]);
    LookUpIs(chunks[i], r.known, id);
    Asked(chunks, r, id);
    EagerIsPossible(chunks, order + [id]);
    OneMoreTurn(chunks, turns);
    var t := turns[|order|];
    NextCallIs(chunks, Eager(chunks, order), id);
    TakenIs(chunks, r, t);
    ArriveIs(chunks, r, id, t.arrivals);
    var r' := Arrive(r, id, t.arrivals);
    PlansAre(chunks, id, i);
    var s';
    s', emitted := ReadStep(PlansOf(chunks, id), i, r.outs[id], s, out, all, t.bound, t.localClock);
    next := CallIs(chunks, r', id, t.bound, t.localClock, s', emitted);
    if !DecodedAll(PlanAt(chunks[i], id).epoch, s') {
      NotAllDone(chunks[i], next.tables, id);
      NothingMore(chunks, order, id);
      assert s'.waiting + [] == s'.waiting;
      ReadingFrom(chunks, order + [id], i, id, next, s', out + emitted, all);
    }
  }

  lemma NotAllDone(chunk: Chunk, tables: map<int, Progress>, id: int)
    requires id in chunk.plans && id in tables && !DecodedAll(chunk.plans[id].epoch, tables[id])
    ensures !AllDone(chunk, tables)
  {
  }

  /** After its first call a set brings nothing more. */
  lemma NothingMore(chunks: seq<Chunk>, order: seq<int>, id: int)
    ensures NextCall(chunks, Eager(chunks, order + [id]), id).arrivals == []
  {
    EagerArrived(chunks, order + [id], id);
  }

  lemma {:induction false} ReadOn(chunks: seq<Chunk>, order: seq<int>, i: nat, id: int, r: Replay, s: Progress, out: seq<Item>, all: set<Msg>, size: int)
    returns (order': seq<int>, last: Replay)
    requires Reading(chunks, order, i, id, r, s, out, all)
    requires forall s, out :: InChunkReads(PlansOf(chunks, id), i, StreamTo(PlansOf(chunks, id), i) + out, s, out, all) ==> |out| <= size
    ensures Possible(chunks, Eager(chunks, order')) && chunks != [] && i < |PlansOf(chunks, id)| && ReadsWide(PlansOf(chunks, id), i)
    ensures last.Ran? && Fits(chunks, last) && last.c == i && id in last.outs && last.outs[id] == ReadSmallest(PlansOf(chunks, id), i)
    ensures Run(chunks, Eager(chunks, order')) == if AllDone(chunks[i], last.tables) && i + 1 < |chunks| then NextChunk(chunks, last, id) else last
    decreases size - |out|
  {
    hide *;
    ReadingIs(chunks, order, i, id, r, s, out, all);
    ReadIs(PlansOf(chunks, id), i, r.outs[id], s, out, all);
    var next, emitted := ReadingCall(chunks, order, i, id, r, s, out, all);
    if DecodedAll(PlanAt(chunks[i], id).epoch, next.tables[id]) {
      order', last := order + [id], next;
    } else {
      order', last := ReadOn(chunks, order + [id], i, id, next, next.tables[id], out + emitted, all, size);
    }
  }

  /** How much a table can still hand out. */
  lemma ReadBound(plans: seq<Plan>, i: nat, s: Progress, out: seq<Item>, all: set<Msg>) returns (size: nat)
    requires i <= |plans| && InChunkReads(plans, i, StreamTo(plans, i) + out, s, out, all)
    ensures forall s, out :: InChunkReads(plans, i, StreamTo(plans, i) + out, s, out, all) ==> |out| <= size
  {
    ReadIs(plans, i, StreamTo(plans, i) + out, s, out, all);
    hide *;
    size := WideFits(plans, i, s, out, all);
    WideBound(plans, i, all, size);
    forall s, out | InChunkReads(plans, i, StreamTo(plans, i) + out, s, out, all) ensures |out| <= size {
      ReadIs(plans, i, StreamTo(plans, i) + out, s, out, all);
    }
  }

  /** The state in which the table of the set begins, with all messages there. */
  lemma BeginsToRead(chunks: seq<Chunk>, order: seq<int>, r: Replay, i: nat, id: int) returns (s: Progress, all: set<Msg>)
    requires ValidChunks(chunks) && chunks != [] && Allowed(chunks, order) && r == Run(chunks, Eager(chunks, order)) && r.Ran? && r.c == i < |chunks|
    requires Fits(chunks, r) && CanLookUp(chunks[i], r.known, id) && (r.again.None? || r.again == Some(id)) && id in chunks[0].plans
    requires SetBegins(chunks, r, GotBy(Eager(chunks, order)), id) && !CutAt(PlansOf(chunks, id), i) && (order == [] ==> i == 0)
    requires order != [] ==> id in order
    ensures Reading(chunks, order, i, id, r, s, [], all)
  {
    hide *;
    PlansAre(chunks, id, i);
    SetBeginsIs(chunks, r, GotBy(Eager(chunks, order)), id);
    var plans, arrivals := PlansOf(chunks, id), NextCall(chunks, Eager(chunks, order), id).arrivals;
    s := r.tables[id].(waiting := r.tables[id].waiting + arrivals);
    all := AsSet(Sort(AllKeys(plans)));
    GotIsArrived(Eager(chunks, order), id);
    EagerArrived(chunks, order, id);
    NextCallIs(chunks, Eager(chunks, order), id);
    FreshParts(plans, i, r.tables[id], r.outs[id], ArrivedFor(GotBy(Eager(chunks, order)), id));
    AllOfEpochsArrived(plans, i);
    if order == [] {
      NothingHere(chunks, r, id);
      assert s.waiting == Sort(AllKeys(plans));
      SortedIsHeld(AllKeys(plans));
    } else {
      assert s.waiting == r.tables[id].waiting;
    }
    MisreadIffOutOfOrder(plans, i);
    WideBegins(plans, i, s, all);
    CutHasEvents(plans, i, s);
    assert StreamTo(plans, i) + [] == StreamTo(plans, i);
    ReadFrom(plans, i, r.outs[id], s, [], all);
    ReadingFrom(chunks, order, i, id, r, s, [], all);
  }

  lemma SetBeginsIs(chunks: seq<Chunk>, r: Replay, got: set<Tagged>, id: int)
    requires r.Ran? && SetBegins(chunks, r, got, id)
    ensures id in r.tables && id in r.outs && ValidPlans(PlansOf(chunks, id))
    ensures Fresh(PlansOf(chunks, id), r.c, r.tables[id], r.outs[id], ArrivedFor(got, id))
  {
    hide ValidPlans, Fresh, PlansOf, ArrivedFor;
  }

  lemma NothingHere(chunks: seq<Chunk>, r: Replay, id: int)
    requires chunks != [] && r == Run(chunks, Eager(chunks, [])) && r.Ran? && id in r.tables
    ensures r.tables[id].waiting == []
  {
    hide Open, Sources, RecordedSets, PlanAt;
  }

  /**
    The first chunk in which a set was cut out of clock order, when everything arrives before the
    first call of each set: it hands out as many events as were recorded, without a failure, but with
    the smallest messages that its line lets in, later ones among them, in the recorded permutation.
    Only opening the chunk behind it can fail.
   */
  lemma ChunkReadsSmallest(chunks: seq<Chunk>, i: nat, id: int) returns (turns: seq<Turn>)
    requires ValidChunks(chunks) && |Sources(chunks[0])| <= MAX_MC_LENGTH && i < |chunks| && GoodTo(chunks, i) && ChunkFits(chunks, i)
    requires id in chunks[0].plans && !CutAt(PlansOf(chunks, id), i)
    ensures Possible(chunks, turns) && ReadsWide(PlansOf(chunks, id), i)
    ensures Run(chunks, turns).Ran? ==> id in Run(chunks, turns).outs
    ensures Run(chunks, turns).Ran? ==> Run(chunks, turns).outs[id] == ReadSmallest(PlansOf(chunks, id), i)
    ensures Run(chunks, turns).Broke? ==> Run(chunks, turns).reason.Opening?
  {
    hide *;
    SomeChunk(chunks);
    FirstKnownIs(chunks);
    InChunk(chunks, i, id);
    InChunk(chunks, 0, id) by { FirstFits(chunks); }
    var order, r := [], StartReplay(chunks);
    if i == 0 {
      FirstFits(chunks);
      r := StartAt(chunks);
      StartKnown(chunks);
      RunStarts(chunks);
      NoTurns(chunks);
    } else {
      OpensNext(chunks, FirstKnown(chunks), i);
      ChunkOpensIs(chunks, i);
      order, r := Reach(chunks, i, id);
      JustOpenedIs(chunks, order, i, r, id);
    }
    LineIsKnown(chunks[i], id);
    LookUpIs(chunks[i], r.known, id);
    var s, all := BeginsToRead(chunks, order, r, i, id);
    ReadingIs(chunks, order, i, id, r, s, [], all);
    ReadIs(PlansOf(chunks, id), i, r.outs[id], s, [], all);
    var size := ReadBound(PlansOf(chunks, id), i, s, [], all);
    var order', last := ReadOn(chunks, order, i, id, r, s, [], all, size);
    turns := Eager(chunks, order');
    if AllDone(chunks[i], last.tables) && i + 1 < |chunks| {
      NextOuts(chunks, last, id);
    }
  }

  lemma FirstFits(chunks: seq<Chunk>)
    requires chunks != []
    ensures ChunkFits(chunks, 0)
  {
  }

  lemma NextOuts(chunks: seq<Chunk>, r: Replay, id: int)
    requires r.Ran? && Fits(chunks, r) && r.c + 1 < |chunks|
    ensures NextChunk(chunks, r, id).Ran? ==> NextChunk(chunks, r, id).outs == r.outs
    ensures NextChunk(chunks, r, id).Broke? ==> NextChunk(chunks, r, id).reason.Opening?
  {
    hide Open, Sources, RecordedSets;
  }

  // ----- the exact condition -----

  lemma FaithfulIs(chunks: seq<Chunk>, turns: seq<Turn>)
    requires chunks != [] && Faithful(chunks, turns)
    ensures Run(chunks, turns).Ran?
    ensures forall id :: id in Run(chunks, turns).outs ==> Run(chunks, turns).outs[id] <= Stream(PlansOf(chunks, id))
  {
    hide Run, Stream, PlansOf;
  }

  /** Whatever is wrong with the record shows in some possible run. */
  lemma {:induction false} UnlessReplayable(chunks: seq<Chunk>, i: nat) returns (turns: seq<Turn>)
    requires ValidChunks(chunks) && |Sources(chunks[0])| <= MAX_MC_LENGTH && i <= |chunks| && GoodTo(chunks, i) && !GoodTo(chunks, |chunks|)
    ensures chunks != [] && Possible(chunks, turns) && !Faithful(chunks, turns)
    decreases |chunks| - i
  {
    hide *;
    SomeChunk(chunks);
    FirstFits(chunks);
    if !ChunkFits(chunks, i) {
      turns := UnfitChunkStops(chunks, i);
      if Faithful(chunks, turns) {
        FaithfulIs(chunks, turns);
      }
    } else if !CutsAt(chunks, i) {
      var id := BadCut(chunks, i);
      turns := ChunkReadsSmallest(chunks, i, id);
      if Faithful(chunks, turns) {
        FaithfulIs(chunks, turns);
        PlansAre(chunks, id, i);
        MisreadShows(PlansOf(chunks, id), i);
        assert id in Run(chunks, turns).outs;
      }
    } else {
      OneMoreGood(chunks, i);
      turns := UnlessReplayable(chunks, i + 1);
    }
  }

  lemma BadCut(chunks: seq<Chunk>, i: nat) returns (id: int)
    requires ValidChunks(chunks) && i < |chunks| && !CutsAt(chunks, i)
    ensures id in chunks[0].plans && !CutAt(PlansOf(chunks, id), i)
  {
    hide ValidPlans, ValidChunk, CutAt, PlansOf, CutsAt;
    IdsAreKeys(chunks, 0);
    var ids := chunks[0].ids;
    if k: nat :| k < |ids| && !CutAt(PlansOf(chunks, ids[k]), i) {
      id := ids[k];
      assert id in ids;
    } else {
      forall id | id in chunks[0].plans ensures CutAt(PlansOf(chunks, id), i) {
        var k :| 0 <= k < |ids| && ids[k] == id;
      }
      CutsFrom(chunks, i);
    }
  }

  lemma CutsFrom(chunks: seq<Chunk>, i: nat)
    requires i < |chunks| && forall id :: id in chunks[0].plans ==> CutAt(PlansOf(chunks, id), i)
    ensures CutsAt(chunks, i)
  {
    hide CutAt, PlansOf;
  }

  lemma OneMoreGood(chunks: seq<Chunk>, i: nat)
    requires i < |chunks| && GoodTo(chunks, i) && ChunkFits(chunks, i) && CutsAt(chunks, i)
    ensures GoodTo(chunks, i + 1)
  {
    hide ChunkFits, CutsAt;
  }

  lemma MisreadShows(plans: seq<Plan>, i: nat)
    requires ValidPlans(plans) && i < |plans| && ReadsWide(plans, i) && !CutAt(plans, i)
    ensures !(ReadSmallest(plans, i) <= Stream(plans))
  {
    hide *;
    MisreadIffOutOfOrder(plans, i);
    ReadsIs(plans, i);
    SmallestIs(plans, i);
    MisreadSize(plans, i);
    NotThePrefix(plans, i, Misread(plans, i).events);
  }

  lemma MisreadSize(plans: seq<Plan>, i: nat)
    requires i < |plans| && ReadsWide(plans, i)
    ensures |Misread(plans, i).events| == |plans[i].recording.events|
  {
    MisreadEvents(plans, i);
    hide Misread, LetIn, ValidPlan, LetsIn;
  }

  lemma ReadsIs(plans: seq<Plan>, i: nat)
    requires i < |plans| && ReadsWide(plans, i)
    ensures ValidPlan(plans[i]) && LetsIn(plans[i].epoch, plans[i].recording, LetIn(plans, i))
  {
  }

  /** A first chunk with too many sources cannot be opened. */
  lemma TooManySourcesStop(chunks: seq<Chunk>)
    requires ValidChunks(chunks) && |Sources(chunks[0])| > MAX_MC_LENGTH
    ensures Possible(chunks, []) && Run(chunks, []) == Broke(Opening(TooManySources))
  {
    IdsAreKeys(chunks, 0);
    FirstChunkOpens(chunks[0].ids, Sources(chunks[0]));
    EagerIsPossible(chunks, []);
  }

  /**
    Exactly when the replay of a record is faithful: every possible run opens all chunks, decodes
    without a failure and hands out a prefix of the recorded stream of every set, if and only if the
    first chunk has at most 1024 sources, every later chunk has the sets of the first one, as many
    sources as sets, and no new source, and every set was cut in clock order for every source at
    every chunk.
   */
  lemma FaithfulIffReplayable(chunks: seq<Chunk>)
    requires ValidChunks(chunks)
    ensures (forall turns :: Possible(chunks, turns) ==> Faithful(chunks, turns)) <==> Replayable(chunks)
  {
    hide *;
    SomeChunk(chunks);
    if Replayable(chunks) {
      forall turns | Possible(chunks, turns) ensures Faithful(chunks, turns) {
        ReplayableMeansFaithful(chunks, turns);
      }
    } else {
      var turns := Misled(chunks);
    }
  }

  lemma Misled(chunks: seq<Chunk>) returns (turns: seq<Turn>)
    requires ValidChunks(chunks) && chunks != [] && !Replayable(chunks)
    ensures Possible(chunks, turns) && !Faithful(chunks, turns)
  {
    if |Sources(chunks[0])| > MAX_MC_LENGTH {
      turns := [];
      TooManySourcesStop(chunks);
    } else {
      hide ValidChunks, ChunkFits, CutsAt, Possible, Faithful, Sources;
      turns := UnlessReplayable(chunks, 0);
    }
  }

  // ----- records of one set -----

  /** A record of one set: every later chunk must have one source, and the first chunk this one, too. */
  lemma OneSetFitsIff(chunks: seq<Chunk>, id: int, k: nat)
    requires 0 < k < |chunks| && chunks[0].plans.Keys == {id} && chunks[k].plans.Keys == {id}
    ensures ChunkFits(chunks, k) <==> exists source :: Sources(chunks[k]) == {source} && source in Sources(chunks[0])
  {
    assert |chunks[0].plans| == |chunks[0].plans.Keys| == 1;
    hide Sources;
    if ChunkFits(chunks, k) {
      var source := OnlyElement(Sources(chunks[k]));
      assert source in Sources(chunks[k]);
    }
  }

  lemma OnlyElement<T>(s: set<T>) returns (x: T)
    requires |s| == 1
    ensures s == {x}
  {
    x :| x in s;
    assert |s - {x}| == 0;
  }

  /** Two messages of different sources, received in the order of their clocks. */
  function TwoPlan(a: Msg, b: Msg): Plan {
    Plan(Epoch(2, [0, 1], [], [0, 0], map[a.source := a.clock, b.source := b.clock]),
         Recording([Matched(a.source, a.clock, false, 0), Matched(b.source, b.clock, false, 0)], map[]))
  }

  lemma TwoPlanIsValid(a: Msg, b: Msg)
    requires 0 < a.clock < b.clock && a.source != b.source
    ensures ValidPlan(TwoPlan(a, b)) && KeysOf(TwoPlan(a, b)) == [a, b]
  {
    var p := TwoPlan(a, b);
    TwoAreRecorded(a, b);
    hide ValidRecording, Ts, Ks, Sort;
    assert a in [a, b] && b in [a, b];
    assert IsLine([a, b], p.epoch.line);
  }

  lemma TwoAreRecorded(a: Msg, b: Msg)
    requires 0 < a.clock < b.clock && a.source != b.source
    ensures ValidRecording(TwoPlan(a, b).recording) && Ks(TwoPlan(a, b).recording) == [a, b] && Ts(TwoPlan(a, b).recording) == [a, b]
  {
    assert Keys(TwoPlan(a, b).recording.events) == [a, b];
    SortedUnique(Sort([a, b]), [a, b]);
  }

  function OneSetChunk(id: int, p: Plan): Chunk {
    Chunk([id], map[id := p])
  }

  lemma OneSetRecord(id: int, first: Plan, second: Plan) returns (chunks: seq<Chunk>)
    requires ValidPlan(first) && ValidPlan(second) && Nonempty(first) && Nonempty(second)
    requires NoRepeats(KeysOf(first) + KeysOf(second)) && CutInClockOrder(KeysOf(first), KeysOf(second))
    ensures chunks == [OneSetChunk(id, first), OneSetChunk(id, second)] && ValidChunks(chunks)
    ensures AllCutsInOrder(PlansOf(chunks, id)) && PlansOf(chunks, id) == [first, second]
  {
    hide *;
    chunks := [OneSetChunk(id, first), OneSetChunk(id, second)];
    OneSetIsValid(id, first);
    OneSetIsValid(id, second);
    TwoChunks([first, second]);
    NoPlansAreValid();
    forall o ensures ValidPlans(PlansOf(chunks, o)) {
      PlansOfTwo(chunks, id, first, second, o);
    }
    PlansOfTwo(chunks, id, first, second, id);
    TwoAreValid(chunks);
  }

  lemma OneSetIsValid(id: int, p: Plan)
    requires Nonempty(p)
    ensures ValidChunk(OneSetChunk(id, p))
  {
    hide Nonempty;
    assert OneSetChunk(id, p).ids == [id];
  }

  lemma PlansOfTwo(chunks: seq<Chunk>, id: int, first: Plan, second: Plan, o: int)
    requires chunks == [OneSetChunk(id, first), OneSetChunk(id, second)]
    ensures PlansOf(chunks, o) == if o == id then [first, second] else [NoPlan(), NoPlan()]
  {
    hide NoPlan;
  }

  lemma TwoAreValid(chunks: seq<Chunk>)
    requires |chunks| == 2 && ValidChunk(chunks[0]) && ValidChunk(chunks[1]) && forall o :: ValidPlans(PlansOf(chunks, o))
    ensures ValidChunks(chunks)
  {
    hide ValidChunk, ValidPlans, PlansOf;
  }

  lemma TwoChunks(plans: seq<Plan>)
    requires |plans| == 2 && ValidPlan(plans[0]) && ValidPlan(plans[1])
    requires NoRepeats(KeysOf(plans[0]) + KeysOf(plans[1])) && CutInClockOrder(KeysOf(plans[0]), KeysOf(plans[1]))
    ensures ValidPlans(plans) && AllCutsInOrder(plans)
  {
    hide *;
    TwoPlansAreValid(plans);
    BothCuts(plans);
  }

  lemma BothCuts(plans: seq<Plan>)
    requires |plans| == 2 && CutAt(plans, 0) && CutAt(plans, 1)
    ensures AllCutsInOrder(plans)
  {
    hide CutAt;
  }

  lemma NoPlansAreValid()
    ensures ValidPlans([NoPlan(), NoPlan()])
  {
    NoPlanIsValid();
    hide ValidPlan, KeysOf, NoPlan;
    var none: seq<Msg> := [];
    assert NoRepeats(none) && none + none == none;
    TwoChunks([NoPlan(), NoPlan()]);
  }

  /**
    Records of one set that stop their own replay although every cut is in clock order: in the second
    chunk there is a second sender, for instance with the messages (0, 10), (0, 11) and (1, 12).
   */
  lemma SecondSenderStops(id: int, a: Msg, b: Msg, c: Msg) returns (chunks: seq<Chunk>, turns: seq<Turn>)
    requires 0 < a.clock < b.clock < c.clock && a.source == b.source != c.source
    ensures chunks == [OneSetChunk(id, OnePlan(a)), OneSetChunk(id, TwoPlan(b, c))]
    ensures ValidChunks(chunks) && AllCutsInOrder(PlansOf(chunks, id))
    ensures Possible(chunks, turns) && Run(chunks, turns).Broke? && !Run(chunks, turns).reason.Decoder?
  {
    assert 1 <= MAX_MC_LENGTH;
    hide *;
    OnePlanIsValid(a);
    OneLine(a);
    TwoPlanIsValid(b, c);
    TwoLines(b, c);
    ThreeInOrder(a, b, c);
    chunks := OneSetRecord(id, OnePlan(a), TwoPlan(b, c));
    OneSetIs(id, OnePlan(a));
    OneSetIs(id, TwoPlan(b, c));
    turns := TwoSourcesStop(chunks, id);
  }

  lemma OneLine(m: Msg)
    ensures Nonempty(OnePlan(m)) && OnePlan(m).epoch.line.Keys == {m.source} && |OnePlan(m).epoch.line.Keys| == 1
  {
  }

  lemma TwoLines(a: Msg, b: Msg)
    requires a.source != b.source
    ensures Nonempty(TwoPlan(a, b)) && |TwoPlan(a, b).epoch.line.Keys| == 2
  {
    assert TwoPlan(a, b).epoch.line.Keys == {a.source, b.source};
  }

  lemma TwoSourcesStop(chunks: seq<Chunk>, id: int) returns (turns: seq<Turn>)
    requires ValidChunks(chunks) && |chunks| == 2 && chunks[0].plans.Keys == {id} && |chunks[0].plans.Keys| == 1
    requires AllCutsInOrder(PlansOf(chunks, id)) && |Sources(chunks[0])| <= MAX_MC_LENGTH && |Sources(chunks[1])| != 1
    ensures Possible(chunks, turns) && Run(chunks, turns).Broke? && !Run(chunks, turns).reason.Decoder?
  {
    hide *;
    DoesNotFit(chunks, 1);
    FirstFits(chunks);
    CutOfOneSet(chunks, id);
    NothingToFit(chunks);
    OneMoreGood(chunks, 0);
    turns := UnfitChunkStops(chunks, 1);
  }

  lemma DoesNotFit(chunks: seq<Chunk>, k: nat)
    requires 0 < k < |chunks| && |chunks[0].plans.Keys| == 1 && |Sources(chunks[k])| != 1
    ensures !ChunkFits(chunks, k)
  {
    hide Sources;
    assert |chunks[0].plans| == |chunks[0].plans.Keys|;
  }

  lemma ThreeInOrder(a: Msg, b: Msg, c: Msg)
    requires a.clock < b.clock < c.clock && a.source != c.source
    ensures NoRepeats([a] + [b, c]) && CutInClockOrder([a], [b, c])
  {
  }

  lemma OneSetIs(id: int, p: Plan)
    ensures OneSetChunk(id, p).plans.Keys == {id} && |OneSetChunk(id, p).plans.Keys| == 1
    ensures Sources(OneSetChunk(id, p)) == p.epoch.line.Keys
  {
    var chunk := OneSetChunk(id, p);
    LineIsKnown(chunk, id);
    forall s | s in Sources(chunk) ensures s in p.epoch.line {
    }
  }

  lemma NothingToFit(chunks: seq<Chunk>)
    ensures GoodTo(chunks, 0)
  {
  }

  lemma CutOfOneSet(chunks: seq<Chunk>, id: int)
    requires |chunks| > 0 && chunks[0].plans.Keys == {id} && AllCutsInOrder(PlansOf(chunks, id))
    ensures CutsAt(chunks, 0)
  {
    hide CutAt, PlansOf;
    assert forall o :: o in chunks[0].plans ==> o in chunks[0].plans.Keys;
  }

  /** With the same sender in the second chunk the record is replayed. */
  lemma SameSenderGoesOn(id: int, a: Msg, b: Msg) returns (chunks: seq<Chunk>)
    requires 0 < a.clock < b.clock && a.source == b.source
    ensures chunks == [OneSetChunk(id, OnePlan(a)), OneSetChunk(id, OnePlan(b))]
    ensures ValidChunks(chunks) && Replayable(chunks)
  {
    hide *;
    TwoInOrder(a, b);
    OnePlanIsValid(a);
    OnePlanIsValid(b);
    OneLine(a);
    OneLine(b);
    chunks := OneSetRecord(id, OnePlan(a), OnePlan(b));
    OneSetIs(id, OnePlan(a));
    OneSetIs(id, OnePlan(b));
    OneSetReplayable(chunks, id, a.source);
  }

  lemma TwoInOrder(a: Msg, b: Msg)
    requires a.clock < b.clock
    ensures NoRepeats([a] + [b]) && CutInClockOrder([a], [b])
  {
  }

  lemma OneSetReplayable(chunks: seq<Chunk>, id: int, source: int)
    requires |chunks| == 2 && (forall k :: 0 <= k < 2 ==> chunks[k].plans.Keys == {id} && Sources(chunks[k]) == {source})
    requires AllCutsInOrder(PlansOf(chunks, id))
    ensures Replayable(chunks)
  {
    hide Sources, CutAt, PlansOf;
    assert |{source}| == 1;
    OneSetFitsIff(chunks, id, 1);
    forall k | 0 <= k < 2 ensures CutsAt(chunks, k) {
      assert forall o :: o in chunks[0].plans ==> o in chunks[0].plans.Keys;
    }
  }
}
