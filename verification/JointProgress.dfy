/**
  What the steps of the replaying system achieve: readers catch up with what their sources publish, and
  a rank that waits publishes a clock beyond the one that holds it up.
 */
module JointProgress {
  import opened Messages
  import opened Clocks
  import opened ReplayOrdering
  import opened ReplayFidelity
  import opened EpochRuns
  import opened ChunkOpening
  import opened ChunkRuns
  import opened LookAhead
  import opened ReplayProgress
  import opened Applications
  import opened JointReplay
  import P = LookAheadProtocol

  // ----- readers catch up -----

  /** What rank q knows of its source r after a snapshot. */
  lemma FetchedIs(sys: System, j: Joint, q: nat, r: nat)
    requires Shaped(sys, j) && q < |sys.apps| && r < |sys.apps|
    ensures var after := Apply(sys, j, FetchFrom(q, r)); var rank, before := after.world.ranks[q], j.world.ranks[q];
      && Enabled(sys, j, FetchFrom(q, r)) && Shaped(sys, after) && after.desks == j.desks && after.broken == j.broken
      && after.world.ranks[r].scatterClock == j.world.ranks[r].scatterClock
      && rank.gathered[r] == Published(j.world.ranks[r].scatterClock, j.world.ranks[r].sendCounts[q])
      && rank.recvCounts == before.recvCounts && rank.maxRecved == before.maxRecved && rank.bounds == before.bounds
  {
    assert forall o :: 0 <= o < |j.desks| ==> DeskShaped(sys.chunks[o], j.desks[o]);
  }

  /** The bounds of rank q after an update that finds all sources. */
  lemma UpdatedIs(sys: System, j: Joint, q: nat, probed: set<int>, recved: set<int>)
    requires Shaped(sys, j) && q < |sys.apps|
    ensures q < |j.world.ranks| && Enabled(sys, j, UpdateAll(q, probed, recved)) && Sized(j.world.ranks[q], |j.world.ranks[q].recvCounts|)
    ensures var after, sources := Apply(sys, j, UpdateAll(q, probed, recved)), SourcesNow(sys.chunks[q], j.desks[q]);
      !after.broken ==> q < |after.world.ranks| && after.world.ranks[q].bounds == UpdateBounds(j.world.ranks[q], sources, probed, recved).bounds
  {
    hide UpdateThrows, UpdateBounds, SourcesNow;
  }

  lemma KnownSources(deeds: seq<Deed>, chunks: seq<Chunk>, pc: nat, desk: Desk, known: Bounds, got: set<Tagged>, id: int, s: int)
    requires RecordedBy(deeds, chunks) && DeskInv(deeds, chunks, pc, desk, known, got)
    requires id in known && s in SourcesNow(chunks, desk) && chunks != []
    ensures s in known[id]
  {
    hide Sources, RunInv, ValidChunks, RecordedBy, Receives;
    SourcesAreKnown(deeds, chunks, pc, desk, known, got);
    assert s in Sources(chunks[0]) && s in known[id].Keys;
  }

  lemma NotCollective(progs: seq<seq<P.Op>>, w: P.World, r: nat)
    requires P.Inv(progs, w) && r < |progs|
    ensures r < |w.ranks| && w.ranks[r].scatterClock != COLLECTIVE_CLOCK
  {
    P.RankInv(progs, w, r);
    P.WorldIsSized(progs, w);
  }

  /** A state that some run leads to, and the ones behind it. */
  lemma StateIs(sys: System, deeds: seq<seq<Deed>>, j: Joint, q: nat)
    requires RecordedRun(sys, deeds) && JointInv(sys, deeds, j) && q < |sys.apps|
    ensures |deeds| == |sys.apps| == |sys.chunks| == |j.desks| == |j.world.ranks| == |j.world.pcs| && Shaped(sys, j) && !j.broken
    ensures P.Inv(Programs(deeds), j.world) && |Programs(deeds)| == |sys.apps| && RecordedBy(deeds[q], sys.chunks[q])
    ensures DeskInv(deeds[q], sys.chunks[q], j.world.pcs[q], j.desks[q], j.world.ranks[q].bounds, P.IngestedBy(j.world, q))
  {
    hide *;
    JointIs(sys, deeds, j);
    RecordOf(sys, deeds, q);
    RankIs(sys, deeds, j, q);
  }

  /**
    A reader that has ingested all that its source counted as sent catches up with it: after a
    snapshot and an update every matching set has at least the published clock as its bound.
   */
  lemma ReaderCatchesUp(sys: System, deeds: seq<seq<Deed>>, actions: seq<Action>, j: Joint, q: nat, r: nat, probed: set<int>, recved: set<int>, id: int)
    returns (fetched: Joint, after: Joint)
    requires RecordedRun(sys, deeds) && |sys.chunks| == |sys.apps| && Reaches(sys, actions, j) && q < |sys.apps| && r < |sys.apps|
    requires Shaped(sys, j) && j.world.ranks[r].sendCounts[q] <= j.world.ranks[q].recvCounts[r] && r !in probed && r !in recved
    requires r in SourcesNow(sys.chunks[q], j.desks[q]) && id in j.world.ranks[q].bounds
    ensures Enabled(sys, j, FetchFrom(q, r)) && fetched == Apply(sys, j, FetchFrom(q, r))
    ensures Shaped(sys, fetched) && Enabled(sys, fetched, UpdateAll(q, probed, recved)) && after == Apply(sys, fetched, UpdateAll(q, probed, recved))
    ensures !after.broken && q < |after.world.ranks| && id in after.world.ranks[q].bounds && r in after.world.ranks[q].bounds[id]
    ensures after.world.ranks[q].bounds[id][r] >= j.world.ranks[r].scatterClock
  {
    JointReaches(sys, deeds, actions, j);
    assert r < |j.world.ranks|;
    hide *;
    StateIs(sys, deeds, j, q);
    FetchedIs(sys, j, q, r);
    fetched := Apply(sys, j, FetchFrom(q, r));
    JointStepKeeps(sys, deeds, j, FetchFrom(q, r));
    StateIs(sys, deeds, fetched, q);
    UpdatedIs(sys, fetched, q, probed, recved);
    after := Apply(sys, fetched, UpdateAll(q, probed, recved));
    JointStepKeeps(sys, deeds, fetched, UpdateAll(q, probed, recved));
    StateIs(sys, deeds, after, q);
    NotCollective(Programs(deeds), j.world, r);
    NoChunkNoSource(sys.chunks[q], j.desks[q]);
    KnownSources(deeds[q], sys.chunks[q], fetched.world.pcs[q], fetched.desks[q], fetched.world.ranks[q].bounds, P.IngestedBy(fetched.world, q), id, r);
    CountsFit(fetched.world.ranks[q], sys, fetched, q);
    var rank, chunkSources := fetched.world.ranks[q], SourcesNow(sys.chunks[q], fetched.desks[q]);
    UpdateCatchesUp(rank, chunkSources, probed, recved);
    CaughtUpAt(rank, after.world.ranks[q].bounds, chunkSources, probed, recved, id, r);
  }

  lemma CaughtUpAt(rank: Rank, after: Bounds, sources: set<int>, probed: set<int>, recved: set<int>, id: int, r: nat)
    requires Sized(rank, |rank.recvCounts|) && r < |rank.recvCounts| && CaughtUp(rank, after, sources, probed, recved)
    requires id in rank.bounds && r in rank.bounds[id] && r in sources && r !in probed && r !in recved
    requires rank.gathered[r].sendCount <= rank.recvCounts[r] && rank.gathered[r].clock != COLLECTIVE_CLOCK
    ensures id in after && r in after[id] && after[id][r] >= rank.gathered[r].clock
  {
    assert LargerBound(rank, rank.bounds[id][r], r, true, false) >= rank.gathered[r].clock;
  }

  lemma NoChunkNoSource(chunks: seq<Chunk>, desk: Desk)
    ensures chunks == [] ==> SourcesNow(chunks, desk) == {}
  {
  }

  lemma CountsFit(rank: Rank, sys: System, j: Joint, q: nat)
    requires Shaped(sys, j) && q < |sys.apps| && q < |j.world.ranks| && rank == j.world.ranks[q]
    ensures |rank.recvCounts| == |rank.gathered| == |rank.maxRecved| == |sys.apps|
  {
  }

  // ----- ranks that wait -----

  /** The table that rank q replays for the set, and that it is not done. */
  ghost predicate Waits(sys: System, j: Joint, q: nat, id: int)
    requires Shaped(sys, j) && q < |sys.apps|
  {
    && j.desks[q].c < |sys.chunks[q]| && id in sys.chunks[q][j.desks[q].c].plans && id in j.desks[q].tables && id in j.desks[q].outs
    && !DecodedAll(sys.chunks[q][j.desks[q].c].plans[id].epoch, j.desks[q].tables[id])
  }

  /** One call on a table that hands out nothing. */
  lemma CallRaises(chunks: seq<Chunk>, r: Replay, got: set<Tagged>, id: int, bound: Msg, clock: int) returns (next: Replay)
    requires ValidChunks(chunks) && chunks != [] && Replayable(chunks) && RunInv(chunks, r, got) && id in chunks[r.c].plans && id in chunks[0].plans
    requires SoundBound(TotalOf(PlanAt(chunks[r.c], id)), ArrivedFor(got, id), bound) && bound.clock != COLLECTIVE_CLOCK
    requires id in r.tables && id in r.outs && !DecodedAll(chunks[r.c].plans[id].epoch, r.tables[id])
    ensures next == Call(chunks, r, id, bound, clock) && next.Ran? && id in next.outs && id in next.tables
    ensures next.outs[id] == r.outs[id] ==> next.tables[id].interim > bound.clock && next.tables[id].interim > clock
  {
    hide *;
    ReplayableIs(chunks);
    Parts(chunks, r, got);
    var emitted;
    next, emitted := CallStaysGood(chunks, r, got, id, bound, clock);
    Parts(chunks, next, got);
    var epoch := chunks[r.c].plans[id].epoch;
    InterimsIs(r, next, id, Step(epoch, r.tables[id], bound, clock).next.interim);
    OneSet(chunks, r, got, id);
    PlansAre(chunks, id, r.c);
    var plans, arrived := PlansOf(chunks, id), ArrivedFor(got, id);
    SetInvIs(plans, r.c, r.tables[id], r.outs[id], arrived);
    InvParts(plans, r.c, r.tables[id], r.outs[id], arrived);
    PlanParts(plans[r.c], r.tables[id], r.outs[id][|StreamTo(plans, r.c)|..], arrived);
    TotalIs(plans[r.c]);
    WaitingRaisesInterim(plans[r.c].epoch, plans[r.c].recording, r.tables[id], r.outs[id][|StreamTo(plans, r.c)|..], arrived, bound, clock);
    if next.outs[id] == r.outs[id] {
      assert |r.outs[id] + emitted| == |r.outs[id]|;
    }
  }

  lemma TotalIs(p: Plan)
    requires ValidRecording(p.recording)
    ensures TotalOf(p) == Ts(p.recording)
  {
  }

  /** A call that leaves its set waiting has an interim clock beyond the bound and the local clock. */
  lemma DecodeRaises(sys: System, deeds: seq<seq<Deed>>, j: Joint, q: nat, id: int, sources: seq<int>, bound: Msg)
    requires RecordedRun(sys, deeds) && JointInv(sys, deeds, j) && Shaped(sys, j) && Enabled(sys, j, Decode(q, id, sources, bound))
    requires q < |sys.apps| && Waits(sys, j, q, id)
    ensures var after := Apply(sys, j, Decode(q, id, sources, bound));
      && q < |after.desks| && id in after.desks[q].outs && id in after.desks[q].tables
      && (after.desks[q].outs[id] == j.desks[q].outs[id] ==>
        after.desks[q].tables[id].interim > bound.clock && after.desks[q].tables[id].interim > j.world.ranks[q].localClock)
  {
    hide *;
    StateIs(sys, deeds, j, q);
    DecodeIs(sys, j, q, id, sources, bound);
    CalledIsInChunk(sys, deeds, j, q, id);
    BoundIsSound(sys, deeds, j, q, id, sources, bound);
    var chunks, desk, known, got := sys.chunks[q], j.desks[q], j.world.ranks[q].bounds, P.IngestedBy(j.world, q);
    WaitsIs(sys, j, q, id);
    DeskIs(deeds[q], chunks, j.world.pcs[q], desk, known, got);
    RecordIs(deeds[q], chunks, id);
    P.RankInv(Programs(deeds), j.world, q);
    ProgramOf(deeds, q);
    RunIs(desk, known);
    Parts(chunks, RunOf(desk, known), got);
    var next := CallRaises(chunks, RunOf(desk, known), got, id, bound, j.world.ranks[q].localClock);
    CalledKnown(sys, deeds, j, q, id, bound, next);
    DecodedIs(sys, j, q, id, bound, next);
    AfterHas(desk, id, next);
  }

  lemma CalledKnown(sys: System, deeds: seq<seq<Deed>>, j: Joint, q: nat, id: int, bound: Msg, next: Replay)
    requires RecordedRun(sys, deeds) && JointInv(sys, deeds, j) && q < |sys.apps| == |sys.chunks| == |j.desks| && q < |j.world.ranks|
    requires sys.chunks[q] != [] && Fits(sys.chunks[q], RunOf(j.desks[q], j.world.ranks[q].bounds)) && next.Ran?
    requires j.desks[q].c < |sys.chunks[q]| && id in sys.chunks[q][j.desks[q].c].plans
    requires SoundBound(TotalOf(PlanAt(sys.chunks[q][j.desks[q].c], id)), ArrivedFor(P.IngestedBy(j.world, q), id), bound)
    requires next == Call(sys.chunks[q], RunOf(j.desks[q], j.world.ranks[q].bounds), id, bound, j.world.ranks[q].localClock)
    ensures next.known == j.world.ranks[q].bounds
  {
    hide *;
    StateIs(sys, deeds, j, q);
    var chunks, desk, known, got := sys.chunks[q], j.desks[q], j.world.ranks[q].bounds, P.IngestedBy(j.world, q);
    DeskIs(deeds[q], chunks, j.world.pcs[q], desk, known, got);
    RecordIs(deeds[q], chunks, id);
    ReplayableIs(chunks);
    RunIs(desk, known);
    var same, emitted := CallStaysGood(chunks, RunOf(desk, known), got, id, bound, j.world.ranks[q].localClock);
  }

  lemma WaitsIs(sys: System, j: Joint, q: nat, id: int)
    requires Shaped(sys, j) && q < |sys.apps| && Waits(sys, j, q, id)
    ensures q < |sys.chunks| && q < |j.desks| && j.desks[q].c < |sys.chunks[q]| && id in sys.chunks[q][j.desks[q].c].plans
    ensures id in j.desks[q].tables && id in j.desks[q].outs
    ensures !DecodedAll(sys.chunks[q][j.desks[q].c].plans[id].epoch, j.desks[q].tables[id])
  {
    hide DecodedAll;
  }

  lemma AfterHas(desk: Desk, id: int, next: Replay)
    requires next.Ran?
    ensures DeskAfter(desk, id, next).outs == next.outs && DeskAfter(desk, id, next).tables == next.tables
  {
  }

  lemma BoundReaches(known: map<int, int>, sources: seq<int>, bound: Msg, low: int)
    requires forall k :: 0 <= k < |sources| ==> sources[k] in known && known[sources[k]] >= low
    requires IsLookAhead(known, sources, bound) && sources != [] && bound.clock != COLLECTIVE_CLOCK
    ensures bound.clock >= low
  {
  }

  /**
    A round of a rank that waits: its bounds for the set are all at least some clock, a call hands out
    nothing, and the rank publishes the interim clock for its receive.  Then it has published more than
    that clock.  So while ranks that wait go on, the smallest clock that holds them up keeps rising.
   */
  lemma WaitingRoundRises(sys: System, deeds: seq<seq<Deed>>, actions: seq<Action>, j: Joint, q: nat, id: int, sources: seq<int>, bound: Msg, low: int)
    returns (called: Joint, after: Joint)
    requires RecordedRun(sys, deeds) && |sys.chunks| == |sys.apps| && Reaches(sys, actions, j) && Shaped(sys, j)
    requires q < |sys.apps| && Enabled(sys, j, Decode(q, id, sources, bound)) && Waits(sys, j, q, id)
    requires sources != [] && id in j.world.ranks[q].bounds && forall s :: s in sources && s in j.world.ranks[q].bounds[id] ==> j.world.ranks[q].bounds[id][s] >= low
    ensures called == Apply(sys, j, Decode(q, id, sources, bound)) && Shaped(sys, called) && q < |called.desks| && id in called.desks[q].outs
    ensures called.desks[q].outs[id] == j.desks[q].outs[id] && Asks(sys, called, q) == Receive(id) && Enabled(sys, called, PublishInterim(q)) ==>
      after == Apply(sys, called, PublishInterim(q)) && q < |after.world.ranks| && after.world.ranks[q].scatterClock > low
      && after.world.ranks[q].scatterClock > j.world.ranks[q].localClock
  {
    hide *;
    JointReaches(sys, deeds, actions, j);
    StateIs(sys, deeds, j, q);
    WaitsIs(sys, j, q, id);
    called := Apply(sys, j, Decode(q, id, sources, bound));
    DecodeRaises(sys, deeds, j, q, id, sources, bound);
    JointStepKeeps(sys, deeds, j, Decode(q, id, sources, bound));
    StateIs(sys, deeds, called, q);
    BoundIsHigh(sys, deeds, j, q, id, sources, bound, low);
    after := called;
    if called.desks[q].outs[id] == j.desks[q].outs[id] && Asks(sys, called, q) == Receive(id) && Enabled(sys, called, PublishInterim(q)) {
      after := Apply(sys, called, PublishInterim(q));
      var asked := PublishInterimIs(sys, called, q);
      PublishedRises(called.world, q, called.desks[q].tables[id].interim);
    }
  }

  lemma PublishedRises(w: P.World, q: nat, clock: int)
    requires q < |w.ranks| && q < |w.phases|
    ensures q < |P.Publishing(w, q, clock).ranks|
    ensures P.Publishing(w, q, clock).ranks[q].scatterClock >= clock && P.Publishing(w, q, clock).ranks[q].scatterClock >= w.ranks[q].scatterClock
  {
    PublishedIsLarger(w.ranks[q], clock);
  }

  lemma BoundIsHigh(sys: System, deeds: seq<seq<Deed>>, j: Joint, q: nat, id: int, sources: seq<int>, bound: Msg, low: int)
    requires RecordedRun(sys, deeds) && JointInv(sys, deeds, j) && Shaped(sys, j) && Enabled(sys, j, Decode(q, id, sources, bound)) && q < |sys.apps|
    requires q < |j.world.ranks| && sources != [] && id in j.world.ranks[q].bounds
    requires forall s :: s in sources && s in j.world.ranks[q].bounds[id] ==> j.world.ranks[q].bounds[id][s] >= low
    ensures bound.clock >= low
  {
    hide *;
    StateIs(sys, deeds, j, q);
    DecodeIs(sys, j, q, id, sources, bound);
    CalledIsInChunk(sys, deeds, j, q, id);
    BoundIsSound(sys, deeds, j, q, id, sources, bound);
    BoundMeans(sys, j, q, id, sources, bound);
    var chunks, desk, known, got := sys.chunks[q], j.desks[q], j.world.ranks[q].bounds, P.IngestedBy(j.world, q);
    DeskIs(deeds[q], chunks, j.world.pcs[q], desk, known, got);
    SourcesAreKnown(deeds[q], chunks, j.world.pcs[q], desk, known, got);
    LineIsKnown(chunks[desk.c], id);
    SourcesIn(chunks, known, desk.c, id, sources);
    forall k | 0 <= k < |sources| ensures sources[k] in known[id] && known[id][sources[k]] >= low {
      var s := sources[k];
      assert s in sources;
      assert s in known[id];
    }
    BoundReaches(known[id], sources, bound, low);
  }

  lemma SourcesIn(chunks: seq<Chunk>, known: Bounds, k: nat, id: int, sources: seq<int>)
    requires k < |chunks| && KnownIs(chunks, known) && Sources(chunks[k]) <= Sources(chunks[0]) && id in chunks[k].plans && id in known
    requires chunks[k].plans[id].epoch.line.Keys <= Sources(chunks[k]) && forall s :: s in sources <==> s in chunks[k].plans[id].epoch.line
    ensures forall s :: s in sources ==> s in known[id]
  {
    hide Sources;
    forall s | s in sources ensures s in known[id] {
      assert s in chunks[k].plans[id].epoch.line.Keys && s in known[id].Keys;
    }
  }

  // ----- ranks that send -----

  /** When a send ends, the rank has published its clock behind the tick. */
  lemma SenderPublishes(sys: System, j: Joint, p: nat)
    requires Shaped(sys, j) && Enabled(sys, j, EndSend(p))
    ensures p < |Apply(sys, j, EndSend(p)).world.ranks|
    ensures Apply(sys, j, EndSend(p)).world.ranks[p].scatterClock >= j.world.ranks[p].localClock
    ensures Apply(sys, j, EndSend(p)).world.ranks[p].scatterClock >= j.world.ranks[p].scatterClock
  {
    PublishedIsLarger(j.world.ranks[p], j.world.ranks[p].localClock);
  }
}
