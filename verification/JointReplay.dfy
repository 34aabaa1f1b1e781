/**
  All ranks replaying together: applications, decoders and the look-ahead protocol in one system.
  Nothing in it refers to the recorded run but the tables that each rank loaded.
 */
module JointReplay {
  import opened EditScripts
  import opened Messages
  import opened EpochTables
  import opened Clocks
  import opened ReplayOrdering
  import opened ReplayFidelity
  import opened EpochRuns
  import opened ChunkOpening
  import opened ChunkRuns
  import opened LookAhead
  import opened Applications
  import Exact = ChunkFaithfulness
  import P = LookAheadProtocol

  // ----- the replaying system -----

  /** The decoder of a rank, what it decoded for receive calls to come, and what its application did so far. */
  datatype Desk = Desk(
    c: nat,
    tables: map<int, Progress>,
    outs: map<int, seq<Item>>,
    again: Option<int>,
    ready: map<int, seq<seq<Item>>>,
    done: seq<Deed>)

  /** Applications, and the chunks each rank loads; a rank that received nothing has none. */
  datatype System = System(apps: seq<App>, chunks: seq<seq<Chunk>>)

  datatype Joint = Joint(world: P.World, desks: seq<Desk>, broken: bool)

  /** The decoder's state with the bounds that its rank keeps. */
  function RunOf(desk: Desk, known: Bounds): Replay {
    Ran(desk.c, known, desk.tables, desk.outs, desk.again)
  }

  ghost predicate DeskShaped(chunks: seq<Chunk>, desk: Desk) {
    && desk.ready.Keys == desk.tables.Keys == desk.outs.Keys
    && if chunks == [] then desk.tables == map[] else desk.c < |chunks| && desk.tables.Keys == RecordedSets(chunks)
  }

  ghost predicate Shaped(sys: System, j: Joint) {
    && |sys.chunks| == |j.desks| == |sys.apps| && P.SizedWorld(j.world, |sys.apps|)
    && forall q :: 0 <= q < |sys.apps| ==> DeskShaped(sys.chunks[q], j.desks[q])
  }

  datatype Action =
    | BeginSend(p: nat)
    | Leave(p: nat)
    | EndSend(p: nat)
    | PublishLocal(p: nat, clock: int)
    | PublishInterim(p: nat)
    | Decode(q: nat, id: int, sources: seq<int>, bound: Msg)
    | Deliver(q: nat)
    | IngestFrom(q: nat, r: nat)
    | FetchFrom(q: nat, r: nat)
    | UpdateAll(q: nat, probed: set<int>, recved: set<int>)

  function Asks(sys: System, j: Joint, q: nat): Request
    requires q < |sys.apps| && q < |j.desks|
  {
    sys.apps[q](j.desks[q].done)
  }

  ghost predicate Enabled(sys: System, j: Joint, a: Action)
    requires Shaped(sys, j)
  {
    var n, w := |sys.apps|, j.world;
    match a
    case BeginSend(p) => p < n && w.phases[p] == P.Ready && SendAsked(sys, j, p)
    case Leave(p) => p < n && w.phases[p] == P.Counted && SendAsked(sys, j, p)
    case EndSend(p) => p < n && w.phases[p] == P.Left
    case PublishLocal(p, clock) => p < n && w.phases[p] == P.Ready && (clock == 0 || INITIAL_CLOCK <= clock <= w.ranks[p].localClock)
    case PublishInterim(p) => p < n && w.phases[p] == P.Ready && ReceiveAsked(sys, j, p) && j.desks[p].ready[Asks(sys, j, p).id] == []
    case Deliver(q) => q < n && w.phases[q] == P.Ready && ReceiveAsked(sys, j, q) && j.desks[q].ready[Asks(sys, j, q).id] != []
    case Decode(q, id, sources, bound) => q < n && MayDecode(sys, j, q, id) && BoundIs(sys, j, q, id, sources, bound)
    case IngestFrom(q, r) => q < n && r < n && P.HasNext(w, q, r)
    case FetchFrom(q, r) => q < n && r < n
    case UpdateAll(q, _, _) => q < n
  }

  ghost predicate SendAsked(sys: System, j: Joint, p: nat)
    requires p < |sys.apps| && p < |j.desks|
  {
    Asks(sys, j, p).Send? && Asks(sys, j, p).dest < |sys.apps|
  }

  ghost predicate ReceiveAsked(sys: System, j: Joint, p: nat)
    requires p < |sys.apps| && p < |j.desks|
  {
    Asks(sys, j, p).Receive? && Asks(sys, j, p).id in j.desks[p].ready
  }

  /**
    The decoder is called for the set that the application waits for, or for any set of the chunk, at
    any time; a set that is asked for once more comes first.
   */
  ghost predicate MayDecode(sys: System, j: Joint, q: nat, id: int)
    requires Shaped(sys, j) && q < |sys.apps|
  {
    && sys.chunks[q] != []
    && if j.desks[q].again.Some? then id == j.desks[q].again.value
       else id in sys.chunks[q][j.desks[q].c].plans || Asks(sys, j, q) == Receive(id)
  }

  /** The clock that the rank computes for the set, unless the set or a source of it is not found. */
  ghost predicate BoundIs(sys: System, j: Joint, q: nat, id: int, sources: seq<int>, bound: Msg)
    requires Shaped(sys, j) && q < |sys.apps|
  {
    var known := j.world.ranks[q].bounds;
    sys.chunks[q] != [] && id in sys.chunks[q][j.desks[q].c].plans && id in known ==>
      && (forall s :: s in sources <==> s in sys.chunks[q][j.desks[q].c].plans[id].epoch.line)
      && ((forall k :: 0 <= k < |sources| ==> sources[k] in known[id]) ==> IsLookAhead(known[id], sources, bound))
  }

  /** One call of the decoder, with the rank's clock and bounds at that time. */
  ghost function AfterDecode(sys: System, j: Joint, q: nat, id: int, bound: Msg): Joint
    requires Shaped(sys, j) && q < |sys.apps| && sys.chunks[q] != []
  {
    var desk, rank := j.desks[q], j.world.ranks[q];
    var r := Call(sys.chunks[q], RunOf(desk, rank.bounds), id, bound, rank.localClock);
    if r.Broke? then j.(broken := true)
    else j.(world := P.WithBounds(j.world, q, r.known), desks := j.desks[q := DeskAfter(desk, id, r)])
  }

  function DeskAfter(desk: Desk, id: int, r: Replay): Desk
    requires r.Ran?
  {
    desk.(c := r.c, tables := r.tables, outs := r.outs, again := r.again, ready := ReadyAfter(desk, id, r.outs))
  }

  /** What the call handed out is ready for the application. */
  function ReadyAfter(desk: Desk, id: int, outs: map<int, seq<Item>>): map<int, seq<seq<Item>>> {
    if id in desk.ready && id in desk.outs && id in outs && |desk.outs[id]| < |outs[id]| then
      desk.ready[id := desk.ready[id] + [outs[id][|desk.outs[id]|..]]]
    else desk.ready
  }

  /** A message of a recorded set waits for its table. */
  function DeskArrives(desk: Desk, m: Tagged): Desk {
    if m.id in desk.tables then
      desk.(tables := desk.tables[m.id := desk.tables[m.id].(waiting := desk.tables[m.id].waiting + [m.msg])])
    else desk
  }

  /** The sources of the chunk that is being replayed. */
  function SourcesNow(chunks: seq<Chunk>, desk: Desk): set<int> {
    if desk.c < |chunks| then Sources(chunks[desk.c]) else {}
  }

  ghost function Apply(sys: System, j: Joint, a: Action): Joint
    requires Shaped(sys, j) && Enabled(sys, j, a)
  {
    var w := j.world;
    match a
    case BeginSend(p) => j.(world := P.Counting(w, p, Asks(sys, j, p).dest))
    case Leave(p) =>
      var dest, id := Asks(sys, j, p).dest, Asks(sys, j, p).id;
      j.(world := P.Leaving(w, p, dest, id), desks := j.desks[p := j.desks[p].(done := j.desks[p].done + [Sent(dest, id)])])
    case EndSend(p) => j.(world := P.Publishing(w, p, w.ranks[p].localClock))
    case PublishLocal(p, clock) => j.(world := P.Publishing(w, p, clock))
    case PublishInterim(p) =>
      j.(world := P.Publishing(w, p, j.desks[p].tables[Asks(sys, j, p).id].interim))
    case Decode(q, id, _, bound) => AfterDecode(sys, j, q, id, bound)
    case Deliver(q) =>
      var desk, id := j.desks[q], Asks(sys, j, q).id;
      var items := desk.ready[id][0];
      j.(world := P.Receiving(w, q, MsgsOf(items)),
         desks := j.desks[q := desk.(ready := desk.ready[id := desk.ready[id][1..]], done := desk.done + [Got(id, items)])])
    case IngestFrom(q, r) =>
      var packet := P.Next(w, q, r);
      j.(world := P.Ingesting(w, q, r), desks := j.desks[q := DeskArrives(j.desks[q], Tagged(Msg(r, packet.clock), packet.id))])
    case FetchFrom(q, r) => j.(world := P.Fetching(w, q, r))
    case UpdateAll(q, probed, recved) =>
      var rank, sources := w.ranks[q], SourcesNow(sys.chunks[q], j.desks[q]);
      if UpdateThrows(rank, sources, probed, recved) then j.(broken := true)
      else j.(world := P.WithBounds(w, q, UpdateBounds(rank, sources, probed, recved).bounds))
  }

  ghost function StartBounds(chunks: seq<Chunk>): Bounds {
    if chunks != [] && StartReplay(chunks).Ran? then StartReplay(chunks).known else map[]
  }

  ghost function StartDesk(chunks: seq<Chunk>): Desk {
    if chunks != [] && StartReplay(chunks).Ran? then
      var r := StartReplay(chunks);
      Desk(r.c, r.tables, r.outs, r.again, map id | id in r.tables :: [], [])
    else Desk(0, map[], map[], None, map[], [])
  }

  /** Every rank opened its first chunk. */
  ghost function StartJoint(sys: System): Joint
    requires |sys.chunks| == |sys.apps|
  {
    var n := |sys.apps|;
    Joint(P.StartWorld(n, seq(n, q requires 0 <= q < n => StartBounds(sys.chunks[q]))),
          seq(n, q requires 0 <= q < n => StartDesk(sys.chunks[q])),
          exists q :: 0 <= q < n && sys.chunks[q] != [] && StartReplay(sys.chunks[q]).Broke?)
  }

  // ----- the recorded run -----

  /** The tables of one rank hold what its application got, and can be replayed. */
  ghost predicate RecordedBy(deeds: seq<Deed>, chunks: seq<Chunk>) {
    && (chunks != [] ==> ValidChunks(chunks) && Replayable(chunks))
    && forall id {:trigger PlansOf(chunks, id)} :: Receives(deeds, id, Stream(PlansOf(chunks, id)))
  }

  /** What was sent to q is what it received, set by set. */
  ghost predicate AllSent(progs: seq<seq<P.Op>>, q: nat, chunks: seq<Chunk>) {
    forall id {:trigger PlansOf(chunks, id)} :: ExactlySent(progs, q, id, AllKeys(PlansOf(chunks, id)))
  }

  ghost predicate ExactlySent(progs: seq<seq<P.Op>>, q: nat, id: int, msgs: seq<Msg>) {
    forall m :: m in msgs <==> 0 <= m.source < |progs| && P.Packet(m.clock, id) in P.Sent(progs[m.source], q)
  }

  /** A recorded run of the whole system. */
  ghost predicate RecordedRun(sys: System, deeds: seq<seq<Deed>>) {
    var n := |sys.apps|;
    && |sys.chunks| == |deeds| == n
    && (forall p {:trigger Did(sys.apps[p], deeds[p])} :: 0 <= p < n ==> Did(sys.apps[p], deeds[p]))
    && (forall p {:trigger RecordedBy(deeds[p], sys.chunks[p])} :: 0 <= p < n ==> RecordedBy(deeds[p], sys.chunks[p]))
    && (forall q {:trigger AllSent(Programs(deeds), q, sys.chunks[q])} :: 0 <= q < n ==> AllSent(Programs(deeds), q, sys.chunks[q]))
  }

  // ----- the invariant -----

  ghost predicate PlaceOk(deeds: seq<Deed>, pc: nat, desk: Desk, id: int) {
    && id in desk.tables && id in desk.outs && id in desk.ready
    && Place(deeds, id, pc, desk.outs[id], desk.ready[id], desk.tables[id].interim)
  }

  /** The decoder is in order, and the application did and got so far what was recorded. */
  ghost predicate DeskInv(deeds: seq<Deed>, chunks: seq<Chunk>, pc: nat, desk: Desk, known: Bounds, got: set<Tagged>) {
    && pc <= |deeds| && desk.done == deeds[..pc] && DeskShaped(chunks, desk)
    && (chunks != [] ==> ValidChunks(chunks) && RunInv(chunks, RunOf(desk, known), got))
    && forall id {:trigger PlaceOk(deeds, pc, desk, id)} :: id in desk.tables ==> PlaceOk(deeds, pc, desk, id)
  }

  ghost predicate RankInv(sys: System, deeds: seq<seq<Deed>>, j: Joint, q: nat)
    requires q < |sys.chunks| && q < |deeds| && q < |j.desks| && q < |j.world.ranks| && q < |j.world.pcs|
  {
    DeskInv(deeds[q], sys.chunks[q], j.world.pcs[q], j.desks[q], j.world.ranks[q].bounds, P.IngestedBy(j.world, q))
  }

  ghost predicate JointInv(sys: System, deeds: seq<seq<Deed>>, j: Joint) {
    && |deeds| == |sys.apps| && !j.broken && Shaped(sys, j) && P.Inv(Programs(deeds), j.world)
    && forall q {:trigger RankInv(sys, deeds, j, q)} :: 0 <= q < |sys.apps| ==> RankInv(sys, deeds, j, q)
  }

  /** What the invariant says of the whole system. */
  lemma JointIs(sys: System, deeds: seq<seq<Deed>>, j: Joint)
    requires JointInv(sys, deeds, j)
    ensures |deeds| == |sys.apps| == |sys.chunks| == |j.desks| == |Programs(deeds)| && !j.broken && Shaped(sys, j)
    ensures P.Inv(Programs(deeds), j.world) && P.SizedWorld(j.world, |sys.apps|)
    ensures |j.world.ranks| == |j.world.pcs| == |j.world.phases| == |j.world.left| == |sys.apps|
    ensures forall q :: 0 <= q < |sys.apps| ==> Sized(j.world.ranks[q], |sys.apps|) && |j.world.left[q]| == |sys.apps| && DeskShaped(sys.chunks[q], j.desks[q])
  {
    hide P.Inv, RankInv, DeskShaped;
  }

  /** What the recorded run says of rank q. */
  lemma RecordOf(sys: System, deeds: seq<seq<Deed>>, q: nat)
    requires RecordedRun(sys, deeds) && q < |sys.apps|
    ensures |sys.chunks| == |deeds| == |sys.apps|
    ensures Did(sys.apps[q], deeds[q]) && RecordedBy(deeds[q], sys.chunks[q]) && AllSent(Programs(deeds), q, sys.chunks[q])
    ensures Programs(deeds)[q] == Program(deeds[q])
  {
    hide Did, RecordedBy, AllSent, Program;
    assert Did(sys.apps[q], deeds[q]) && RecordedBy(deeds[q], sys.chunks[q]) && AllSent(Programs(deeds), q, sys.chunks[q]);
  }

  lemma RankIs(sys: System, deeds: seq<seq<Deed>>, j: Joint, q: nat)
    requires JointInv(sys, deeds, j) && q < |sys.apps|
    ensures |deeds| == |sys.apps| == |sys.chunks| == |j.desks| == |j.world.ranks| == |j.world.pcs|
    ensures DeskInv(deeds[q], sys.chunks[q], j.world.pcs[q], j.desks[q], j.world.ranks[q].bounds, P.IngestedBy(j.world, q))
  {
    hide P.Inv, DeskInv, DeskShaped, P.IngestedBy;
    assert RankInv(sys, deeds, j, q);
  }

  lemma DeskIs(deeds: seq<Deed>, chunks: seq<Chunk>, pc: nat, desk: Desk, known: Bounds, got: set<Tagged>)
    requires DeskInv(deeds, chunks, pc, desk, known, got)
    ensures pc <= |deeds| && desk.done == deeds[..pc] && DeskShaped(chunks, desk)
    ensures desk.ready.Keys == desk.tables.Keys == desk.outs.Keys
    ensures chunks != [] ==> ValidChunks(chunks) && RunInv(chunks, RunOf(desk, known), got)
    ensures forall id :: id in desk.tables ==> PlaceOk(deeds, pc, desk, id)
  {
    hide PlaceOk, ValidPlans, ValidChunk, RunInv, RecordedSets;
  }

  lemma DeskFrom(deeds: seq<Deed>, chunks: seq<Chunk>, pc: nat, desk: Desk, known: Bounds, got: set<Tagged>)
    requires pc <= |deeds| && desk.done == deeds[..pc] && DeskShaped(chunks, desk)
    requires chunks != [] ==> ValidChunks(chunks) && RunInv(chunks, RunOf(desk, known), got)
    requires forall id :: id in desk.tables ==> PlaceOk(deeds, pc, desk, id)
    ensures DeskInv(deeds, chunks, pc, desk, known, got)
  {
    hide PlaceOk, ValidChunks, RunInv, DeskShaped;
  }

  lemma PlaceIs(deeds: seq<Deed>, pc: nat, desk: Desk, id: int)
    requires PlaceOk(deeds, pc, desk, id)
    ensures id in desk.tables && id in desk.outs && id in desk.ready
    ensures Place(deeds, id, pc, desk.outs[id], desk.ready[id], desk.tables[id].interim)
  {
    hide Place;
  }

  lemma PlaceOkFrom(deeds: seq<Deed>, pc: nat, desk: Desk, id: int)
    requires id in desk.tables && id in desk.outs && id in desk.ready
    requires Place(deeds, id, pc, desk.outs[id], desk.ready[id], desk.tables[id].interim)
    ensures PlaceOk(deeds, pc, desk, id)
  {
    hide Place;
  }

  // ----- what a step leaves alone -----

  /** Nothing that concerns the desks of other ranks changes. */
  ghost predicate Beside(w: P.World, w': P.World, q: nat) {
    && |w'.ranks| == |w.ranks| && |w'.pcs| == |w.pcs| == |w.ranks|
    && forall o :: 0 <= o < |w.ranks| && o != q ==>
      w'.pcs[o] == w.pcs[o] && w'.ranks[o].bounds == w.ranks[o].bounds && P.IngestedBy(w', o) == P.IngestedBy(w, o)
  }

  lemma SameIngested(w: P.World, w': P.World, q: nat)
    requires q < |w.ranks| == |w'.ranks| && w'.ranks[q].recvCounts == w.ranks[q].recvCounts && |w'.left| == |w.left|
    requires forall r :: 0 <= r < |w.left| ==> |w'.left[r]| == |w.left[r]| && q < |w.left[r]| && w.left[r][q] <= w'.left[r][q]
    requires forall r :: 0 <= r < |w.left| && r < |w.ranks[q].recvCounts| ==> w.ranks[q].recvCounts[r] <= |w.left[r][q]|
    ensures P.IngestedBy(w', q) == P.IngestedBy(w, q)
  {
    forall x | x in P.IngestedBy(w, q) ensures x in P.IngestedBy(w', q) {
      var r: nat, i: nat :| r < |w.left| && r < |w.ranks[q].recvCounts| && q < |w.left[r]| && i < |w.left[r][q]| && i < w.ranks[q].recvCounts[r]
        && x == Tagged(Msg(r, w.left[r][q][i].clock), w.left[r][q][i].id);
      assert w'.left[r][q][i] == w.left[r][q][i];
    }
    forall x | x in P.IngestedBy(w', q) ensures x in P.IngestedBy(w, q) {
      var r: nat, i: nat :| r < |w'.left| && r < |w'.ranks[q].recvCounts| && q < |w'.left[r]| && i < |w'.left[r][q]| && i < w'.ranks[q].recvCounts[r]
        && x == Tagged(Msg(r, w'.left[r][q][i].clock), w'.left[r][q][i].id);
      assert w'.left[r][q][i] == w.left[r][q][i];
    }
  }

  /** No rank ingests anything, and only rank q may move on. */
  ghost predicate Quiet(w: P.World, w': P.World, q: nat) {
    && |w'.ranks| == |w.ranks| == |w.pcs| == |w'.pcs| == |w.left| == |w'.left|
    && (forall o :: 0 <= o < |w.ranks| ==> w'.ranks[o].recvCounts == w.ranks[o].recvCounts)
    && (forall o :: 0 <= o < |w.ranks| && o != q ==> w'.pcs[o] == w.pcs[o] && w'.ranks[o].bounds == w.ranks[o].bounds)
    && (forall r :: 0 <= r < |w.left| ==> |w'.left[r]| == |w.left[r]|)
    && (forall r, o :: 0 <= r < |w.left| && 0 <= o < |w.left[r]| ==> w.left[r][o] <= w'.left[r][o])
  }

  lemma QuietIsBeside(progs: seq<seq<P.Op>>, w: P.World, w': P.World, q: nat)
    requires P.Inv(progs, w) && Quiet(w, w', q) && q < |progs|
    ensures Beside(w, w', q) && P.IngestedBy(w', q) == P.IngestedBy(w, q)
  {
    P.WorldIsSized(progs, w);
    forall o | 0 <= o < |progs| ensures P.IngestedBy(w', o) == P.IngestedBy(w, o) {
      forall r | 0 <= r < |progs| ensures w.ranks[o].recvCounts[r] <= |w.left[r][o]| {
        P.ReadInv(progs, w, o, r);
      }
      hide P.Inv, P.IngestedBy, P.SizedWorld;
      SameIngested(w, w', o);
    }
  }

  /** A step of rank q. */
  lemma StepFrom(sys: System, deeds: seq<seq<Deed>>, j: Joint, next: Joint, q: nat)
    requires JointInv(sys, deeds, j) && q < |sys.apps| == |sys.chunks| == |deeds| == |j.desks| && !next.broken
    requires P.Inv(Programs(deeds), next.world) && |next.desks| == |j.desks| && Beside(j.world, next.world, q)
    requires |next.world.ranks| == |next.world.pcs| == |sys.apps|
    requires forall o :: 0 <= o < |sys.apps| && o != q ==> next.desks[o] == j.desks[o]
    requires DeskInv(deeds[q], sys.chunks[q], next.world.pcs[q], next.desks[q], next.world.ranks[q].bounds, P.IngestedBy(next.world, q))
    ensures JointInv(sys, deeds, next)
  {
    P.WorldIsSized(Programs(deeds), next.world);
    hide P.Inv, DeskInv, P.IngestedBy, DeskShaped, P.SizedWorld;
    forall o | 0 <= o < |sys.apps| ensures RankInv(sys, deeds, next, o) && DeskShaped(sys.chunks[o], next.desks[o]) {
      if o != q {
        assert RankInv(sys, deeds, j, o);
      }
      DeskIs(deeds[o], sys.chunks[o], next.world.pcs[o], next.desks[o], next.world.ranks[o].bounds, P.IngestedBy(next.world, o));
    }
  }

  /** A step of rank q that changes neither a desk, nor a program counter, nor a bound. */
  lemma QuietStep(sys: System, deeds: seq<seq<Deed>>, j: Joint, next: Joint, q: nat)
    requires JointInv(sys, deeds, j) && q < |sys.apps| && next == j.(world := next.world) && P.Inv(Programs(deeds), next.world)
    requires Quiet(j.world, next.world, q) && next.world.pcs == j.world.pcs
    requires q < |j.world.ranks| && q < |next.world.ranks| && next.world.ranks[q].bounds == j.world.ranks[q].bounds
    ensures JointInv(sys, deeds, next)
  {
    hide *;
    JointIs(sys, deeds, j);
    RankIs(sys, deeds, j, q);
    QuietIsBeside(Programs(deeds), j.world, next.world, q);
    QuietSizes(j.world, next.world, q);
    StepFrom(sys, deeds, j, next, q);
  }

  lemma QuietSizes(w: P.World, w': P.World, q: nat)
    requires Quiet(w, w', q)
    ensures |w'.ranks| == |w'.pcs| == |w.ranks|
  {
  }

  // ----- sending and publishing -----

  lemma AskedSend(sys: System, deeds: seq<seq<Deed>>, j: Joint, p: nat)
    requires RecordedRun(sys, deeds) && JointInv(sys, deeds, j) && p < |sys.apps| && p < |j.desks| && SendAsked(sys, j, p)
    ensures |deeds| == |sys.apps| == |j.world.pcs| && j.world.pcs[p] < |deeds[p]| == |Programs(deeds)[p]|
    ensures deeds[p][j.world.pcs[p]] == Sent(Asks(sys, j, p).dest, Asks(sys, j, p).id)
    ensures Programs(deeds)[p][j.world.pcs[p]] == P.Send(Asks(sys, j, p).dest, Asks(sys, j, p).id)
  {
    hide P.Inv, RecordedBy, AllSent, RunInv, ValidChunks, PlaceOk, MsgsOf;
    RecordOf(sys, deeds, p);
    RankIs(sys, deeds, j, p);
    NextDeed(sys.apps[p], deeds[p], j.world.pcs[p]);
  }

  lemma AskedReceive(sys: System, deeds: seq<seq<Deed>>, j: Joint, p: nat, id: int)
    requires RecordedRun(sys, deeds) && JointInv(sys, deeds, j) && p < |sys.apps| && p < |j.desks| && Asks(sys, j, p) == Receive(id)
    ensures |deeds| == |sys.apps| == |j.world.pcs| && j.world.pcs[p] < |deeds[p]| && Gets(deeds[p][j.world.pcs[p]], id)
  {
    hide P.Inv, RecordedBy, AllSent, RunInv, ValidChunks, PlaceOk, MsgsOf;
    RecordOf(sys, deeds, p);
    RankIs(sys, deeds, j, p);
    NextDeed(sys.apps[p], deeds[p], j.world.pcs[p]);
  }

  lemma BeginSendIs(sys: System, j: Joint, p: nat)
    requires Shaped(sys, j) && Enabled(sys, j, BeginSend(p))
    ensures p < |sys.apps| == |j.desks| && j.world.phases[p] == P.Ready && SendAsked(sys, j, p) && Asks(sys, j, p).dest < |sys.apps|
    ensures var next := Apply(sys, j, BeginSend(p));
      next == j.(world := P.Counting(j.world, p, Asks(sys, j, p).dest)) && Quiet(j.world, next.world, p) && next.world.pcs == j.world.pcs
      && next.world.ranks[p].bounds == j.world.ranks[p].bounds
  {
  }

  lemma BeginSendKeeps(sys: System, deeds: seq<seq<Deed>>, j: Joint, p: nat)
    requires RecordedRun(sys, deeds) && JointInv(sys, deeds, j) && Enabled(sys, j, BeginSend(p))
    ensures JointInv(sys, deeds, Apply(sys, j, BeginSend(p)))
  {
    hide *;
    JointIs(sys, deeds, j);
    BeginSendIs(sys, j, p);
    AskedSend(sys, deeds, j, p);
    P.CountKeeps(Programs(deeds), j.world, p, Asks(sys, j, p).dest);
    QuietStep(sys, deeds, j, Apply(sys, j, BeginSend(p)), p);
  }

  lemma PublishIs(sys: System, j: Joint, p: nat, clock: int)
    requires Shaped(sys, j) && p < |sys.apps|
    ensures var next := j.(world := P.Publishing(j.world, p, clock));
      Quiet(j.world, next.world, p) && next.world.pcs == j.world.pcs && next.world.ranks[p].bounds == j.world.ranks[p].bounds
  {
  }

  lemma Publishes(sys: System, deeds: seq<seq<Deed>>, j: Joint, p: nat, clock: int)
    requires JointInv(sys, deeds, j) && p < |sys.apps| == |deeds| && p < |j.world.phases| && p < |j.world.pcs| && p < |j.world.ranks|
    requires j.world.phases[p] != P.Counted && P.Plain(clock) && P.SendsAtLeast(Program(deeds[p]), j.world.pcs[p], clock)
    ensures JointInv(sys, deeds, j.(world := P.Publishing(j.world, p, clock)))
  {
    hide *;
    JointIs(sys, deeds, j);
    ProgramOf(deeds, p);
    P.PublishKeeps(Programs(deeds), j.world, p, clock);
    PublishIs(sys, j, p, clock);
    QuietStep(sys, deeds, j, j.(world := P.Publishing(j.world, p, clock)), p);
  }

  lemma ProgramOf(deeds: seq<seq<Deed>>, p: nat)
    requires p < |deeds|
    ensures |Programs(deeds)| == |deeds| && Programs(deeds)[p] == Program(deeds[p])
  {
    hide Program;
  }

  lemma EndSendKeeps(sys: System, deeds: seq<seq<Deed>>, j: Joint, p: nat)
    requires RecordedRun(sys, deeds) && JointInv(sys, deeds, j) && Enabled(sys, j, EndSend(p))
    ensures JointInv(sys, deeds, Apply(sys, j, EndSend(p)))
  {
    hide *;
    JointIs(sys, deeds, j);
    EndSendIs(sys, j, p);
    LocalIsPlain(deeds, j.world, p, j.world.ranks[p].localClock);
    Publishes(sys, deeds, j, p, j.world.ranks[p].localClock);
  }

  lemma EndSendIs(sys: System, j: Joint, p: nat)
    requires Shaped(sys, j) && Enabled(sys, j, EndSend(p))
    ensures p < |sys.apps| && p < |j.world.ranks| && p < |j.world.phases| && j.world.phases[p] != P.Counted
    ensures Apply(sys, j, EndSend(p)) == j.(world := P.Publishing(j.world, p, j.world.ranks[p].localClock))
  {
  }

  lemma LocalIsPlain(deeds: seq<seq<Deed>>, w: P.World, p: nat, clock: int)
    requires P.Inv(Programs(deeds), w) && p < |deeds| && p < |w.ranks| && p < |w.pcs|
    requires clock == w.ranks[p].localClock || clock == 0 || INITIAL_CLOCK <= clock <= w.ranks[p].localClock
    ensures P.Plain(clock) && P.SendsAtLeast(Program(deeds[p]), w.pcs[p], clock)
  {
    hide P.Inv, P.SendsAtLeast, Programs, Program;
    ProgramOf(deeds, p);
    P.LocalBoundsSends(Programs(deeds), w, p, clock);
  }

  lemma PublishLocalKeeps(sys: System, deeds: seq<seq<Deed>>, j: Joint, p: nat, clock: int)
    requires RecordedRun(sys, deeds) && JointInv(sys, deeds, j) && Enabled(sys, j, PublishLocal(p, clock))
    ensures JointInv(sys, deeds, Apply(sys, j, PublishLocal(p, clock)))
  {
    hide *;
    JointIs(sys, deeds, j);
    PublishLocalIs(sys, j, p, clock);
    LocalIsPlain(deeds, j.world, p, clock);
    Publishes(sys, deeds, j, p, clock);
  }

  lemma PublishLocalIs(sys: System, j: Joint, p: nat, clock: int)
    requires Shaped(sys, j) && Enabled(sys, j, PublishLocal(p, clock))
    ensures p < |sys.apps| && p < |j.world.ranks| && p < |j.world.phases| && j.world.phases[p] != P.Counted
    ensures clock == 0 || INITIAL_CLOCK <= clock <= j.world.ranks[p].localClock
    ensures Apply(sys, j, PublishLocal(p, clock)) == j.(world := P.Publishing(j.world, p, clock))
  {
  }

  lemma PublishInterimIs(sys: System, j: Joint, p: nat) returns (id: int)
    requires Shaped(sys, j) && Enabled(sys, j, PublishInterim(p))
    ensures p < |sys.apps| && p < |j.desks| && p < |j.world.ranks| && p < |j.world.phases| && j.world.phases[p] != P.Counted
    ensures Asks(sys, j, p) == Receive(id) && id in j.desks[p].ready && id in j.desks[p].tables && j.desks[p].ready[id] == []
    ensures Apply(sys, j, PublishInterim(p)) == j.(world := P.Publishing(j.world, p, j.desks[p].tables[id].interim))
  {
    id := Asks(sys, j, p).id;
  }

  /** A rank blocked in a receive may publish its decoder's own interim clock for the set. */
  lemma PublishInterimKeeps(sys: System, deeds: seq<seq<Deed>>, j: Joint, p: nat)
    requires RecordedRun(sys, deeds) && JointInv(sys, deeds, j) && Enabled(sys, j, PublishInterim(p))
    ensures JointInv(sys, deeds, Apply(sys, j, PublishInterim(p)))
  {
    hide *;
    JointIs(sys, deeds, j);
    var id := PublishInterimIs(sys, j, p);
    AskedReceive(sys, deeds, j, p, id);
    RankIs(sys, deeds, j, p);
    DeskIs(deeds[p], sys.chunks[p], j.world.pcs[p], j.desks[p], j.world.ranks[p].bounds, P.IngestedBy(j.world, p));
    PlaceIs(deeds[p], j.world.pcs[p], j.desks[p], id);
    PlaceBlocked(deeds[p], id, j.world.pcs[p], j.desks[p].outs[id], j.desks[p].tables[id].interim);
    Publishes(sys, deeds, j, p, j.desks[p].tables[id].interim);
  }

  lemma FetchIs(sys: System, j: Joint, q: nat, r: nat)
    requires Shaped(sys, j) && Enabled(sys, j, FetchFrom(q, r))
    ensures q < |sys.apps| && r < |sys.apps|
    ensures var next := Apply(sys, j, FetchFrom(q, r));
      next == j.(world := P.Fetching(j.world, q, r)) && Quiet(j.world, next.world, q) && next.world.pcs == j.world.pcs
      && next.world.ranks[q].bounds == j.world.ranks[q].bounds
  {
  }

  lemma FetchKeeps(sys: System, deeds: seq<seq<Deed>>, j: Joint, q: nat, r: nat)
    requires RecordedRun(sys, deeds) && JointInv(sys, deeds, j) && Enabled(sys, j, FetchFrom(q, r))
    ensures JointInv(sys, deeds, Apply(sys, j, FetchFrom(q, r)))
  {
    hide *;
    JointIs(sys, deeds, j);
    FetchIs(sys, j, q, r);
    P.FetchKeeps(Programs(deeds), j.world, q, r);
    QuietStep(sys, deeds, j, Apply(sys, j, FetchFrom(q, r)), q);
  }

  // ----- a message leaves -----

  lemma DeskSends(deeds: seq<Deed>, chunks: seq<Chunk>, pc: nat, desk: Desk, known: Bounds, got: set<Tagged>, dest: nat, id: int)
    requires DeskInv(deeds, chunks, pc, desk, known, got) && pc < |deeds| && deeds[pc] == Sent(dest, id)
    ensures DeskInv(deeds, chunks, pc + 1, desk.(done := desk.done + [Sent(dest, id)]), known, got)
  {
    hide *;
    DeskIs(deeds, chunks, pc, desk, known, got);
    var next := desk.(done := desk.done + [Sent(dest, id)]);
    OneDeed(deeds, id, pc);
    forall o | o in desk.tables ensures PlaceOk(deeds, pc + 1, next, o) {
      PlaceIs(deeds, pc, desk, o);
      NoGet(deeds[pc], o);
      PlacePasses(deeds, o, pc, desk.outs[o], desk.ready[o], desk.tables[o].interim);
      PlaceOkFrom(deeds, pc + 1, next, o);
    }
    KeysAre(desk, next);
    SameShape(chunks, desk, next);
    DeskFrom(deeds, chunks, pc + 1, next, known, got);
  }

  lemma KeysAre(desk: Desk, next: Desk)
    requires next.tables.Keys == desk.tables.Keys && next.outs.Keys == desk.outs.Keys && next.ready.Keys == desk.ready.Keys
    ensures SameKeys(desk, next)
  {
  }

  lemma NoGet(deed: Deed, id: int)
    requires deed.Sent?
    ensures !Gets(deed, id)
  {
  }

  predicate SameKeys(desk: Desk, next: Desk) {
    next.tables.Keys == desk.tables.Keys && next.outs.Keys == desk.outs.Keys && next.ready.Keys == desk.ready.Keys
  }

  lemma SameShape(chunks: seq<Chunk>, desk: Desk, next: Desk)
    requires next.c == desk.c && next.again == desk.again
    ensures next.tables == desk.tables && next.outs == desk.outs ==> forall known :: RunOf(next, known) == RunOf(desk, known)
    ensures SameKeys(desk, next) && DeskShaped(chunks, desk) ==> DeskShaped(chunks, next)
  {
    assert next.tables.Keys == {} ==> next.tables == map[];
    hide RecordedSets;
  }

  lemma LeaveIs(sys: System, j: Joint, p: nat) returns (dest: nat, id: int)
    requires Shaped(sys, j) && Enabled(sys, j, Leave(p))
    ensures p < |sys.apps| == |j.desks| && j.world.phases[p] == P.Counted && SendAsked(sys, j, p)
    ensures Asks(sys, j, p) == Send(dest, id) && dest < |sys.apps|
    ensures var next := Apply(sys, j, Leave(p));
      next == j.(world := P.Leaving(j.world, p, dest, id), desks := j.desks[p := j.desks[p].(done := j.desks[p].done + [Sent(dest, id)])])
      && Quiet(j.world, next.world, p) && next.world.pcs[p] == j.world.pcs[p] + 1 && next.world.ranks[p].bounds == j.world.ranks[p].bounds
  {
    dest, id := Asks(sys, j, p).dest, Asks(sys, j, p).id;
  }

  lemma LeaveKeeps(sys: System, deeds: seq<seq<Deed>>, j: Joint, p: nat)
    requires RecordedRun(sys, deeds) && JointInv(sys, deeds, j) && Enabled(sys, j, Leave(p))
    ensures JointInv(sys, deeds, Apply(sys, j, Leave(p)))
  {
    hide *;
    JointIs(sys, deeds, j);
    var dest, id := LeaveIs(sys, j, p);
    AskedSend(sys, deeds, j, p);
    var next := Apply(sys, j, Leave(p));
    P.LeaveKeeps(Programs(deeds), j.world, p, dest, id);
    QuietIsBeside(Programs(deeds), j.world, next.world, p);
    QuietSizes(j.world, next.world, p);
    RankIs(sys, deeds, j, p);
    DeskSends(deeds[p], sys.chunks[p], j.world.pcs[p], j.desks[p], j.world.ranks[p].bounds, P.IngestedBy(j.world, p), dest, id);
    StepFrom(sys, deeds, j, next, p);
  }

  // ----- a message arrives -----

  /** Messages between two ranks are ingested in the order of their clocks, each once. */
  lemma NextIsNew(progs: seq<seq<P.Op>>, w: P.World, q: nat, r: nat) returns (m: Tagged)
    requires P.Inv(progs, w) && q < |progs| && r < |progs| && P.HasNext(w, q, r)
    ensures m == Tagged(Msg(r, P.Next(w, q, r).clock), P.Next(w, q, r).id) && P.Next(w, q, r) in P.Sent(progs[r], q)
    ensures m !in P.IngestedBy(w, q)
    ensures forall c :: P.Packet(c, m.id) in P.Sent(progs[r], q) && c < m.msg.clock ==> Tagged(Msg(r, c), m.id) in P.IngestedBy(w, q)
  {
    var msgs, k, packet := P.Sent(progs[r], q), w.ranks[q].recvCounts[r], P.Next(w, q, r);
    m := Tagged(Msg(r, packet.clock), packet.id);
    P.LeftIsSent(progs, w, r, q);
    P.SentIncreases(progs[r], q, |progs[r]|);
    assert msgs[k] == packet;
    forall x | x in P.IngestedBy(w, q) ensures x != m {
      var s: nat, i: nat :| s < |w.left| && s < |w.ranks[q].recvCounts| && q < |w.left[s]| && i < |w.left[s][q]| && i < w.ranks[q].recvCounts[s]
        && x == Tagged(Msg(s, w.left[s][q][i].clock), w.left[s][q][i].id);
      if s == r {
        assert msgs[i] == w.left[r][q][i];
      }
    }
    forall c | P.Packet(c, m.id) in msgs && c < packet.clock ensures Tagged(Msg(r, c), m.id) in P.IngestedBy(w, q) {
      var i :| 0 <= i < |msgs| && msgs[i] == P.Packet(c, m.id);
      hide P.Inv, P.IngestedBy;
      P.EarlyIsIngested(progs, w, q, r, i);
    }
  }

  lemma IngestedAfter(w: P.World, q: nat, r: nat, n: nat)
    requires P.SizedWorld(w, n) && q < n && r < n && P.HasNext(w, q, r)
    ensures var next := P.Ingesting(w, q, r);
      && P.IngestedBy(next, q) == P.IngestedBy(w, q) + {Tagged(Msg(r, P.Next(w, q, r).clock), P.Next(w, q, r).id)}
      && Beside(w, next, q) && next.pcs[q] == w.pcs[q] && next.ranks[q].bounds == w.ranks[q].bounds
  {
    var next, k, packet := P.Ingesting(w, q, r), w.ranks[q].recvCounts[r], P.Next(w, q, r);
    var latest := Tagged(Msg(r, packet.clock), packet.id);
    assert next.ranks[q].recvCounts == w.ranks[q].recvCounts[r := k + 1];
    forall x ensures x in P.IngestedBy(next, q) <==> x in P.IngestedBy(w, q) || x == latest {
      if x in P.IngestedBy(w, q) {
        var s: nat, i: nat :| s < n && i < |w.left[s][q]| && i < w.ranks[q].recvCounts[s] && x == Tagged(Msg(s, w.left[s][q][i].clock), w.left[s][q][i].id);
        assert i < next.ranks[q].recvCounts[s];
      }
      if x == latest {
        assert k < next.ranks[q].recvCounts[r] && w.left[r][q][k] == packet;
      }
      if x in P.IngestedBy(next, q) {
        var s: nat, i: nat :| s < n && i < |w.left[s][q]| && i < next.ranks[q].recvCounts[s] && x == Tagged(Msg(s, w.left[s][q][i].clock), w.left[s][q][i].id);
        assert i < w.ranks[q].recvCounts[s] || (s == r && i == k);
      }
    }
    forall o | 0 <= o < n && o != q ensures P.IngestedBy(next, o) == P.IngestedBy(w, o) {
      assert next.ranks[o] == w.ranks[o];
    }
  }

  /** The message belongs to a recorded set and comes after all that its source sent to the set before. */
  lemma ArrivesNext(progs: seq<seq<P.Op>>, w: P.World, q: nat, r: nat, chunks: seq<Chunk>) returns (m: Tagged)
    requires P.Inv(progs, w) && q < |progs| && r < |progs| && P.HasNext(w, q, r) && AllSent(progs, q, chunks)
    ensures m == Tagged(Msg(r, P.Next(w, q, r).clock), P.Next(w, q, r).id)
    ensures Arrives(AllKeys(PlansOf(chunks, m.id)), ArrivedFor(P.IngestedBy(w, q), m.id), m.msg)
    ensures chunks != [] && m.id in RecordedSets(chunks)
  {
    m := NextIsNew(progs, w, q, r);
    var all, got := AllKeys(PlansOf(chunks, m.id)), P.IngestedBy(w, q);
    hide P.Inv, P.IngestedBy, P.Sent, PlansOf, AllKeys, P.HasNext;
    assert ExactlySent(progs, q, m.id, AllKeys(PlansOf(chunks, m.id)));
    NotArrived(got, m);
    forall x | x in all && x.source == r && x.clock < m.msg.clock ensures x in ArrivedFor(got, m.id) {
      assert x == Msg(r, x.clock);
      HasArrived(got, Tagged(x, m.id));
    }
    KeysMeanSet(chunks, m.id);
  }

  lemma NotArrived(got: set<Tagged>, m: Tagged)
    requires m !in got
    ensures m.msg !in ArrivedFor(got, m.id)
  {
  }

  lemma HasArrived(got: set<Tagged>, m: Tagged)
    requires m in got
    ensures m.msg in ArrivedFor(got, m.id)
  {
  }

  lemma {:induction false} NoKeys(plans: seq<Plan>, k: nat)
    requires k <= |plans| && forall i :: 0 <= i < |plans| ==> plans[i] == NoPlan()
    ensures KeysFrom(plans, k) == []
    decreases |plans| - k
  {
    NoPlanIsValid();
    hide NoPlan, KeysOf, ValidPlan;
    if k < |plans| {
      NoKeys(plans, k + 1);
    }
  }

  lemma {:induction false} NoStream(plans: seq<Plan>, k: nat)
    requires k <= |plans| && forall i :: 0 <= i < |plans| ==> plans[i] == NoPlan()
    ensures StreamTo(plans, k) == []
  {
    NoPlanIsValid();
    hide NoPlan, StreamOf, ValidPlan;
    if k > 0 {
      NoStream(plans, k - 1);
    }
  }

  /** A set without a table has neither messages nor a stream. */
  lemma KeysMeanSet(chunks: seq<Chunk>, id: int)
    ensures AllKeys(PlansOf(chunks, id)) != [] || Stream(PlansOf(chunks, id)) != [] ==> chunks != [] && id in RecordedSets(chunks)
  {
    var plans := PlansOf(chunks, id);
    if chunks == [] || id !in RecordedSets(chunks) {
      forall k | 0 <= k < |plans| ensures plans[k] == NoPlan() {
        assert id !in chunks[k].plans;
      }
      NoKeys(plans, 0);
      NoStream(plans, |plans|);
    }
  }

  lemma RecordIs(deeds: seq<Deed>, chunks: seq<Chunk>, id: int)
    requires RecordedBy(deeds, chunks)
    ensures chunks != [] ==> ValidChunks(chunks) && Replayable(chunks)
    ensures Receives(deeds, id, Stream(PlansOf(chunks, id)))
  {
    hide ValidChunks, Receives, PlansOf, Stream, Replayable;
    var plans := PlansOf(chunks, id);
  }

  lemma DeskTakes(deeds: seq<Deed>, chunks: seq<Chunk>, pc: nat, desk: Desk, known: Bounds, got: set<Tagged>, m: Tagged)
    requires RecordedBy(deeds, chunks) && DeskInv(deeds, chunks, pc, desk, known, got) && chunks != [] && m.id in RecordedSets(chunks)
    requires Arrives(AllKeys(PlansOf(chunks, m.id)), ArrivedFor(got, m.id), m.msg)
    ensures DeskInv(deeds, chunks, pc, DeskArrives(desk, m), known, got + {m})
  {
    hide *;
    DeskIs(deeds, chunks, pc, desk, known, got);
    RecordIs(deeds, chunks, m.id);
    ReplayableIs(chunks);
    SetsAreThose(chunks, m.id);
    RunIs(desk, known);
    Parts(chunks, RunOf(desk, known), got);
    GoodAt(chunks, |chunks|, desk.c);
    CutOf(chunks, desk.c, m.id);
    var r := ArriveOne(chunks, RunOf(desk, known), got, m.id, m.msg);
    var next := DeskArrives(desk, m);
    ArrivesIs(desk, m, known);
    forall o | o in next.tables ensures PlaceOk(deeds, pc, next, o) {
      PlaceIs(deeds, pc, desk, o);
      PlaceOkFrom(deeds, pc, next, o);
    }
    KeysAre(desk, next);
    SameShape(chunks, desk, next);
    DeskFrom(deeds, chunks, pc, next, known, got + {m});
  }

  lemma RunIs(desk: Desk, known: Bounds)
    ensures var r := RunOf(desk, known);
      r.Ran? && r.c == desk.c && r.known == known && r.tables == desk.tables && r.outs == desk.outs && r.again == desk.again
  {
  }

  lemma ArrivesIs(desk: Desk, m: Tagged, known: Bounds)
    requires m.id in desk.tables
    ensures var next := DeskArrives(desk, m);
      && next == desk.(tables := desk.tables[m.id := desk.tables[m.id].(waiting := desk.tables[m.id].waiting + [m.msg])])
      && next.tables.Keys == desk.tables.Keys
      && (forall id :: id in desk.tables ==> next.tables[id].interim == desk.tables[id].interim)
      && RunOf(next, known).Ran? && RunOf(next, known) == Arrive(RunOf(desk, known), m.id, [m.msg])
  {
  }

  lemma IngestIs(sys: System, j: Joint, q: nat, r: nat)
    requires Shaped(sys, j) && Enabled(sys, j, IngestFrom(q, r))
    ensures q < |sys.apps| && r < |sys.apps| && P.HasNext(j.world, q, r) && P.SizedWorld(j.world, |sys.apps|) && |j.desks| == |sys.apps|
    ensures var m := Tagged(Msg(r, P.Next(j.world, q, r).clock), P.Next(j.world, q, r).id);
      Apply(sys, j, IngestFrom(q, r)) == j.(world := P.Ingesting(j.world, q, r), desks := j.desks[q := DeskArrives(j.desks[q], m)])
  {
    hide DeskArrives;
  }

  /** An ingested message is new to the decoder of its set, and after all that its source sent to the set before. */
  lemma IngestKeeps(sys: System, deeds: seq<seq<Deed>>, j: Joint, q: nat, r: nat)
    requires RecordedRun(sys, deeds) && JointInv(sys, deeds, j) && Enabled(sys, j, IngestFrom(q, r))
    ensures JointInv(sys, deeds, Apply(sys, j, IngestFrom(q, r)))
  {
    hide *;
    JointIs(sys, deeds, j);
    IngestIs(sys, j, q, r);
    RecordOf(sys, deeds, q);
    RankIs(sys, deeds, j, q);
    var progs, next := Programs(deeds), Apply(sys, j, IngestFrom(q, r));
    P.IngestKeeps(progs, j.world, q, r);
    P.WorldIsSized(progs, next.world);
    var m := ArrivesNext(progs, j.world, q, r, sys.chunks[q]);
    IngestedAfter(j.world, q, r, |sys.apps|);
    DeskTakes(deeds[q], sys.chunks[q], j.world.pcs[q], j.desks[q], j.world.ranks[q].bounds, P.IngestedBy(j.world, q), m);
    StepFrom(sys, deeds, j, next, q);
  }

  // ----- a receive call -----

  lemma DeskDelivers(deeds: seq<Deed>, chunks: seq<Chunk>, pc: nat, desk: Desk, known: Bounds, got: set<Tagged>, id: int) returns (next: Desk)
    requires DeskInv(deeds, chunks, pc, desk, known, got) && pc < |deeds| && Gets(deeds[pc], id) && id in desk.ready && desk.ready[id] != []
    ensures next == desk.(ready := desk.ready[id := desk.ready[id][1..]], done := desk.done + [Got(id, desk.ready[id][0])])
    ensures deeds[pc] == Got(id, desk.ready[id][0]) && DeskInv(deeds, chunks, pc + 1, next, known, got)
  {
    hide *;
    DeskIs(deeds, chunks, pc, desk, known, got);
    PlaceIs(deeds, pc, desk, id);
    GetsIs(deeds, id, pc);
    PlaceDelivers(deeds, id, pc, desk.outs[id], desk.ready[id], desk.tables[id].interim);
    next := desk.(ready := desk.ready[id := desk.ready[id][1..]], done := desk.done + [Got(id, desk.ready[id][0])]);
    assert next.ready.Keys == desk.ready.Keys;
    OneDeed(deeds, id, pc);
    forall o | o in next.tables ensures PlaceOk(deeds, pc + 1, next, o) {
      if o != id {
        PlaceIs(deeds, pc, desk, o);
        OtherGet(deeds[pc], id, o);
        PlacePasses(deeds, o, pc, desk.outs[o], desk.ready[o], desk.tables[o].interim);
      }
      PlaceOkFrom(deeds, pc + 1, next, o);
    }
    KeysAre(desk, next);
    SameShape(chunks, desk, next);
    DeskFrom(deeds, chunks, pc + 1, next, known, got);
  }

  lemma OtherGet(deed: Deed, id: int, o: int)
    requires Gets(deed, id) && o != id
    ensures !Gets(deed, o)
  {
  }

  lemma DeliverIs(sys: System, j: Joint, q: nat) returns (id: int)
    requires Shaped(sys, j) && Enabled(sys, j, Deliver(q))
    ensures q < |sys.apps| && q < |j.desks| && j.world.phases[q] == P.Ready && Asks(sys, j, q) == Receive(id)
    ensures id in j.desks[q].ready && j.desks[q].ready[id] != []
    ensures var desk, items, next := j.desks[q], j.desks[q].ready[id][0], Apply(sys, j, Deliver(q));
      && next == j.(world := P.Receiving(j.world, q, MsgsOf(items)),
                    desks := j.desks[q := desk.(ready := desk.ready[id := desk.ready[id][1..]], done := desk.done + [Got(id, items)])])
      && Quiet(j.world, next.world, q) && next.world.pcs[q] == j.world.pcs[q] + 1 && next.world.ranks[q].bounds == j.world.ranks[q].bounds
  {
    id := Asks(sys, j, q).id;
    hide MsgsOf, SyncAll;
  }

  /** A receive call keeps the invariant: the application gets what it got when recorded. */
  lemma DeliverKeeps(sys: System, deeds: seq<seq<Deed>>, j: Joint, q: nat)
    requires RecordedRun(sys, deeds) && JointInv(sys, deeds, j) && Enabled(sys, j, Deliver(q))
    ensures JointInv(sys, deeds, Apply(sys, j, Deliver(q)))
  {
    hide *;
    JointIs(sys, deeds, j);
    var id := DeliverIs(sys, j, q);
    AskedReceive(sys, deeds, j, q, id);
    RankIs(sys, deeds, j, q);
    var pc, next := j.world.pcs[q], Apply(sys, j, Deliver(q));
    var desk := DeskDelivers(deeds[q], sys.chunks[q], pc, j.desks[q], j.world.ranks[q].bounds, P.IngestedBy(j.world, q), id);
    ProgramOf(deeds, q);
    GroupAt(deeds[q], pc, j.desks[q].ready[id][0]);
    P.ReceiveKeeps(Programs(deeds), j.world, q, MsgsOf(j.desks[q].ready[id][0]));
    QuietIsBeside(Programs(deeds), j.world, next.world, q);
    QuietSizes(j.world, next.world, q);
    StepFrom(sys, deeds, j, next, q);
  }

  // ----- a call of the decoder -----

  /** The set that is called has a table in the chunk. */
  lemma CalledIsInChunk(sys: System, deeds: seq<seq<Deed>>, j: Joint, q: nat, id: int)
    requires RecordedRun(sys, deeds) && JointInv(sys, deeds, j) && q < |sys.apps| && Shaped(sys, j) && MayDecode(sys, j, q, id)
    ensures |sys.chunks| == |sys.apps| == |j.desks| && sys.chunks[q] != [] && j.desks[q].c < |sys.chunks[q]|
    ensures id in sys.chunks[q][j.desks[q].c].plans && id in sys.chunks[q][0].plans
  {
    hide *;
    JointIs(sys, deeds, j);
    RecordOf(sys, deeds, q);
    RankIs(sys, deeds, j, q);
    var chunks, desk := sys.chunks[q], j.desks[q];
    var known, got := j.world.ranks[q].bounds, P.IngestedBy(j.world, q);
    MayDecodeIs(sys, j, q, id);
    DeskIs(deeds[q], chunks, j.world.pcs[q], desk, known, got);
    RecordIs(deeds[q], chunks, id);
    ReplayableIs(chunks);
    RunIs(desk, known);
    Parts(chunks, RunOf(desk, known), got);
    GoodAt(chunks, |chunks|, desk.c);
    InChunk(chunks, desk.c, id);
    if Asks(sys, j, q) == Receive(id) {
      AskedReceive(sys, deeds, j, q, id);
      GotMeansSet(deeds[q], chunks, j.world.pcs[q], id);
      SetsAreThose(chunks, id);
    }
  }

  lemma MayDecodeIs(sys: System, j: Joint, q: nat, id: int)
    requires Shaped(sys, j) && q < |sys.apps| && MayDecode(sys, j, q, id)
    ensures |sys.chunks| == |sys.apps| == |j.desks| && sys.chunks[q] != [] && j.desks[q].c < |sys.chunks[q]|
    ensures j.desks[q].again.Some? ==> id == j.desks[q].again.value
    ensures j.desks[q].again.None? ==> id in sys.chunks[q][j.desks[q].c].plans || Asks(sys, j, q) == Receive(id)
  {
  }

  lemma GotMeansSet(deeds: seq<Deed>, chunks: seq<Chunk>, pc: nat, id: int)
    requires RecordedBy(deeds, chunks) && pc < |deeds| && Gets(deeds[pc], id)
    ensures chunks != [] && id in RecordedSets(chunks)
  {
    hide *;
    RecordIs(deeds, chunks, id);
    ReceivesIs(deeds, id, Stream(PlansOf(chunks, id)));
    GetsIs(deeds, id, pc);
    DeliveryIsSomething(deeds[pc].items);
    GotIsPart(deeds, id, pc);
    KeysMeanSet(chunks, id);
  }

  /** All messages of the set in this chunk come from the sources of its line. */
  lemma EpochSources(progs: seq<seq<P.Op>>, q: nat, chunks: seq<Chunk>, k: nat, id: int, sources: seq<int>)
    requires ValidChunks(chunks) && k < |chunks| && id in chunks[k].plans && AllSent(progs, q, chunks)
    requires forall s :: s in sources <==> s in chunks[k].plans[id].epoch.line
    ensures P.EpochMessages(progs, q, id, TotalOf(PlanAt(chunks[k], id)), sources)
    ensures forall s :: s in sources ==> 0 <= s < |progs|
  {
    PlansAre(chunks, id, k);
    var plans := PlansOf(chunks, id);
    EpochKeys(plans, k);
    assert ExactlySent(progs, q, id, AllKeys(PlansOf(chunks, id)));
    hide ValidChunks, ValidPlans, AllKeys, KeysFrom, PlansOf, P.Sent, AllSent;
    LineIsSources(plans[k]);
    hide ValidPlan, KeysOf, TotalOf;
    forall s | s in sources ensures 0 <= s < |progs| {
      assert Msg(s, plans[k].epoch.line[s]) in AllKeys(plans);
    }
  }

  lemma LineIsSources(p: Plan)
    requires ValidPlan(p)
    ensures forall m :: m in TotalOf(p) ==> m.source in p.epoch.line
    ensures forall s :: s in p.epoch.line ==> Msg(s, p.epoch.line[s]) in KeysOf(p)
  {
  }

  lemma AllSources(sources: seq<int>, n: nat, known: map<int, int>, line: map<int, int>)
    requires (forall s :: s in sources ==> 0 <= s < n) && (forall s :: s in sources <==> s in line) && line.Keys <= known.Keys
    ensures forall k :: 0 <= k < |sources| ==> 0 <= sources[k] < n && sources[k] in known
  {
    forall k | 0 <= k < |sources| ensures 0 <= sources[k] < n && sources[k] in known {
      var s := sources[k];
      assert s in sources;
      assert s in line.Keys && s in known.Keys;
    }
  }

  /** The clock that a rank computes from its bounds is sound for the table that it calls. */
  lemma BoundIsSound(sys: System, deeds: seq<seq<Deed>>, j: Joint, q: nat, id: int, sources: seq<int>, bound: Msg)
    requires RecordedRun(sys, deeds) && JointInv(sys, deeds, j) && q < |sys.apps| == |sys.chunks| == |j.desks| && Shaped(sys, j)
    requires BoundIs(sys, j, q, id, sources, bound) && sys.chunks[q] != [] && j.desks[q].c < |sys.chunks[q]|
    requires id in sys.chunks[q][j.desks[q].c].plans && id in sys.chunks[q][0].plans
    ensures SoundBound(TotalOf(PlanAt(sys.chunks[q][j.desks[q].c], id)), ArrivedFor(P.IngestedBy(j.world, q), id), bound)
    ensures bound.clock != COLLECTIVE_CLOCK
  {
    hide *;
    JointIs(sys, deeds, j);
    RecordOf(sys, deeds, q);
    RankIs(sys, deeds, j, q);
    var chunks, desk, progs := sys.chunks[q], j.desks[q], Programs(deeds);
    var known, got := j.world.ranks[q].bounds, P.IngestedBy(j.world, q);
    DeskIs(deeds[q], chunks, j.world.pcs[q], desk, known, got);
    RecordIs(deeds[q], chunks, id);
    ReplayableIs(chunks);
    RunIs(desk, known);
    Parts(chunks, RunOf(desk, known), got);
    OneSet(chunks, RunOf(desk, known), got, id);
    GoodAt(chunks, |chunks|, desk.c);
    InChunk(chunks, desk.c, id);
    LineIsKnown(chunks[desk.c], id);
    BoundMeans(sys, j, q, id, sources, bound);
    EpochSources(progs, q, chunks, desk.c, id, sources);
    AllSources(sources, |progs|, known[id], chunks[desk.c].plans[id].epoch.line);
    var t, arrived := TotalOf(PlanAt(chunks[desk.c], id)), ArrivedFor(got, id);
    forall m | m in t && Tagged(m, id) in got ensures m in arrived {
      HasArrived(got, Tagged(m, id));
    }
    P.LookAheadIsSound(progs, j.world, q, id, t, sources, bound, arrived);
    if sources == [] {
      NoSourceNoBound(known[id], bound);
    } else {
      P.LookAheadIsBelow(progs, j.world, q, id, sources, bound, sources[0]);
    }
  }

  lemma NoSourceNoBound(known: map<int, int>, bound: Msg)
    requires IsLookAhead(known, [], bound)
    ensures bound.clock != COLLECTIVE_CLOCK
  {
  }

  lemma BoundMeans(sys: System, j: Joint, q: nat, id: int, sources: seq<int>, bound: Msg)
    requires Shaped(sys, j) && q < |sys.apps| == |sys.chunks| == |j.desks| && BoundIs(sys, j, q, id, sources, bound)
    requires q < |j.world.ranks| && id in j.world.ranks[q].bounds
    requires sys.chunks[q] != [] && j.desks[q].c < |sys.chunks[q]| && id in sys.chunks[q][j.desks[q].c].plans
    ensures forall s :: s in sources <==> s in sys.chunks[q][j.desks[q].c].plans[id].epoch.line
    ensures (forall k :: 0 <= k < |sources| ==> sources[k] in j.world.ranks[q].bounds[id]) ==> IsLookAhead(j.world.ranks[q].bounds[id], sources, bound)
  {
    hide IsLookAhead;
  }

  /** A call of the decoder: it waits, or decodes what the application is to get next from the set. */
  lemma DeskDecodes(deeds: seq<Deed>, chunks: seq<Chunk>, pc: nat, desk: Desk, known: Bounds, got: set<Tagged>, id: int, bound: Msg)
    returns (next: Replay)
    requires RecordedBy(deeds, chunks) && DeskInv(deeds, chunks, pc, desk, known, got) && chunks != [] && desk.c < |chunks|
    requires id in chunks[desk.c].plans && id in chunks[0].plans && bound.clock != COLLECTIVE_CLOCK && pc <= |deeds|
    requires SoundBound(TotalOf(PlanAt(chunks[desk.c], id)), ArrivedFor(got, id), bound)
    ensures Fits(chunks, RunOf(desk, known)) && next == Call(chunks, RunOf(desk, known), id, bound, P.ClockAt(Program(deeds), pc))
    ensures next.Ran? && next.known == known && DeskInv(deeds, chunks, pc, DeskAfter(desk, id, next), known, got)
  {
    hide *;
    DeskIs(deeds, chunks, pc, desk, known, got);
    RecordIs(deeds, chunks, id);
    ReplayableIs(chunks);
    RunIs(desk, known);
    var r, clock := RunOf(desk, known), P.ClockAt(Program(deeds), pc);
    Parts(chunks, r, got);
    OneSet(chunks, r, got, id);
    PlansAre(chunks, id, desk.c);
    var emitted;
    next, emitted := CallStaysGood(chunks, r, got, id, bound, clock);
    Parts(chunks, next, got);
    OutsArePrefixes(chunks, next, got, id);
    var group := SetDelivers(deeds, chunks, r, got, id, bound, clock, emitted);
    SetDecodes(deeds, chunks, pc, desk, r, got, id, bound, emitted, group);
    AfterIs(desk, id, next, emitted);
    var after := DeskAfter(desk, id, next);
    InterimsIs(r, next, id, Step(chunks[desk.c].plans[id].epoch, desk.tables[id], bound, clock).next.interim);
    forall o | o in after.tables ensures PlaceOk(deeds, pc, after, o) {
      if o != id {
        PlaceIs(deeds, pc, desk, o);
      }
      PlaceOkFrom(deeds, pc, after, o);
    }
    RunIs(after, known);
    AfterShape(chunks, after, next);
    DeskFrom(deeds, chunks, pc, after, known, got);
  }

  lemma InterimsIs(before: Replay, after: Replay, id: int, interim: int)
    requires InterimsAre(before, after, id, interim)
    ensures before.Ran? && after.Ran? && after.tables.Keys == before.tables.Keys
    ensures forall s :: s in before.tables ==> s in after.tables && after.tables[s].interim == if s == id then interim else before.tables[s].interim
  {
    assert forall s :: s in before.tables ==> s in after.tables.Keys;
  }

  /** One call on the table of the set: nothing or one delivery, and an interim clock within the next one. */
  lemma SetDelivers(deeds: seq<Deed>, chunks: seq<Chunk>, r: Replay, got: set<Tagged>, id: int, bound: Msg, clock: int, emitted: seq<Item>)
    returns (group: seq<Item>)
    requires ValidChunks(chunks) && RunInv(chunks, r, got) && id in chunks[r.c].plans && id in chunks[0].plans && bound.clock != COLLECTIVE_CLOCK
    requires SoundBound(TotalOf(PlanAt(chunks[r.c], id)), ArrivedFor(got, id), bound)
    requires id in r.tables && id in r.outs && Step(chunks[r.c].plans[id].epoch, r.tables[id], bound, clock).Decoded?
    requires emitted == Step(chunks[r.c].plans[id].epoch, r.tables[id], bound, clock).emitted
    ensures StreamTo(PlansOf(chunks, id), r.c) <= r.outs[id] && (emitted == [] || IsDelivery(emitted))
    ensures var o := Step(chunks[r.c].plans[id].epoch, r.tables[id], bound, clock);
      var mine := r.outs[id][|StreamTo(PlansOf(chunks, id), r.c)|..];
      o.next.interim == r.tables[id].interim || InterimWithin(chunks[r.c].plans[id], mine, clock, o.next.interim, group)
  {
    hide *;
    SomeChunk(chunks);
    Parts(chunks, r, got);
    OneSet(chunks, r, got, id);
    PlansAre(chunks, id, r.c);
    var plans, arrived := PlansOf(chunks, id), ArrivedFor(got, id);
    SetInvIs(plans, r.c, r.tables[id], r.outs[id], arrived);
    InvParts(plans, r.c, r.tables[id], r.outs[id], arrived);
    group := CallDelivers(plans[r.c], r.tables[id], r.outs[id][|StreamTo(plans, r.c)|..], arrived, bound, clock);
  }

  /** Where the set stands after the call. */
  lemma SetDecodes(deeds: seq<Deed>, chunks: seq<Chunk>, pc: nat, desk: Desk, r: Replay, got: set<Tagged>, id: int, bound: Msg,
                   emitted: seq<Item>, group: seq<Item>)
    requires RecordedBy(deeds, chunks) && ValidChunks(chunks) && chunks != [] && desk.c < |chunks| && id in chunks[desk.c].plans && pc <= |deeds|
    requires r.Ran? && r.c == desk.c && r.tables == desk.tables && r.outs == desk.outs && id in desk.tables && PlaceOk(deeds, pc, desk, id) && id in desk.outs
    requires var clock := P.ClockAt(Program(deeds), pc);
      var o := Step(chunks[desk.c].plans[id].epoch, desk.tables[id], bound, clock);
      var base := StreamTo(PlansOf(chunks, id), desk.c);
      && o.Decoded? && o.emitted == emitted && base <= desk.outs[id] && (emitted == [] || IsDelivery(emitted))
      && (o.next.interim == desk.tables[id].interim
          || InterimWithin(chunks[desk.c].plans[id], desk.outs[id][|base|..], clock, o.next.interim, group))
    requires desk.outs[id] + emitted <= Stream(PlansOf(chunks, id))
    ensures id in desk.ready
    ensures Place(deeds, id, pc, desk.outs[id] + emitted, if emitted == [] then desk.ready[id] else desk.ready[id] + [emitted],
                  Step(chunks[desk.c].plans[id].epoch, desk.tables[id], bound, P.ClockAt(Program(deeds), pc)).next.interim)
  {
    hide *;
    PlaceIs(deeds, pc, desk, id);
    RecordIs(deeds, chunks, id);
    PlansAre(chunks, id, desk.c);
    var plans := PlansOf(chunks, id);
    var base := StreamTo(plans, desk.c);
    StreamGrows(plans, desk.c);
    StreamExtends(plans, desk.c + 1, |plans|);
    StreamIs(plans);
    var mine := desk.outs[id][|base|..];
    assert desk.outs[id] == base + mine;
    var interim' := Step(chunks[desk.c].plans[id].epoch, desk.tables[id], bound, P.ClockAt(Program(deeds), pc)).next.interim;
    PlaceDecodes(deeds, id, Stream(plans), pc, desk.outs[id], desk.ready[id], desk.tables[id].interim, plans[desk.c], base, mine, emitted, interim', group);
  }

  lemma AfterIs(desk: Desk, id: int, next: Replay, emitted: seq<Item>)
    requires next.Ran? && id in desk.ready && id in desk.outs && next.outs == desk.outs[id := desk.outs[id] + emitted]
    ensures var after := DeskAfter(desk, id, next);
      && after.c == next.c && after.tables == next.tables && after.outs == next.outs && after.again == next.again && after.done == desk.done
      && after.ready == desk.ready[id := if emitted == [] then desk.ready[id] else desk.ready[id] + [emitted]]
      && after.ready.Keys == desk.ready.Keys && after.outs.Keys == desk.outs.Keys
  {
    assert (desk.outs[id] + emitted)[|desk.outs[id]|..] == emitted;
    assert desk.ready[id := desk.ready[id]] == desk.ready;
  }

  lemma AfterShape(chunks: seq<Chunk>, after: Desk, next: Replay)
    requires next.Ran? && Fits(chunks, next) && chunks != [] && after.c == next.c && after.tables == next.tables && after.outs == next.outs
    requires after.ready.Keys == after.tables.Keys
    ensures DeskShaped(chunks, after)
  {
    hide RecordedSets;
  }

  lemma DecodeIs(sys: System, j: Joint, q: nat, id: int, sources: seq<int>, bound: Msg)
    requires Shaped(sys, j) && Enabled(sys, j, Decode(q, id, sources, bound))
    ensures q < |sys.apps| && MayDecode(sys, j, q, id) && BoundIs(sys, j, q, id, sources, bound) && sys.chunks[q] != []
    ensures Apply(sys, j, Decode(q, id, sources, bound)) == AfterDecode(sys, j, q, id, bound)
  {
    hide BoundIs, AfterDecode;
  }

  lemma DecodedIs(sys: System, j: Joint, q: nat, id: int, bound: Msg, next: Replay)
    requires Shaped(sys, j) && q < |sys.apps| == |sys.chunks| == |j.desks| && sys.chunks[q] != [] && q < |j.world.ranks|
    requires Fits(sys.chunks[q], RunOf(j.desks[q], j.world.ranks[q].bounds)) && next.Ran? && next.known == j.world.ranks[q].bounds
    requires next == Call(sys.chunks[q], RunOf(j.desks[q], j.world.ranks[q].bounds), id, bound, j.world.ranks[q].localClock)
    ensures AfterDecode(sys, j, q, id, bound) == j.(world := j.world, desks := j.desks[q := DeskAfter(j.desks[q], id, next)])
  {
    hide Call, ReadyAfter;
    assert j.world.ranks[q := j.world.ranks[q].(bounds := next.known)] == j.world.ranks;
  }

  lemma NothingMoves(progs: seq<seq<P.Op>>, w: P.World, q: nat)
    requires P.Inv(progs, w) && q < |progs|
    ensures Beside(w, w, q) && |w.ranks| == |w.pcs| == |progs|
  {
  }

  /** A call of the decoder keeps the invariant: it decodes what was recorded, and every chunk opens. */
  lemma DecodeKeeps(sys: System, deeds: seq<seq<Deed>>, j: Joint, q: nat, id: int, sources: seq<int>, bound: Msg)
    requires RecordedRun(sys, deeds) && JointInv(sys, deeds, j) && Enabled(sys, j, Decode(q, id, sources, bound))
    ensures JointInv(sys, deeds, Apply(sys, j, Decode(q, id, sources, bound)))
  {
    hide *;
    JointIs(sys, deeds, j);
    DecodeIs(sys, j, q, id, sources, bound);
    CalledIsInChunk(sys, deeds, j, q, id);
    BoundIsSound(sys, deeds, j, q, id, sources, bound);
    RecordOf(sys, deeds, q);
    RankIs(sys, deeds, j, q);
    DeskIs(deeds[q], sys.chunks[q], j.world.pcs[q], j.desks[q], j.world.ranks[q].bounds, P.IngestedBy(j.world, q));
    P.RankInv(Programs(deeds), j.world, q);
    var next := DeskDecodes(deeds[q], sys.chunks[q], j.world.pcs[q], j.desks[q], j.world.ranks[q].bounds, P.IngestedBy(j.world, q), id, bound);
    DecodedIs(sys, j, q, id, bound, next);
    NothingMoves(Programs(deeds), j.world, q);
    StepFrom(sys, deeds, j, Apply(sys, j, Decode(q, id, sources, bound)), q);
  }

  // ----- the bounds are updated -----

  lemma UpdateIs(sys: System, j: Joint, q: nat, probed: set<int>, recved: set<int>)
    requires Shaped(sys, j) && Enabled(sys, j, UpdateAll(q, probed, recved))
    ensures q < |sys.apps| == |sys.chunks| == |j.desks| == |j.world.ranks| && Sized(j.world.ranks[q], |j.world.ranks[q].recvCounts|)
    ensures var rank, sources, next := j.world.ranks[q], SourcesNow(sys.chunks[q], j.desks[q]), Apply(sys, j, UpdateAll(q, probed, recved));
      if UpdateThrows(rank, sources, probed, recved) then next == j.(broken := true)
      else next == j.(world := P.WithBounds(j.world, q, UpdateBounds(rank, sources, probed, recved).bounds))
  {
    hide UpdateThrows, UpdateBounds, SourcesNow;
  }

  /** Every set knows every source of the chunk. */
  lemma NothingIsUnknown(chunks: seq<Chunk>, desk: Desk, rank: Rank, probed: set<int>, recved: set<int>)
    requires Sized(rank, |rank.recvCounts|) && (chunks != [] ==> KnownIs(chunks, rank.bounds))
    requires desk.c < |chunks| ==> Sources(chunks[desk.c]) <= Sources(chunks[0])
    ensures !UpdateThrows(rank, SourcesNow(chunks, desk), probed, recved)
  {
    hide Sources, LooksUp;
    forall id, s: nat | id in rank.bounds && s in SourcesNow(chunks, desk) ensures s in rank.bounds[id] {
      assert s in Sources(chunks[0]) && s in rank.bounds[id].Keys;
    }
  }

  lemma UpdatedKnows(rank: Rank, sources: set<int>, probed: set<int>, recved: set<int>)
    requires Sized(rank, |rank.recvCounts|)
    ensures var bounds := UpdateBounds(rank, sources, probed, recved).bounds;
      bounds.Keys == rank.bounds.Keys && forall id :: id in bounds ==> id in rank.bounds && bounds[id].Keys == rank.bounds[id].Keys
  {
    hide UpdatedBound;
    var bounds := UpdateBounds(rank, sources, probed, recved).bounds;
    forall id | id in bounds ensures bounds[id].Keys == rank.bounds[id].Keys {
      assert bounds[id] == UpdateSet(rank, rank.bounds[id], sources, probed, recved);
    }
  }

  /** Only which sets and sources are known matters to the decoder. */
  lemma OtherBounds(chunks: seq<Chunk>, desk: Desk, known: Bounds, known': Bounds, got: set<Tagged>)
    requires chunks != [] && RunInv(chunks, RunOf(desk, known), got) && known'.Keys == known.Keys
    requires forall id :: id in known' ==> id in known && known'[id].Keys == known[id].Keys
    ensures RunInv(chunks, RunOf(desk, known'), got)
  {
    hide SetInv, AllDone, Sources, RecordedSets, DecodedAll, PlansOf, ArrivedFor;
    var r, r' := RunOf(desk, known), RunOf(desk, known');
    forall id | id in chunks[0].plans ensures SetOk(chunks, r', got, id) {
      assert SetOk(chunks, r, got, id);
    }
  }

  lemma WithBoundsIs(w: P.World, q: nat, bounds: Bounds, n: nat)
    requires P.SizedWorld(w, n) && q < n
    ensures var next := P.WithBounds(w, q, bounds);
      Quiet(w, next, q) && next.pcs[q] == w.pcs[q] && next.ranks[q].bounds == bounds
  {
  }

  lemma DeskUpdates(deeds: seq<Deed>, chunks: seq<Chunk>, pc: nat, desk: Desk, rank: Rank, sources: set<int>, probed: set<int>, recved: set<int>, got: set<Tagged>)
    requires Sized(rank, |rank.recvCounts|) && DeskInv(deeds, chunks, pc, desk, rank.bounds, got)
    ensures DeskInv(deeds, chunks, pc, desk, UpdateBounds(rank, sources, probed, recved).bounds, got)
  {
    hide *;
    DeskIs(deeds, chunks, pc, desk, rank.bounds, got);
    UpdatedKnows(rank, sources, probed, recved);
    if chunks != [] {
      OtherBounds(chunks, desk, rank.bounds, UpdateBounds(rank, sources, probed, recved).bounds, got);
    }
    DeskFrom(deeds, chunks, pc, desk, UpdateBounds(rank, sources, probed, recved).bounds, got);
  }

  /** Updating the bounds of all sets finds every source, and keeps the bounds sound. */
  lemma UpdateKeeps(sys: System, deeds: seq<seq<Deed>>, j: Joint, q: nat, probed: set<int>, recved: set<int>)
    requires RecordedRun(sys, deeds) && JointInv(sys, deeds, j) && Enabled(sys, j, UpdateAll(q, probed, recved))
    ensures JointInv(sys, deeds, Apply(sys, j, UpdateAll(q, probed, recved)))
  {
    hide *;
    JointIs(sys, deeds, j);
    UpdateIs(sys, j, q, probed, recved);
    RankIs(sys, deeds, j, q);
    RecordOf(sys, deeds, q);
    var chunks, desk, rank, next := sys.chunks[q], j.desks[q], j.world.ranks[q], Apply(sys, j, UpdateAll(q, probed, recved));
    var sources := SourcesNow(chunks, desk);
    SourcesAreKnown(deeds[q], chunks, j.world.pcs[q], desk, rank.bounds, P.IngestedBy(j.world, q));
    NothingIsUnknown(chunks, desk, rank, probed, recved);
    P.UpdateKeeps(Programs(deeds), j.world, q, sources, probed, recved);
    WithBoundsIs(j.world, q, UpdateBounds(rank, sources, probed, recved).bounds, |sys.apps|);
    QuietIsBeside(Programs(deeds), j.world, next.world, q);
    QuietSizes(j.world, next.world, q);
    DeskUpdates(deeds[q], chunks, j.world.pcs[q], desk, rank, sources, probed, recved, P.IngestedBy(j.world, q));
    StepFrom(sys, deeds, j, next, q);
  }

  lemma SourcesAreKnown(deeds: seq<Deed>, chunks: seq<Chunk>, pc: nat, desk: Desk, known: Bounds, got: set<Tagged>)
    requires RecordedBy(deeds, chunks) && DeskInv(deeds, chunks, pc, desk, known, got)
    ensures chunks != [] ==> KnownIs(chunks, known)
    ensures desk.c < |chunks| ==> Sources(chunks[desk.c]) <= Sources(chunks[0])
  {
    hide *;
    DeskIs(deeds, chunks, pc, desk, known, got);
    RecordIs(deeds, chunks, 0);
    if chunks != [] {
      ReplayableIs(chunks);
      RunIs(desk, known);
      Parts(chunks, RunOf(desk, known), got);
      GoodAt(chunks, |chunks|, desk.c);
      InChunk(chunks, desk.c, 0);
    }
  }

  // ----- every joint run -----

  /** Every step of the whole system keeps the invariant. */
  lemma JointStepKeeps(sys: System, deeds: seq<seq<Deed>>, j: Joint, a: Action)
    requires RecordedRun(sys, deeds) && JointInv(sys, deeds, j) && Enabled(sys, j, a)
    ensures JointInv(sys, deeds, Apply(sys, j, a))
  {
    hide *;
    match a
    case BeginSend(p) => BeginSendKeeps(sys, deeds, j, p);
    case Leave(p) => LeaveKeeps(sys, deeds, j, p);
    case EndSend(p) => EndSendKeeps(sys, deeds, j, p);
    case PublishLocal(p, clock) => PublishLocalKeeps(sys, deeds, j, p, clock);
    case PublishInterim(p) => PublishInterimKeeps(sys, deeds, j, p);
    case Decode(q, id, sources, bound) => DecodeKeeps(sys, deeds, j, q, id, sources, bound);
    case Deliver(q) => DeliverKeeps(sys, deeds, j, q);
    case IngestFrom(q, r) => IngestKeeps(sys, deeds, j, q, r);
    case FetchFrom(q, r) => FetchKeeps(sys, deeds, j, q, r);
    case UpdateAll(q, probed, recved) => UpdateKeeps(sys, deeds, j, q, probed, recved);
  }

  /** A run of the system: every action is enabled where it is taken. */
  ghost predicate Reaches(sys: System, actions: seq<Action>, j: Joint)
    requires |sys.chunks| == |sys.apps|
  {
    if actions == [] then j == StartJoint(sys)
    else
      var last := actions[|actions| - 1];
      exists before :: Reaches(sys, actions[..|actions| - 1], before) && Shaped(sys, before) && Enabled(sys, before, last) && j == Apply(sys, before, last)
  }

  lemma StartDeskInv(deeds: seq<Deed>, chunks: seq<Chunk>)
    requires RecordedBy(deeds, chunks)
    ensures DeskInv(deeds, chunks, 0, StartDesk(chunks), StartBounds(chunks), {}) && P.ZeroBounds(StartBounds(chunks))
    ensures chunks != [] ==> StartReplay(chunks).Ran?
  {
    hide *;
    RecordIs(deeds, chunks, 0);
    var desk := StartDesk(chunks);
    if chunks != [] {
      ReplayableIs(chunks);
      StartKeeps(chunks);
      StartIsGood(chunks);
      RunStarts(chunks);
      ZeroAtFirst(chunks[0].ids, Sources(chunks[0]));
    }
    StartDeskIs(chunks);
    assert deeds[..0] == [];
    forall id | id in desk.tables ensures PlaceOk(deeds, 0, desk, id) {
      PlaceStarts(deeds, id);
      PlaceOkFrom(deeds, 0, desk, id);
    }
    DeskFrom(deeds, chunks, 0, desk, StartBounds(chunks), {});
  }

  lemma ZeroAtFirst(ids: seq<int>, sources: set<int>)
    ensures P.ZeroBounds(FirstBounds(ids, sources))
  {
  }

  lemma StartDeskIs(chunks: seq<Chunk>)
    requires chunks != [] ==> StartReplay(chunks).Ran? && StartReplay(chunks).c == 0 && StartReplay(chunks).again == None
    ensures var desk := StartDesk(chunks);
      && desk.done == [] && DeskShaped(chunks, desk)
      && (forall id :: id in desk.tables ==> id in desk.outs && id in desk.ready && desk.outs[id] == [] && desk.ready[id] == [] && desk.tables[id].interim == 0)
    ensures chunks == [] ==> StartBounds(chunks) == map[] && P.ZeroBounds(StartBounds(chunks))
    ensures chunks != [] ==> StartBounds(chunks) == StartReplay(chunks).known && RunOf(StartDesk(chunks), StartBounds(chunks)) == StartReplay(chunks)
  {
    hide Open, Sources, PlanAt, RecordedSets;
    assert |chunks| > 0 ==> Fits(chunks, StartReplay(chunks));
  }

  lemma NothingIngested(n: nat, bounds: seq<Bounds>, q: nat)
    requires |bounds| == n && q < n
    ensures |P.StartWorld(n, bounds).ranks| == |P.StartWorld(n, bounds).pcs| == n
    ensures P.IngestedBy(P.StartWorld(n, bounds), q) == {}
    ensures P.StartWorld(n, bounds).pcs[q] == 0 && P.StartWorld(n, bounds).ranks[q].bounds == bounds[q]
  {
    var w := P.StartWorld(n, bounds);
    assert w.ranks[q] == InitialRank(n).(bounds := bounds[q]);
    assert forall r :: 0 <= r < n ==> w.ranks[q].recvCounts[r] == 0;
  }

  lemma StartIs(sys: System)
    requires |sys.chunks| == |sys.apps|
    ensures var n, j := |sys.apps|, StartJoint(sys);
      exists bounds: seq<Bounds> :: |bounds| == n && (forall q :: 0 <= q < n ==> bounds[q] == StartBounds(sys.chunks[q])) && j.world == P.StartWorld(n, bounds)
    ensures |StartJoint(sys).desks| == |sys.apps| && forall q :: 0 <= q < |sys.apps| ==> StartJoint(sys).desks[q] == StartDesk(sys.chunks[q])
    ensures StartJoint(sys).broken ==> exists q :: 0 <= q < |sys.apps| && sys.chunks[q] != [] && StartReplay(sys.chunks[q]).Broke?
  {
    hide P.StartWorld, StartDesk, StartBounds, StartReplay;
    var n := |sys.apps|;
    var bounds := seq(n, q requires 0 <= q < n => StartBounds(sys.chunks[q]));
    assert StartJoint(sys).world == P.StartWorld(n, bounds);
  }

  /** The system starts in order: every rank opens its first chunk. */
  lemma StartsInOrder(sys: System, deeds: seq<seq<Deed>>)
    requires RecordedRun(sys, deeds)
    ensures |sys.chunks| == |sys.apps| && JointInv(sys, deeds, StartJoint(sys))
  {
    hide *;
    RunSizes(sys, deeds);
    var n, j := |sys.apps|, StartJoint(sys);
    StartIs(sys);
    var bounds: seq<Bounds> :| |bounds| == n && (forall q :: 0 <= q < n ==> bounds[q] == StartBounds(sys.chunks[q])) && j.world == P.StartWorld(n, bounds);
    forall q | 0 <= q < n
      ensures P.ZeroBounds(bounds[q]) && (sys.chunks[q] != [] ==> StartReplay(sys.chunks[q]).Ran?)
      ensures |j.world.ranks| == |j.world.pcs| == n
      ensures DeskInv(deeds[q], sys.chunks[q], j.world.pcs[q], j.desks[q], j.world.ranks[q].bounds, P.IngestedBy(j.world, q))
    {
      RecordOf(sys, deeds, q);
      StartDeskInv(deeds[q], sys.chunks[q]);
      NothingIngested(n, bounds, q);
    }
    P.StartInv(Programs(deeds), bounds);
    P.WorldIsSized(Programs(deeds), j.world);
    JointFrom(sys, deeds, j);
  }

  lemma RunSizes(sys: System, deeds: seq<seq<Deed>>)
    requires RecordedRun(sys, deeds)
    ensures |sys.chunks| == |sys.apps| == |deeds| == |Programs(deeds)|
  {
  }

  lemma JointFrom(sys: System, deeds: seq<seq<Deed>>, j: Joint)
    requires |sys.chunks| == |sys.apps| == |deeds| == |j.desks| && !j.broken && P.Inv(Programs(deeds), j.world) && P.SizedWorld(j.world, |sys.apps|)
    requires |j.world.ranks| == |j.world.pcs| == |sys.apps|
    requires forall q :: 0 <= q < |sys.apps| ==>
      DeskInv(deeds[q], sys.chunks[q], j.world.pcs[q], j.desks[q], j.world.ranks[q].bounds, P.IngestedBy(j.world, q))
    ensures JointInv(sys, deeds, j)
  {
    hide P.Inv, DeskInv, P.IngestedBy, DeskShaped, P.SizedWorld;
    forall q | 0 <= q < |sys.apps| ensures DeskShaped(sys.chunks[q], j.desks[q]) && RankInv(sys, deeds, j, q) {
      DeskIs(deeds[q], sys.chunks[q], j.world.pcs[q], j.desks[q], j.world.ranks[q].bounds, P.IngestedBy(j.world, q));
    }
  }

  lemma {:induction false} JointReaches(sys: System, deeds: seq<seq<Deed>>, actions: seq<Action>, j: Joint)
    requires RecordedRun(sys, deeds) && |sys.chunks| == |sys.apps| && Reaches(sys, actions, j)
    ensures JointInv(sys, deeds, j)
    decreases |actions|
  {
    hide RecordedRun, JointInv, Shaped, Enabled, Apply, StartJoint;
    if actions == [] {
      StartsInOrder(sys, deeds);
    } else {
      var last := actions[|actions| - 1];
      var before :| Reaches(sys, actions[..|actions| - 1], before) && Shaped(sys, before) && Enabled(sys, before, last) && j == Apply(sys, before, last);
      JointReaches(sys, deeds, actions[..|actions| - 1], before);
      JointStepKeeps(sys, deeds, before, last);
    }
  }

  /**
    Replay of the whole system, for every interleaving of sends, publications, arrivals, snapshots,
    bound updates, decoder calls and receive calls: no chunk is refused, no set or source is not found,
    no decoder fails, every application does and gets exactly what it did and got when recorded, and
    every rank's clock is the recorded one.
   */
  lemma JointReplayIsFaithful(sys: System, deeds: seq<seq<Deed>>, actions: seq<Action>, j: Joint, q: nat)
    requires RecordedRun(sys, deeds) && |sys.chunks| == |sys.apps| && Reaches(sys, actions, j) && q < |sys.apps|
    ensures !j.broken && q < |deeds| && q < |j.desks| && q < |j.world.ranks|
    ensures j.desks[q].done <= deeds[q]
    ensures forall id :: id in j.desks[q].outs ==> AllGot(j.desks[q].done, id) <= j.desks[q].outs[id] <= Stream(PlansOf(sys.chunks[q], id))
    ensures j.world.ranks[q].localClock == P.ClockAt(Program(deeds[q]), |j.desks[q].done|)
  {
    hide *;
    JointReaches(sys, deeds, actions, j);
    JointIs(sys, deeds, j);
    RankIs(sys, deeds, j, q);
    RecordOf(sys, deeds, q);
    var chunks, pc, desk := sys.chunks[q], j.world.pcs[q], j.desks[q];
    DeskIs(deeds[q], chunks, pc, desk, j.world.ranks[q].bounds, P.IngestedBy(j.world, q));
    P.RankInv(Programs(deeds), j.world, q);
    forall id | id in desk.outs ensures AllGot(desk.done, id) <= desk.outs[id] <= Stream(PlansOf(chunks, id)) {
      PlaceIs(deeds[q], pc, desk, id);
      var at := PlaceParts(deeds[q], id, pc, desk.outs[id], desk.ready[id], desk.tables[id].interim);
      RecordIs(deeds[q], chunks, id);
      ReceivesIs(deeds[q], id, Stream(PlansOf(chunks, id)));
      GotGrows(deeds[q], id, pc, at);
      GotGrows(deeds[q], id, at, |deeds[q]|);
      assert deeds[q][..|deeds[q]|] == deeds[q];
    }
  }

  /**
    The clocks that ranks tell each other, along every run of the whole system: messages leave with
    the recorded clocks, what p still sends to q has at least the clock p publishes, and what q has
    not ingested has at least q's bound on its source in every matching set.
   */
  lemma JointClocksAreSound(sys: System, deeds: seq<seq<Deed>>, actions: seq<Action>, j: Joint, p: nat, q: nat, k: nat)
    requires RecordedRun(sys, deeds) && |sys.chunks| == |sys.apps| && Reaches(sys, actions, j) && p < |sys.apps| && q < |sys.apps|
    ensures Shaped(sys, j) && |deeds| == |sys.apps|
    ensures j.world.left[p][q] <= P.Sent(Program(deeds[p]), q)
    ensures |j.world.left[p][q]| <= k < |P.Sent(Program(deeds[p]), q)| ==>
      j.world.ranks[p].scatterClock <= P.Sent(Program(deeds[p]), q)[k].clock
    ensures j.world.ranks[q].recvCounts[p] <= k < |P.Sent(Program(deeds[p]), q)| ==>
      forall id :: id in j.world.ranks[q].bounds && p in j.world.ranks[q].bounds[id] ==>
        j.world.ranks[q].bounds[id][p] <= P.Sent(Program(deeds[p]), q)[k].clock
  {
    hide *;
    JointReaches(sys, deeds, actions, j);
    JointIs(sys, deeds, j);
    ProgramOf(deeds, p);
    P.PublishedIsSound(Programs(deeds), j.world, p, q, k);
    CountsAre(j.world.ranks[q], |sys.apps|);
    if j.world.ranks[q].recvCounts[p] <= k < |P.Sent(Program(deeds[p]), q)| {
      forall id | id in j.world.ranks[q].bounds && p in j.world.ranks[q].bounds[id]
        ensures j.world.ranks[q].bounds[id][p] <= P.Sent(Program(deeds[p]), q)[k].clock
      {
        P.StoredBoundIsSound(Programs(deeds), j.world, q, p, k, id);
      }
    }
  }

  lemma CountsAre(rank: Rank, n: nat)
    requires Sized(rank, n)
    ensures |rank.recvCounts| == n
  {
  }

  /**
    The decoder's assumption, along every run: the clock computed for a call is a sound bound for the
    table of the set that is called.
   */
  lemma JointBoundsAreSound(sys: System, deeds: seq<seq<Deed>>, actions: seq<Action>, j: Joint, q: nat, id: int, sources: seq<int>, bound: Msg)
    requires RecordedRun(sys, deeds) && |sys.chunks| == |sys.apps| && Reaches(sys, actions, j)
    requires Shaped(sys, j) && Enabled(sys, j, Decode(q, id, sources, bound))
    ensures q < |sys.apps| && j.desks[q].c < |sys.chunks[q]| && id in sys.chunks[q][j.desks[q].c].plans
    ensures SoundBound(TotalOf(PlanAt(sys.chunks[q][j.desks[q].c], id)), ArrivedFor(P.IngestedBy(j.world, q), id), bound)
  {
    hide *;
    JointReaches(sys, deeds, actions, j);
    JointIs(sys, deeds, j);
    DecodeIs(sys, j, q, id, sources, bound);
    CalledIsInChunk(sys, deeds, j, q, id);
    BoundIsSound(sys, deeds, j, q, id, sources, bound);
  }

  /**
    A rank blocked in a receive: the interim clock that it publishes for the set is below all that it
    sends from there on.
   */
  lemma JointInterimIsSound(sys: System, deeds: seq<seq<Deed>>, actions: seq<Action>, j: Joint, p: nat, id: int)
    requires RecordedRun(sys, deeds) && |sys.chunks| == |sys.apps| && Reaches(sys, actions, j)
    requires Shaped(sys, j) && Enabled(sys, j, PublishInterim(p)) && Asks(sys, j, p) == Receive(id)
    ensures |deeds| == |sys.apps| && id in j.desks[p].tables
    ensures P.SendsAtLeast(Program(deeds[p]), |j.desks[p].done|, j.desks[p].tables[id].interim)
  {
    hide *;
    JointReaches(sys, deeds, actions, j);
    JointIs(sys, deeds, j);
    var asked := PublishInterimIs(sys, j, p);
    AskedReceive(sys, deeds, j, p, id);
    RankIs(sys, deeds, j, p);
    DeskIs(deeds[p], sys.chunks[p], j.world.pcs[p], j.desks[p], j.world.ranks[p].bounds, P.IngestedBy(j.world, p));
    PlaceIs(deeds[p], j.world.pcs[p], j.desks[p], id);
    PlaceBlocked(deeds[p], id, j.world.pcs[p], j.desks[p].outs[id], j.desks[p].tables[id].interim);
  }

  // ----- the smallest exchange over two chunks -----

  function Sender(id: int): App {
    (done: seq<Deed>) => if |done| < 2 then Send(1, id) else Stop
  }

  function Receiver(id: int): App {
    (done: seq<Deed>) => if |done| < 2 then Receive(id) else Stop
  }

  function GotOne(id: int, m: Msg): Deed {
    Got(id, [Matched(m.source, m.clock, false, 0)])
  }

  lemma DidTwo(app: App, first: Deed, second: Deed)
    requires app([]) == RequestFor(first) && app([first]) == RequestFor(second) && app([first, second]) == Stop
    ensures Did(app, [first, second])
  {
    var deeds := [first, second];
    assert deeds[..0] == [] && deeds[..1] == [first];
  }

  lemma SenderRecorded(id: int)
    ensures Did(Sender(id), [Sent(1, id), Sent(1, id)]) && RecordedBy([Sent(1, id), Sent(1, id)], [])
  {
    DidTwo(Sender(id), Sent(1, id), Sent(1, id));
    var deeds := [Sent(1, id), Sent(1, id)];
    assert deeds[..1] == [Sent(1, id)] && deeds[..1][..0] == [];
    forall o ensures Receives(deeds, o, Stream(PlansOf([], o))) {
      assert AllGot(deeds[..1], o) == [];
    }
  }

  lemma GotTwo(id: int, a: Msg, b: Msg, o: int)
    ensures AllGot([GotOne(id, a), GotOne(id, b)], o) ==
      if o == id then [Matched(a.source, a.clock, false, 0), Matched(b.source, b.clock, false, 0)] else []
  {
    var deeds := [GotOne(id, a), GotOne(id, b)];
    assert deeds[..1] == [GotOne(id, a)] && deeds[..1][..0] == [];
    assert AllGot(deeds[..1], o) == if o == id then [Matched(a.source, a.clock, false, 0)] else [];
  }

  /** Both chunks together. */
  lemma TwoChunksHold(chunks: seq<Chunk>, id: int, a: Msg, b: Msg, o: int)
    requires 0 < a.clock < b.clock && chunks == [Exact.OneSetChunk(id, OnePlan(a)), Exact.OneSetChunk(id, OnePlan(b))]
    ensures Stream(PlansOf(chunks, o)) ==
      if o == id then [Matched(a.source, a.clock, false, 0), Matched(b.source, b.clock, false, 0)] else []
    ensures AllKeys(PlansOf(chunks, o)) == if o == id then [a, b] else []
  {
    OnePlanIsValid(a);
    OnePlanIsValid(b);
    var plans := PlansOf(chunks, o);
    if o == id {
      assert plans == [OnePlan(a), OnePlan(b)];
      hide ValidPlan, KeysOf, StreamOf, OnePlan;
      TwoPlansAreValid(plans) by { assert NoRepeats([a] + [b]); }
      assert StreamTo(plans, 0) == [] && StreamTo(plans, 1) == [] + StreamOf(plans[0]);
      assert StreamTo(plans, 2) == StreamTo(plans, 1) + StreamOf(plans[1]);
    } else {
      assert plans == [NoPlan(), NoPlan()];
      hide NoPlan;
      NoKeys(plans, 0);
      NoStream(plans, 2);
    }
  }

  lemma ReceiverRecorded(id: int, a: Msg, b: Msg, chunks: seq<Chunk>)
    requires 0 < a.clock < b.clock && chunks == [Exact.OneSetChunk(id, OnePlan(a)), Exact.OneSetChunk(id, OnePlan(b))]
    requires ValidChunks(chunks) && Replayable(chunks)
    ensures Did(Receiver(id), [GotOne(id, a), GotOne(id, b)]) && RecordedBy([GotOne(id, a), GotOne(id, b)], chunks)
  {
    DidTwo(Receiver(id), GotOne(id, a), GotOne(id, b));
    hide *;
    var deeds := [GotOne(id, a), GotOne(id, b)];
    forall o ensures Receives(deeds, o, Stream(PlansOf(chunks, o))) {
      GotTwo(id, a, b, o);
      TwoChunksHold(chunks, id, a, b, o);
      ReceivesTwo(id, a, b, o, Stream(PlansOf(chunks, o)));
    }
    RecordedFrom(deeds, chunks);
  }

  lemma ReceivesTwo(id: int, a: Msg, b: Msg, o: int, stream: seq<Item>)
    requires AllGot([GotOne(id, a), GotOne(id, b)], o) == stream
    ensures Receives([GotOne(id, a), GotOne(id, b)], o, stream)
  {
    hide AllGot;
  }

  lemma RecordedFrom(deeds: seq<Deed>, chunks: seq<Chunk>)
    requires ValidChunks(chunks) && chunks != [] && Replayable(chunks)
    requires forall id :: Receives(deeds, id, Stream(PlansOf(chunks, id)))
    ensures RecordedBy(deeds, chunks)
  {
    hide ValidChunks, Replayable, Receives, Stream, PlansOf;
  }

  lemma SentTwice(id: int, prog: seq<P.Op>)
    requires prog == [P.Send(1, id), P.Send(1, id)]
    ensures P.Sent(prog, 0) == [] && P.Sent(prog, 1) == [P.Packet(INITIAL_CLOCK, id), P.Packet(INITIAL_CLOCK + 1, id)]
  {
    assert P.ClockAt(prog, 0) == INITIAL_CLOCK && P.ClockAt(prog, 1) == INITIAL_CLOCK + 1;
    assert P.SentTo(prog, 0, 0) == [] && P.SentTo(prog, 1, 0) == [];
    assert P.SentTo(prog, 0, 1) == [] && P.SentTo(prog, 1, 1) == [P.Packet(INITIAL_CLOCK, id)];
  }

  lemma SentNothing(prog: seq<P.Op>, q: nat)
    requires |prog| == 2 && prog[0].Receive? && prog[1].Receive?
    ensures P.Sent(prog, q) == []
  {
    assert P.SentTo(prog, q, 1) == [];
  }

  lemma NothingRecorded(o: int)
    ensures AllKeys(PlansOf([], o)) == []
  {
  }

  lemma OnlyMessages(deeds: seq<seq<Deed>>, id: int, a: Msg, b: Msg, chunks: seq<Chunk>)
    requires deeds == [[Sent(1, id), Sent(1, id)], [GotOne(id, a), GotOne(id, b)]]
    requires a == Msg(0, INITIAL_CLOCK) && b == Msg(0, INITIAL_CLOCK + 1) && chunks == [Exact.OneSetChunk(id, OnePlan(a)), Exact.OneSetChunk(id, OnePlan(b))]
    ensures AllSent(Programs(deeds), 0, []) && AllSent(Programs(deeds), 1, chunks)
  {
    hide *;
    var progs := Programs(deeds);
    WhatIsSent(deeds, id, a, b);
    forall o ensures ExactlySent(progs, 0, o, AllKeys(PlansOf([], o))) && ExactlySent(progs, 1, o, AllKeys(PlansOf(chunks, o))) {
      ClocksArePositive(a, b);
      TwoChunksHold(chunks, id, a, b, o);
      NothingRecorded(o);
      TwoSent(progs, id, a, b, o);
    }
    AllSentFrom(progs, 0, []);
    AllSentFrom(progs, 1, chunks);
  }

  lemma ClocksArePositive(a: Msg, b: Msg)
    requires a == Msg(0, INITIAL_CLOCK) && b == Msg(0, INITIAL_CLOCK + 1)
    ensures 0 < a.clock < b.clock
  {
  }

  lemma WhatIsSent(deeds: seq<seq<Deed>>, id: int, a: Msg, b: Msg)
    requires deeds == [[Sent(1, id), Sent(1, id)], [GotOne(id, a), GotOne(id, b)]]
    requires a == Msg(0, INITIAL_CLOCK) && b == Msg(0, INITIAL_CLOCK + 1)
    ensures var progs := Programs(deeds);
      && |progs| == 2 && P.Sent(progs[0], 0) == [] && P.Sent(progs[0], 1) == [P.Packet(a.clock, id), P.Packet(b.clock, id)]
      && P.Sent(progs[1], 0) == [] && P.Sent(progs[1], 1) == []
  {
    var progs := Programs(deeds);
    hide P.Sent, MsgsOf;
    assert progs[0] == [P.Send(1, id), P.Send(1, id)] && |progs[1]| == 2 && progs[1][0].Receive? && progs[1][1].Receive?;
    SentTwice(id, progs[0]);
    SentNothing(progs[1], 0);
    SentNothing(progs[1], 1);
  }

  lemma TwoSent(progs: seq<seq<P.Op>>, id: int, a: Msg, b: Msg, o: int)
    requires |progs| == 2 && P.Sent(progs[0], 0) == [] && P.Sent(progs[0], 1) == [P.Packet(a.clock, id), P.Packet(b.clock, id)]
    requires P.Sent(progs[1], 0) == [] && P.Sent(progs[1], 1) == [] && a.source == 0 && b.source == 0
    ensures ExactlySent(progs, 0, o, []) && ExactlySent(progs, 1, o, if o == id then [a, b] else [])
  {
    hide P.Sent;
  }

  lemma AllSentFrom(progs: seq<seq<P.Op>>, q: nat, chunks: seq<Chunk>)
    requires forall id :: ExactlySent(progs, q, id, AllKeys(PlansOf(chunks, id)))
    ensures AllSent(progs, q, chunks)
  {
    hide ExactlySent, AllKeys, PlansOf;
  }

  lemma TwoRanks(sys: System, deeds: seq<seq<Deed>>)
    requires |sys.apps| == |sys.chunks| == |deeds| == 2
    requires forall p :: 0 <= p < 2 ==> Did(sys.apps[p], deeds[p]) && RecordedBy(deeds[p], sys.chunks[p])
    requires forall p :: 0 <= p < 2 ==> AllSent(Programs(deeds), p, sys.chunks[p])
    ensures RecordedRun(sys, deeds)
  {
    hide Did, RecordedBy, AllSent, Programs;
  }

  /** What is assumed of a recorded run can be met: rank 0 sends twice to rank 1, which records a chunk for each message. */
  lemma TwoChunksAreARecordedRun(id: int) returns (sys: System, deeds: seq<seq<Deed>>)
    ensures RecordedRun(sys, deeds) && |sys.chunks| == 2 && |sys.chunks[1]| == 2 && deeds[0] == [Sent(1, id), Sent(1, id)]
  {
    var a, b := Msg(0, INITIAL_CLOCK), Msg(0, INITIAL_CLOCK + 1);
    assert 0 < a.clock < b.clock;
    hide *;
    var chunks := Exact.SameSenderGoesOn(id, a, b);
    sys := System([Sender(id), Receiver(id)], [[], chunks]);
    deeds := [[Sent(1, id), Sent(1, id)], [GotOne(id, a), GotOne(id, b)]];
    SenderRecorded(id);
    ReceiverRecorded(id, a, b, chunks);
    OnlyMessages(deeds, id, a, b, chunks);
    TwoRanks(sys, deeds);
  }
}
