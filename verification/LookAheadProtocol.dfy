/**
  The look-ahead protocol among n ranks: what the published clocks, the gathered snapshots and the
  bounds say about messages to come, as long as every rank follows a recorded program.  That the ranks
  do follow it is shown in JointReplay.
 */
module LookAheadProtocol {
  import opened EditScripts
  import opened Messages
  import opened Clocks
  import opened ChunkOpening
  import opened LookAhead
  import opened ReplayOrdering
  import opened ReplayFidelity

  // ----- the recorded program of one rank -----

  /** A send, or a receive set with its recorded messages; all else does not touch the clock. */
  datatype Op = Send(dest: nat, id: int) | Receive(group: seq<Msg>)

  /** A message on its way: its clock and its matching set. */
  datatype Packet = Packet(clock: int, id: int)

  /** The local clock in front of operation k. */
  function ClockAt(prog: seq<Op>, k: nat): int
    requires k <= |prog|
  {
    if k == 0 then INITIAL_CLOCK
    else
      match prog[k - 1]
      case Send(_, _) => ClockAt(prog, k - 1) + 1
      case Receive(group) => SyncAll(ClockAt(prog, k - 1), group)
  }

  /** The messages to dest among the first k operations. */
  function SentTo(prog: seq<Op>, dest: nat, k: nat): seq<Packet>
    requires k <= |prog|
  {
    if k == 0 then []
    else
      var op := prog[k - 1];
      SentTo(prog, dest, k - 1) + (if op.Send? && op.dest == dest then [Packet(ClockAt(prog, k - 1), op.id)] else [])
  }

  /** All messages to dest. */
  function Sent(prog: seq<Op>, dest: nat): seq<Packet> {
    SentTo(prog, dest, |prog|)
  }

  ghost predicate Increasing(msgs: seq<Packet>, low: int, high: int) {
    && (forall i :: 0 <= i < |msgs| ==> low <= msgs[i].clock < high)
    && (forall i, j :: 0 <= i < j < |msgs| ==> msgs[i].clock < msgs[j].clock)
  }

  lemma {:induction false} ClockGrows(prog: seq<Op>, j: nat, k: nat)
    requires j <= k <= |prog|
    ensures INITIAL_CLOCK <= ClockAt(prog, j) <= ClockAt(prog, k)
    decreases k
  {
    if k > j {
      ClockGrows(prog, j, k - 1);
      if prog[k - 1].Receive? {
        SyncAllAdvances(ClockAt(prog, k - 1), prog[k - 1].group);
      }
    } else if k > 0 {
      ClockGrows(prog, k - 1, k - 1);
      if prog[k - 1].Receive? {
        SyncAllAdvances(ClockAt(prog, k - 1), prog[k - 1].group);
      }
    }
  }

  /** How often operations j to k - 1 let the clock tick: once for every message sent or received. */
  function Ticks(prog: seq<Op>, j: nat, k: nat): nat
    requires j <= k <= |prog|
    decreases k
  {
    if j == k then 0 else Ticks(prog, j, k - 1) + (if prog[k - 1].Send? then 1 else |prog[k - 1].group|)
  }

  predicate ReceivedAt(prog: seq<Op>, j: nat, i: nat) {
    j < |prog| && prog[j].Receive? && i < |prog[j].group|
  }

  /** The clock of message i of receive j, counted up by that message and all behind it. */
  function CountedUp(prog: seq<Op>, j: nat, i: nat, k: nat): int
    requires j < k <= |prog| && ReceivedAt(prog, j, i)
  {
    prog[j].group[i].clock + |prog[j].group| - i + Ticks(prog, j + 1, k)
  }

  /** The clock of a rank in closed form: the largest of the initial clock and the received ones, counted up. */
  lemma {:induction false} ClockAtIsLargest(prog: seq<Op>, k: nat)
    requires k <= |prog|
    ensures ClockAt(prog, k) >= INITIAL_CLOCK + Ticks(prog, 0, k)
    ensures forall j, i :: 0 <= j < k && ReceivedAt(prog, j, i) ==> ClockAt(prog, k) >= CountedUp(prog, j, i, k)
    ensures ClockAt(prog, k) == INITIAL_CLOCK + Ticks(prog, 0, k)
      || exists j, i :: 0 <= j < k && ReceivedAt(prog, j, i) && ClockAt(prog, k) == CountedUp(prog, j, i, k)
  {
    if k > 0 {
      ClockAtIsLargest(prog, k - 1);
      if prog[k - 1].Receive? {
        SyncAllIsLargest(ClockAt(prog, k - 1), prog[k - 1].group);
        LastReceive(prog, k - 1);
      }
      hide SyncAll;
      EarlierTicks(prog, k);
      if j: nat, i: nat :| j < k - 1 && ReceivedAt(prog, j, i) && ClockAt(prog, k - 1) == CountedUp(prog, j, i, k - 1) {
        assert CountedUp(prog, j, i, k) == CountedUp(prog, j, i, k - 1) + Ticks(prog, k - 1, k);
      }
    }
  }

  lemma LastReceive(prog: seq<Op>, k: nat)
    requires k < |prog| && prog[k].Receive?
    ensures Ticks(prog, k, k + 1) == |prog[k].group|
    ensures forall i :: 0 <= i < |prog[k].group| ==> ReceivedAt(prog, k, i) && CountedUp(prog, k, i, k + 1) == prog[k].group[i].clock + |prog[k].group| - i
  {
  }

  lemma EarlierTicks(prog: seq<Op>, k: nat)
    requires 0 < k <= |prog|
    ensures Ticks(prog, k - 1, k) == if prog[k - 1].Send? then 1 else |prog[k - 1].group|
    ensures Ticks(prog, 0, k) == Ticks(prog, 0, k - 1) + Ticks(prog, k - 1, k)
    ensures forall j, i :: 0 <= j < k - 1 && ReceivedAt(prog, j, i) ==>
      CountedUp(prog, j, i, k) == CountedUp(prog, j, i, k - 1) + Ticks(prog, k - 1, k)
  {
  }

  /** Messages sent later have larger clocks. */
  lemma {:induction false} SentIncreases(prog: seq<Op>, dest: nat, k: nat)
    requires k <= |prog|
    ensures Increasing(SentTo(prog, dest, k), INITIAL_CLOCK, ClockAt(prog, k))
  {
    if k > 0 {
      SentIncreases(prog, dest, k - 1);
      ClockGrows(prog, k - 1, k);
      ClockGrows(prog, k - 1, k - 1);
      if !(prog[k - 1].Send? && prog[k - 1].dest == dest) {
        assert SentTo(prog, dest, k) == SentTo(prog, dest, k - 1);
      }
    }
  }

  ghost predicate LaterAtLeast(msgs: seq<Packet>, from: nat, clock: int) {
    forall i :: from <= i < |msgs| ==> msgs[i].clock >= clock
  }

  /** No send from operation j on has a clock below the given one. */
  ghost predicate SendsAtLeast(prog: seq<Op>, j: nat, clock: int) {
    forall op :: j <= op < |prog| && prog[op].Send? ==> clock <= ClockAt(prog, op)
  }

  lemma {:induction false} SentExtends(prog: seq<Op>, dest: nat, j: nat, k: nat)
    requires j <= k <= |prog|
    ensures SentTo(prog, dest, j) <= SentTo(prog, dest, k)
    decreases k
  {
    if k > j {
      SentExtends(prog, dest, j, k - 1);
    }
  }

  /** What bounds the sends from operation j on bounds the messages that leave from there on. */
  lemma {:induction false} SentLater(prog: seq<Op>, dest: nat, j: nat, k: nat, clock: int)
    requires j <= k <= |prog| && SendsAtLeast(prog, j, clock)
    ensures LaterAtLeast(SentTo(prog, dest, k), |SentTo(prog, dest, j)|, clock)
    decreases k
  {
    if k > j {
      SentLater(prog, dest, j, k - 1, clock);
      SentExtends(prog, dest, j, k - 1);
      if prog[k - 1].Send? && prog[k - 1].dest == dest {
        assert clock <= ClockAt(prog, k - 1);
      }
    }
  }

  // ----- the state of all ranks -----

  /** Where a rank is inside replay_isend. */
  datatype Phase = Ready | Counted | Left

  datatype World = World(
    ranks: seq<Rank>,
    pcs: seq<nat>,
    phases: seq<Phase>,
    left: seq<seq<seq<Packet>>>)    // left[r][q]: the messages that r sent to q, in order

  ghost predicate SizedWorld(w: World, n: nat) {
    && |w.ranks| == |w.pcs| == |w.phases| == |w.left| == n
    && (forall r :: 0 <= r < n ==> Sized(w.ranks[r], n))
    && (forall r :: 0 <= r < n ==> |w.left[r]| == n)
  }

  ghost predicate Shaped(progs: seq<seq<Op>>, w: World) {
    SizedWorld(w, |progs|) && forall r :: 0 <= r < |progs| ==> w.pcs[r] <= |progs[r]|
  }

  /** At the start rank q knows these bounds. */
  function StartWorld(n: nat, bounds: seq<Bounds>): World
    requires |bounds| == n
  {
    World(seq(n, q requires 0 <= q < n => InitialRank(n).(bounds := bounds[q])), seq(n, p => 0), seq(n, p => Ready), seq(n, p => seq(n, q => [])))
  }

  /** What q ingested. */
  ghost function IngestedBy(w: World, q: nat): set<Tagged>
    requires q < |w.ranks|
  {
    set r: nat, i: nat | r < |w.left| && r < |w.ranks[q].recvCounts| && q < |w.left[r]| && i < |w.left[r][q]| && i < w.ranks[q].recvCounts[r] ::
      Tagged(Msg(r, w.left[r][q][i].clock), w.left[r][q][i].id)
  }

  // ----- the steps -----

  function Counting(w: World, p: nat, dest: nat): World
    requires p < |w.ranks| && p < |w.phases| && dest < |w.ranks[p].sendCounts|
  {
    w.(ranks := w.ranks[p := CountSend(w.ranks[p], dest)], phases := w.phases[p := Counted])
  }

  function Leaving(w: World, p: nat, dest: nat, id: int): World
    requires p < |w.ranks| == |w.pcs| == |w.phases| == |w.left| && dest < |w.left[p]|
  {
    w.(ranks := w.ranks[p := Tick(w.ranks[p])], pcs := w.pcs[p := w.pcs[p] + 1], phases := w.phases[p := Left],
       left := w.left[p := w.left[p][dest := w.left[p][dest] + [Packet(w.ranks[p].localClock, id)]]])
  }

  function Publishing(w: World, p: nat, clock: int): World
    requires p < |w.ranks| && p < |w.phases|
  {
    w.(ranks := w.ranks[p := Publish(w.ranks[p], clock)], phases := w.phases[p := Ready])
  }

  /** Rank q finishes a receive set with these messages. */
  function Receiving(w: World, q: nat, msgs: seq<Msg>): World
    requires q < |w.ranks| && q < |w.pcs|
  {
    w.(ranks := w.ranks[q := w.ranks[q].(localClock := SyncAll(w.ranks[q].localClock, msgs))], pcs := w.pcs[q := w.pcs[q] + 1])
  }

  /** The next message that q ingests from r. */
  predicate HasNext(w: World, q: nat, r: nat) {
    && q < |w.ranks| && r < |w.left| && q < |w.left[r]| && r < |w.ranks[q].recvCounts| == |w.ranks[q].maxRecved|
    && w.ranks[q].recvCounts[r] < |w.left[r][q]|
  }

  function Next(w: World, q: nat, r: nat): Packet
    requires HasNext(w, q, r)
  {
    w.left[r][q][w.ranks[q].recvCounts[r]]
  }

  function Ingesting(w: World, q: nat, r: nat): World
    requires HasNext(w, q, r)
  {
    w.(ranks := w.ranks[q := Ingest(w.ranks[q], r, Next(w, q, r).clock)])
  }

  function Fetching(w: World, q: nat, r: nat): World
    requires q < |w.ranks| && r < |w.ranks| && r < |w.ranks[q].gathered| && q < |w.ranks[r].sendCounts|
  {
    w.(ranks := w.ranks[q := Fetch(w.ranks[q], r, Published(w.ranks[r].scatterClock, w.ranks[r].sendCounts[q]))])
  }

  function WithBounds(w: World, q: nat, bounds: Bounds): World
    requires q < |w.ranks|
  {
    w.(ranks := w.ranks[q := w.ranks[q].(bounds := bounds)])
  }

  // ----- the invariant -----

  /** A published clock or a bound: nothing yet, or at least the initial clock, so never the collective one. */
  ghost predicate Plain(clock: int) {
    clock == 0 || clock >= INITIAL_CLOCK
  }

  ghost predicate RankOk(prog: seq<Op>, rank: Rank, pc: nat, phase: Phase, left: seq<seq<Packet>>)
    requires pc <= |prog| && |left| == |rank.sendCounts|
  {
    && rank.localClock == ClockAt(prog, pc)
    && Plain(rank.scatterClock) && SendsAtLeast(prog, pc, rank.scatterClock)
    && (phase == Counted ==> pc < |prog| && prog[pc].Send?)
    && (forall q :: 0 <= q < |left| ==> left[q] == SentTo(prog, q, pc))
    && (forall q :: 0 <= q < |left| ==>
      rank.sendCounts[q] == |left[q]| + (if phase == Counted && prog[pc].dest == q then 1 else 0))
  }

  /** A bound on the messages from the given one on. */
  ghost predicate BoundOk(msgs: seq<Packet>, from: nat, bound: int) {
    Plain(bound) && LaterAtLeast(msgs, from, bound)
  }

  /** What reader knows about source r, whose messages to it are msgs; `there` of them have left. */
  ghost predicate ReadOk(msgs: seq<Packet>, there: nat, reader: Rank, r: nat)
    requires r < |reader.recvCounts| && Sized(reader, |reader.recvCounts|)
  {
    && reader.recvCounts[r] <= there
    && BoundOk(msgs, reader.gathered[r].sendCount, reader.gathered[r].clock)
    && Plain(reader.maxRecved[r]) && LaterAtLeast(msgs, reader.recvCounts[r], reader.maxRecved[r] + 1)
    && LargestIs(msgs, reader.recvCounts[r], reader.maxRecved[r])
    && BoundsOk(msgs, reader.recvCounts[r], reader.bounds, r)
  }

  /** The largest clock among the first n messages: that of the last of them, 0 before the first. */
  ghost predicate LargestIs(msgs: seq<Packet>, n: nat, largest: int) {
    n <= |msgs| && largest == if n == 0 then 0 else msgs[n - 1].clock
  }

  /** The bounds of all matching sets on source r. */
  ghost predicate BoundsOk(msgs: seq<Packet>, from: nat, bounds: Bounds, r: nat) {
    forall id {:trigger bounds[id]} :: id in bounds && r in bounds[id] ==> BoundOk(msgs, from, bounds[id][r])
  }

  ghost predicate Inv(progs: seq<seq<Op>>, w: World) {
    && Shaped(progs, w)
    && (forall p {:trigger RankOk(progs[p], w.ranks[p], w.pcs[p], w.phases[p], w.left[p])} :: 0 <= p < |progs| ==>
      RankOk(progs[p], w.ranks[p], w.pcs[p], w.phases[p], w.left[p]))
    && (forall q, r {:trigger ReadOk(Sent(progs[r], q), |w.left[r][q]|, w.ranks[q], r)} :: 0 <= q < |progs| && 0 <= r < |progs| ==>
      ReadOk(Sent(progs[r], q), |w.left[r][q]|, w.ranks[q], r))
  }

  // ----- every step keeps it -----

  ghost predicate ZeroBounds(bounds: Bounds) {
    forall id, s :: id in bounds && s in bounds[id] ==> bounds[id][s] == 0
  }

  lemma StartInv(progs: seq<seq<Op>>, bounds: seq<Bounds>)
    requires |bounds| == |progs| && forall q :: 0 <= q < |bounds| ==> ZeroBounds(bounds[q])
    ensures Inv(progs, StartWorld(|progs|, bounds))
  {
    var n := |progs|;
    var w := StartWorld(n, bounds);
    assert forall q :: 0 <= q < n ==> w.ranks[q] == InitialRank(n).(bounds := bounds[q]) && w.pcs[q] == 0 && w.phases[q] == Ready;
    assert forall p, q :: 0 <= p < n && 0 <= q < n ==> |w.left[p]| == n && w.left[p][q] == [];
    forall p | 0 <= p < n ensures RankOk(progs[p], w.ranks[p], w.pcs[p], w.phases[p], w.left[p]) {
      NothingBelowZero(progs[p], 0);
    }
    forall q, r | 0 <= q < n && 0 <= r < n ensures ReadOk(Sent(progs[r], q), |w.left[r][q]|, w.ranks[q], r) {
      SentIncreases(progs[r], q, |progs[r]|);
      assert BoundsOk(Sent(progs[r], q), 0, bounds[q], r);
    }
  }

  lemma NothingBelowZero(prog: seq<Op>, j: nat)
    ensures SendsAtLeast(prog, j, 0)
  {
    forall op | j <= op < |prog| && prog[op].Send? ensures 0 <= ClockAt(prog, op) {
      ClockGrows(prog, op, op);
    }
  }

  lemma ReadOkFrame(msgs: seq<Packet>, there: nat, there': nat, reader: Rank, reader': Rank, r: nat)
    requires r < |reader.recvCounts| && Sized(reader, |reader.recvCounts|) && ReadOk(msgs, there, reader, r) && there <= there'
    requires reader' == reader.(localClock := reader'.localClock, scatterClock := reader'.scatterClock, sendCounts := reader'.sendCounts)
    requires Sized(reader', |reader.recvCounts|)
    ensures ReadOk(msgs, there', reader', r)
  {
    hide BoundOk, BoundsOk, LaterAtLeast;
  }

  /** A step of the sender's side leaves what others know intact. */
  lemma SenderStep(progs: seq<seq<Op>>, w: World, p: nat, rank: Rank, pc: nat, phase: Phase, left: seq<seq<Packet>>)
    requires Inv(progs, w) && p < |progs| && pc <= |progs[p]| && |left| == |progs|
    requires rank == w.ranks[p].(localClock := rank.localClock, scatterClock := rank.scatterClock, sendCounts := rank.sendCounts)
    requires |rank.sendCounts| == |progs| && RankOk(progs[p], rank, pc, phase, left)
    requires forall q :: 0 <= q < |left| ==> |w.left[p][q]| <= |left[q]|
    ensures Inv(progs, World(w.ranks[p := rank], w.pcs[p := pc], w.phases[p := phase], w.left[p := left]))
  {
    hide ReadOk, RankOk;
    var next := World(w.ranks[p := rank], w.pcs[p := pc], w.phases[p := phase], w.left[p := left]);
    forall q, r | 0 <= q < |progs| && 0 <= r < |progs| ensures ReadOk(Sent(progs[r], q), |next.left[r][q]|, next.ranks[q], r) {
      ReadOkFrame(Sent(progs[r], q), |w.left[r][q]|, |next.left[r][q]|, w.ranks[q], next.ranks[q], r);
    }
  }

  /** A step of the reader's side leaves the senders intact. */
  lemma ReaderStep(progs: seq<seq<Op>>, w: World, q: nat, rank: Rank)
    requires Inv(progs, w) && q < |progs| && Sized(rank, |progs|)
    requires rank.localClock == w.ranks[q].localClock && rank.scatterClock == w.ranks[q].scatterClock
    requires rank.sendCounts == w.ranks[q].sendCounts
    requires forall r :: 0 <= r < |progs| ==> ReadOk(Sent(progs[r], q), |w.left[r][q]|, rank, r)
    ensures Inv(progs, w.(ranks := w.ranks[q := rank]))
  {
    hide ReadOk, RankOk;
    ReaderRankOk(progs[q], w.ranks[q], rank, w.pcs[q], w.phases[q], w.left[q]);
    var next := w.(ranks := w.ranks[q := rank]);
    forall o, r | 0 <= o < |progs| && 0 <= r < |progs| ensures ReadOk(Sent(progs[r], o), |next.left[r][o]|, next.ranks[o], r) {
      assert ReadOk(Sent(progs[r], o), |w.left[r][o]|, w.ranks[o], r);
    }
  }

  lemma ReaderRankOk(prog: seq<Op>, rank: Rank, rank': Rank, pc: nat, phase: Phase, left: seq<seq<Packet>>)
    requires pc <= |prog| && |left| == |rank.sendCounts| && RankOk(prog, rank, pc, phase, left)
    requires rank'.localClock == rank.localClock && rank'.scatterClock == rank.scatterClock && rank'.sendCounts == rank.sendCounts
    ensures RankOk(prog, rank', pc, phase, left)
  {
  }

  lemma SendsAtLeastWeaken(prog: seq<Op>, j: nat, clock: int, j': nat, clock': int)
    requires SendsAtLeast(prog, j, clock) && j <= j' && clock' <= clock
    ensures SendsAtLeast(prog, j', clock')
  {
  }

  /** The local clock bounds all later sends; in front of a receive, so does the clock after it. */
  lemma ClockBoundsSends(prog: seq<Op>, pc: nat)
    requires pc <= |prog|
    ensures SendsAtLeast(prog, pc, ClockAt(prog, pc))
    ensures pc < |prog| && prog[pc].Receive? ==> SendsAtLeast(prog, pc, ClockAt(prog, pc + 1))
  {
    forall op | pc <= op < |prog| && prog[op].Send? ensures ClockAt(prog, pc) <= ClockAt(prog, op) {
      ClockGrows(prog, pc, op);
    }
    if pc < |prog| && prog[pc].Receive? {
      forall op | pc <= op < |prog| && prog[op].Send? ensures ClockAt(prog, pc + 1) <= ClockAt(prog, op) {
        ClockGrows(prog, pc + 1, op);
      }
    }
  }

  lemma RankInv(progs: seq<seq<Op>>, w: World, p: nat)
    requires Inv(progs, w) && p < |progs|
    ensures Shaped(progs, w) && |w.ranks[p].sendCounts| == |progs| && |w.left[p]| == |progs| && w.pcs[p] <= |progs[p]|
    ensures RankOk(progs[p], w.ranks[p], w.pcs[p], w.phases[p], w.left[p])
    ensures w.ranks[p].localClock == ClockAt(progs[p], w.pcs[p])
  {
    hide ReadOk;
  }

  lemma WorldIsSized(progs: seq<seq<Op>>, w: World)
    requires Inv(progs, w)
    ensures Shaped(progs, w) && SizedWorld(w, |progs|)
    ensures |w.ranks| == |w.pcs| == |w.phases| == |w.left| == |progs|
    ensures forall r :: 0 <= r < |progs| ==> Sized(w.ranks[r], |progs|) && |w.left[r]| == |progs| && w.pcs[r] <= |progs[r]|
  {
    hide RankOk, ReadOk;
  }

  lemma PublishKeeps(progs: seq<seq<Op>>, w: World, p: nat, clock: int)
    requires Inv(progs, w) && p < |progs| && w.phases[p] != Counted && Plain(clock) && SendsAtLeast(progs[p], w.pcs[p], clock)
    ensures Inv(progs, Publishing(w, p, clock))
  {
    hide Inv, SendsAtLeast, Plain, ReadOk, SentTo, ClockAt;
    RankInv(progs, w, p);
    SenderStep(progs, w, p, Publish(w.ranks[p], clock), w.pcs[p], Ready, w.left[p]);
    assert w.pcs[p := w.pcs[p]] == w.pcs && w.left[p := w.left[p]] == w.left;
  }

  lemma CountKeeps(progs: seq<seq<Op>>, w: World, p: nat, dest: nat)
    requires Inv(progs, w) && p < |progs| && w.phases[p] == Ready && w.pcs[p] < |progs[p]| && dest < |progs|
    requires progs[p][w.pcs[p]].Send? && progs[p][w.pcs[p]].dest == dest
    ensures Inv(progs, Counting(w, p, dest))
  {
    hide Inv, SendsAtLeast, Plain, ReadOk, SentTo, ClockAt;
    RankInv(progs, w, p);
    var rank := CountSend(w.ranks[p], dest);
    assert RankOk(progs[p], rank, w.pcs[p], Counted, w.left[p]);
    SenderStep(progs, w, p, rank, w.pcs[p], Counted, w.left[p]);
    assert w.pcs[p := w.pcs[p]] == w.pcs && w.left[p := w.left[p]] == w.left;
  }

  lemma LeaveKeeps(progs: seq<seq<Op>>, w: World, p: nat, dest: nat, id: int)
    requires Inv(progs, w) && p < |progs| && w.phases[p] == Counted && w.pcs[p] < |progs[p]| && dest < |progs|
    requires progs[p][w.pcs[p]] == Send(dest, id)
    ensures Inv(progs, Leaving(w, p, dest, id))
  {
    hide Inv, RankOk, ReadOk, ClockAt, SentTo;
    RankInv(progs, w, p);
    var pc := w.pcs[p];
    var left := w.left[p][dest := w.left[p][dest] + [Packet(w.ranks[p].localClock, id)]];
    LeaveKeepsRank(progs[p], w.ranks[p], pc, w.left[p], dest, id);
    SenderStep(progs, w, p, Tick(w.ranks[p]), pc + 1, Left, left);
  }

  lemma LeaveKeepsRank(prog: seq<Op>, rank: Rank, pc: nat, left: seq<seq<Packet>>, dest: nat, id: int)
    requires pc < |prog| && prog[pc] == Send(dest, id) && dest < |left| == |rank.sendCounts|
    requires RankOk(prog, rank, pc, Counted, left)
    ensures RankOk(prog, Tick(rank), pc + 1, Left, left[dest := left[dest] + [Packet(rank.localClock, id)]])
  {
    SendsAtLeastWeaken(prog, pc, rank.scatterClock, pc + 1, rank.scatterClock);
  }

  lemma ReceiveKeeps(progs: seq<seq<Op>>, w: World, p: nat, msgs: seq<Msg>)
    requires Inv(progs, w) && p < |progs| && w.phases[p] == Ready && w.pcs[p] < |progs[p]| && progs[p][w.pcs[p]] == Receive(msgs)
    ensures Inv(progs, Receiving(w, p, msgs))
  {
    hide Inv, RankOk, ReadOk, ClockAt, SentTo, SyncAll;
    RankInv(progs, w, p);
    var pc := w.pcs[p];
    var rank := w.ranks[p].(localClock := SyncAll(w.ranks[p].localClock, msgs));
    ReceiveKeepsRank(progs[p], w.ranks[p], pc, w.left[p]);
    SenderStep(progs, w, p, rank, pc + 1, Ready, w.left[p]);
    assert w.phases[p := Ready] == w.phases && w.left[p := w.left[p]] == w.left;
  }

  lemma ReceiveKeepsRank(prog: seq<Op>, rank: Rank, pc: nat, left: seq<seq<Packet>>)
    requires pc < |prog| && prog[pc].Receive? && |left| == |rank.sendCounts| && RankOk(prog, rank, pc, Ready, left)
    ensures RankOk(prog, rank.(localClock := SyncAll(rank.localClock, prog[pc].group)), pc + 1, Ready, left)
  {
    SendsAtLeastWeaken(prog, pc, rank.scatterClock, pc + 1, rank.scatterClock);
  }

  // ----- the reader's steps -----

  lemma IngestKeeps(progs: seq<seq<Op>>, w: World, q: nat, r: nat)
    requires Inv(progs, w) && q < |progs| && r < |progs| && HasNext(w, q, r)
    ensures Inv(progs, Ingesting(w, q, r))
  {
    var rank := Ingest(w.ranks[q], r, Next(w, q, r).clock);
    LeftIsSent(progs, w, r, q);
    SentIncreases(progs[r], q, |progs[r]|);
    forall s | 0 <= s < |progs| ensures ReadOk(Sent(progs[s], q), |w.left[s][q]|, rank, s) {
      assert ReadOk(Sent(progs[s], q), |w.left[s][q]|, w.ranks[q], s);
      if s == r {
        IngestedReadOk(Sent(progs[r], q), |w.left[r][q]|, w.ranks[q], r, ClockAt(progs[r], |progs[r]|));
      } else {
        assert rank.recvCounts[s] == w.ranks[q].recvCounts[s] && rank.maxRecved[s] == w.ranks[q].maxRecved[s];
      }
    }
    ReaderStep(progs, w, q, rank);
  }

  lemma LeftIsSent(progs: seq<seq<Op>>, w: World, r: nat, q: nat)
    requires Inv(progs, w) && r < |progs| && q < |progs|
    ensures w.left[r][q] <= Sent(progs[r], q)
  {
    SentExtends(progs[r], q, w.pcs[r], |progs[r]|);
    assert RankOk(progs[r], w.ranks[r], w.pcs[r], w.phases[r], w.left[r]);
  }

  lemma IngestedReadOk(msgs: seq<Packet>, there: nat, reader: Rank, r: nat, end: int)
    requires r < |reader.recvCounts| && Sized(reader, |reader.recvCounts|) && ReadOk(msgs, there, reader, r)
    requires reader.recvCounts[r] < there <= |msgs| && Increasing(msgs, INITIAL_CLOCK, end)
    ensures ReadOk(msgs, there, Ingest(reader, r, msgs[reader.recvCounts[r]].clock), r)
  {
  }

  /** Whatever r sends to q beyond the published count has at least the published clock. */
  lemma SnapshotIsSound(progs: seq<seq<Op>>, w: World, q: nat, r: nat)
    requires Inv(progs, w) && q < |progs| && r < |progs|
    ensures BoundOk(Sent(progs[r], q), w.ranks[r].sendCounts[q], w.ranks[r].scatterClock)
  {
    assert RankOk(progs[r], w.ranks[r], w.pcs[r], w.phases[r], w.left[r]);
    SentLater(progs[r], q, w.pcs[r], |progs[r]|, w.ranks[r].scatterClock);
  }

  lemma FetchKeeps(progs: seq<seq<Op>>, w: World, q: nat, r: nat)
    requires Inv(progs, w) && q < |progs| && r < |progs|
    ensures Inv(progs, Fetching(w, q, r))
  {
    var p := Published(w.ranks[r].scatterClock, w.ranks[r].sendCounts[q]);
    SnapshotIsSound(progs, w, q, r);
    hide BoundOk, BoundsOk, LaterAtLeast;
    forall s | 0 <= s < |progs| ensures ReadOk(Sent(progs[s], q), |w.left[s][q]|, Fetch(w.ranks[q], r, p), s) {
      assert ReadOk(Sent(progs[s], q), |w.left[s][q]|, w.ranks[q], s);
    }
    ReaderStep(progs, w, q, Fetch(w.ranks[q], r, p));
  }

  /** The three rules for a bound each keep it sound. */
  lemma UpdatedBoundIsSound(msgs: seq<Packet>, there: nat, reader: Rank, bound: int, r: nat, probed: bool, recved: bool)
    requires r < |reader.recvCounts| && Sized(reader, |reader.recvCounts|) && ReadOk(msgs, there, reader, r)
    requires BoundOk(msgs, reader.recvCounts[r], bound)
    ensures BoundOk(msgs, reader.recvCounts[r], UpdatedBound(reader, bound, r, probed, recved))
  {
    hide BoundsOk;
  }

  /** Bounds that are all sound may replace the ones a rank keeps. */
  lemma BoundsKeep(progs: seq<seq<Op>>, w: World, q: nat, bounds: Bounds)
    requires Inv(progs, w) && q < |progs|
    requires forall r :: 0 <= r < |progs| ==> BoundsOk(Sent(progs[r], q), w.ranks[q].recvCounts[r], bounds, r)
    ensures Inv(progs, WithBounds(w, q, bounds))
  {
    hide BoundOk, BoundsOk, LaterAtLeast;
    var rank := w.ranks[q].(bounds := bounds);
    forall r | 0 <= r < |progs| ensures ReadOk(Sent(progs[r], q), |w.left[r][q]|, rank, r) {
      assert ReadOk(Sent(progs[r], q), |w.left[r][q]|, w.ranks[q], r);
    }
    ReaderStep(progs, w, q, rank);
  }

  lemma ReadInv(progs: seq<seq<Op>>, w: World, q: nat, r: nat)
    requires Inv(progs, w) && q < |progs| && r < |progs|
    ensures Shaped(progs, w) && ReadOk(Sent(progs[r], q), |w.left[r][q]|, w.ranks[q], r)
    ensures w.ranks[q].recvCounts[r] <= |w.left[r][q]|
    ensures BoundsOk(Sent(progs[r], q), w.ranks[q].recvCounts[r], w.ranks[q].bounds, r)
  {
    hide RankOk, BoundsOk, BoundOk;
    assert ReadOk(Sent(progs[r], q), |w.left[r][q]|, w.ranks[q], r);
  }

  /** The update of all bounds of all matching sets. */
  lemma UpdateKeeps(progs: seq<seq<Op>>, w: World, q: nat, sources: set<int>, probed: set<int>, recved: set<int>)
    requires Inv(progs, w) && q < |progs|
    ensures Inv(progs, WithBounds(w, q, UpdateBounds(w.ranks[q], sources, probed, recved).bounds))
  {
    WorldIsSized(progs, w);
    var bounds := UpdateBounds(w.ranks[q], sources, probed, recved).bounds;
    forall r | 0 <= r < |progs| ensures BoundsOk(Sent(progs[r], q), w.ranks[q].recvCounts[r], bounds, r) {
      ReadInv(progs, w, q, r);
      hide Inv;
      UpdatedBoundsOk(Sent(progs[r], q), |w.left[r][q]|, w.ranks[q], r, sources, probed, recved);
    }
    hide *;
    BoundsKeep(progs, w, q, bounds);
  }

  lemma UpdatedBoundsOk(msgs: seq<Packet>, there: nat, reader: Rank, r: nat, sources: set<int>, probed: set<int>, recved: set<int>)
    requires r < |reader.recvCounts| && Sized(reader, |reader.recvCounts|) && ReadOk(msgs, there, reader, r)
    ensures BoundsOk(msgs, reader.recvCounts[r], UpdateBounds(reader, sources, probed, recved).bounds, r)
  {
    var bounds := UpdateBounds(reader, sources, probed, recved).bounds;
    hide BoundOk, UpdatedBound, LaterAtLeast;
    forall id | id in bounds && r in bounds[id] ensures BoundOk(msgs, reader.recvCounts[r], bounds[id][r]) {
      assert bounds[id] == UpdateSet(reader, reader.bounds[id], sources, probed, recved);
      var bound := reader.bounds[id][r];
      UpdatedBoundIsSound(msgs, there, reader, bound, r, r in probed, r in recved);
    }
  }

  // ----- messages that a rank has not ingested -----

  /** A message that was not ingested has at least every bound of the reader on its source. */
  lemma UnseenAtLeastBound(progs: seq<seq<Op>>, w: World, q: nat, id: int, m: Msg, known: int)
    requires Inv(progs, w) && q < |progs| && 0 <= m.source < |progs| && Packet(m.clock, id) in Sent(progs[m.source], q)
    requires Tagged(m, id) !in IngestedBy(w, q) && known in w.ranks[q].bounds && m.source in w.ranks[q].bounds[known]
    ensures m.clock >= w.ranks[q].bounds[known][m.source]
  {
    var r: nat := m.source;
    var msgs := Sent(progs[r], q);
    var k :| 0 <= k < |msgs| && msgs[k] == Packet(m.clock, id);
    ReadInv(progs, w, q, r);
    if k < w.ranks[q].recvCounts[r] {
      EarlyIsIngested(progs, w, q, r, k);
    }
    assert BoundOk(msgs, w.ranks[q].recvCounts[r], w.ranks[q].bounds[known][r]);
  }

  lemma EarlyIsIngested(progs: seq<seq<Op>>, w: World, q: nat, r: nat, k: nat)
    requires Inv(progs, w) && q < |progs| && r < |progs| && k < |Sent(progs[r], q)| && k < w.ranks[q].recvCounts[r]
    ensures Tagged(Msg(r, Sent(progs[r], q)[k].clock), Sent(progs[r], q)[k].id) in IngestedBy(w, q)
  {
    LeftIsSent(progs, w, r, q);
    ReadInv(progs, w, q, r);
    assert w.left[r][q][k] == Sent(progs[r], q)[k];
  }

  /** No stored bound is the collective clock, so the look-ahead clock is the smallest of all. */
  lemma LookAheadIsBelow(progs: seq<seq<Op>>, w: World, q: nat, id: int, ranks: seq<int>, min: Msg, r: int)
    requires Inv(progs, w) && q < |progs| && id in w.ranks[q].bounds
    requires forall k :: 0 <= k < |ranks| ==> 0 <= ranks[k] < |progs| && ranks[k] in w.ranks[q].bounds[id]
    requires IsLookAhead(w.ranks[q].bounds[id], ranks, min) && r in ranks
    ensures min.clock != COLLECTIVE_CLOCK && LessEq(min, Msg(r, w.ranks[q].bounds[id][r]))
  {
    var k :| 0 <= k < |ranks| && ranks[k] == r;
    ReadInv(progs, w, q, r);
    assert BoundOk(Sent(progs[r], q), w.ranks[q].recvCounts[r], w.ranks[q].bounds[id][r]);
    assert w.ranks[q].bounds[id][ranks[k]] != COLLECTIVE_CLOCK;
  }

  lemma {:induction false} InterimAdvances(clock: int, slots: seq<Option<Msg>>, ordered: seq<Msg>, boundClock: int)
    ensures InterimFrom(clock, slots, ordered, boundClock) >= clock
    decreases |slots|
  {
    if slots != [] {
      var now := if slots[0].Some? then slots[0].value.clock
                 else if ordered != [] && ordered[0].clock < boundClock then ordered[0].clock else boundClock;
      var rest := if slots[0].None? && ordered != [] && ordered[0].clock < boundClock then ordered[1..] else ordered;
      InterimAdvances(SyncClock(clock, now), slots[1..], rest, boundClock);
    }
  }

  lemma LocalBoundsSends(progs: seq<seq<Op>>, w: World, p: nat, clock: int)
    requires Inv(progs, w) && p < |progs| && (clock <= w.ranks[p].localClock || clock <= INITIAL_CLOCK)
    ensures SendsAtLeast(progs[p], w.pcs[p], clock) && w.ranks[p].localClock >= INITIAL_CLOCK
  {
    RankInv(progs, w, p);
    ClockGrows(progs[p], w.pcs[p], w.pcs[p]);
    ClockBoundsSends(progs[p], w.pcs[p]);
    SendsAtLeastWeaken(progs[p], w.pcs[p], w.ranks[p].localClock, w.pcs[p], clock);
  }

  /**
    Published clocks are sound: messages left with their recorded clocks, and none that a rank still
    has to send has a clock below the one it publishes.
   */
  lemma PublishedIsSound(progs: seq<seq<Op>>, w: World, p: nat, q: nat, k: nat)
    requires Inv(progs, w) && p < |progs| && q < |progs|
    ensures Shaped(progs, w) && w.left[p][q] <= Sent(progs[p], q)
    ensures |w.left[p][q]| <= k < |Sent(progs[p], q)| ==> w.ranks[p].scatterClock <= Sent(progs[p], q)[k].clock
  {
    LeftIsSent(progs, w, p, q);
    RankInv(progs, w, p);
    SentLater(progs[p], q, w.pcs[p], |progs[p]|, w.ranks[p].scatterClock);
  }

  /** Bounds are sound: what q did not ingest from r yet has at least every bound of q on r. */
  lemma StoredBoundIsSound(progs: seq<seq<Op>>, w: World, q: nat, r: nat, k: nat, id: int)
    requires Inv(progs, w) && q < |progs| && r < |progs| && id in w.ranks[q].bounds && r in w.ranks[q].bounds[id]
    ensures Shaped(progs, w)
    ensures w.ranks[q].recvCounts[r] <= k < |Sent(progs[r], q)| ==> w.ranks[q].bounds[id][r] <= Sent(progs[r], q)[k].clock
  {
    ReadInv(progs, w, q, r);
    assert BoundOk(Sent(progs[r], q), w.ranks[q].recvCounts[r], w.ranks[q].bounds[id][r]);
  }

  /** The messages of one set in an epoch of rank q, all sent to q by ranks of the epoch line. */
  ghost predicate EpochMessages(progs: seq<seq<Op>>, q: nat, id: int, t: seq<Msg>, ranks: seq<int>) {
    forall m :: m in t ==> 0 <= m.source < |progs| && m.source in ranks && Packet(m.clock, id) in Sent(progs[m.source], q)
  }

  /**
    The decoder's assumption holds: the clock that compute_look_ahead_recv_clock finds is a sound
    bound for the messages of the epoch.
   */
  lemma LookAheadIsSound(progs: seq<seq<Op>>, w: World, q: nat, id: int, t: seq<Msg>, ranks: seq<int>, bound: Msg, arrived: set<Msg>)
    requires Inv(progs, w) && q < |progs| && id in w.ranks[q].bounds && EpochMessages(progs, q, id, t, ranks)
    requires forall k :: 0 <= k < |ranks| ==> 0 <= ranks[k] < |progs| && ranks[k] in w.ranks[q].bounds[id]
    requires IsLookAhead(w.ranks[q].bounds[id], ranks, bound)
    requires forall m :: m in t && Tagged(m, id) in IngestedBy(w, q) ==> m in arrived
    ensures SoundBound(t, arrived, bound)
  {
    hide Inv, IsLookAhead, Sent, IngestedBy;
    forall u | u in t && u !in arrived ensures bound.clock != COLLECTIVE_CLOCK && !Less(u, bound) {
      UnseenAtLeastBound(progs, w, q, id, u, id);
      LookAheadIsBelow(progs, w, q, id, ranks, bound, u.source);
    }
  }
}
