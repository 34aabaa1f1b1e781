/**
  One rank's part of the look-ahead clock protocol: the clock it publishes, the clocks and counts it
  gathers, and the bounds it keeps on messages it has not seen.
 */
module LookAhead {
  import opened Collections
  import opened EditScripts
  import opened Messages
  import opened Clocks
  import opened ChunkOpening

  /** What a rank publishes for one reader, and what the reader copies. */
  datatype Published = Published(clock: int, sendCount: nat)

  datatype Rank = Rank(
    localClock: int,
    scatterClock: int,
    sendCounts: seq<nat>,        // by destination
    gathered: seq<Published>,    // by source, as of the last fetch
    recvCounts: seq<nat>,        // by source
    maxRecved: seq<int>,         // by source, 0 before the first message
    bounds: Bounds)              // by matching set and source

  predicate Sized(r: Rank, n: nat) {
    |r.sendCounts| == n && |r.gathered| == n && |r.recvCounts| == n && |r.maxRecved| == n
  }

  function InitialRank(n: nat): Rank {
    Rank(INITIAL_CLOCK, 0, seq(n, i => 0), seq(n, i => Published(0, 0)), seq(n, i => 0), seq(n, i => 0), map[])
  }

  /** update_local_look_ahead_send_clock: the published clock only grows. */
  function Publish(r: Rank, clock: int): Rank {
    r.(scatterClock := Max(r.scatterClock, clock))
  }

  /** rempi_cp_record_send, before the message leaves. */
  function CountSend(r: Rank, dest: nat): Rank
    requires dest < |r.sendCounts|
  {
    r.(sendCounts := r.sendCounts[dest := r.sendCounts[dest] + 1])
  }

  /** The message leaves with the local clock, which then ticks. */
  function Tick(r: Rank): Rank {
    r.(localClock := r.localClock + 1)
  }

  /** rempi_cp_record_recv and update_max_recved_clock for one ingested message. */
  function Ingest(r: Rank, source: nat, clock: int): Rank
    requires source < |r.recvCounts| && source < |r.maxRecved|
  {
    r.(recvCounts := r.recvCounts[source := r.recvCounts[source] + 1],
       maxRecved := r.maxRecved[source := Max(r.maxRecved[source], clock)])
  }

  function Fetch(r: Rank, source: nat, p: Published): Rank
    requires source < |r.gathered|
  {
    r.(gathered := r.gathered[source := p])
  }

  // ----- the bound on the next clock of one source -----

  datatype HowTo = NoUpdate | LastRecvClock | LookAheadClock

  /** rempi_cp_has_in_flight_msgs: the counts are shared by all matching sets. */
  predicate InFlight(r: Rank, source: nat)
    requires source < |r.recvCounts| == |r.gathered|
  {
    r.gathered[source].sendCount > r.recvCounts[source]
  }

  function HowToUpdate(r: Rank, bound: int, source: nat, probed: bool, recved: bool): HowTo
    requires Sized(r, |r.recvCounts|) && source < |r.recvCounts|
  {
    if probed then NoUpdate
    else if recved || InFlight(r, source) then
      if r.maxRecved[source] == 0 || r.maxRecved[source] + 1 < bound then NoUpdate else LastRecvClock
    else LookAheadClock
  }

  function UpdatedBound(r: Rank, bound: int, source: nat, probed: bool, recved: bool): int
    requires Sized(r, |r.recvCounts|) && source < |r.recvCounts|
  {
    match HowToUpdate(r, bound, source, probed, recved)
    case NoUpdate => bound
    case LastRecvClock => Max(bound, r.maxRecved[source])
    case LookAheadClock =>
      var clock := r.gathered[source].clock;
      if bound < clock || clock == COLLECTIVE_CLOCK then clock else bound
  }

  /** Whether the rules look the bound up at all; an unknown source is an error only then. */
  predicate LooksUp(r: Rank, source: nat, probed: bool, recved: bool)
    requires Sized(r, |r.recvCounts|) && source < |r.recvCounts|
  {
    !probed && (recved || InFlight(r, source) ==> r.maxRecved[source] != 0)
  }

  /** The bounds of one matching set after the sources of the chunk were visited. */
  function UpdateSet(r: Rank, known: map<int, int>, sources: set<int>, probed: set<int>, recved: set<int>): map<int, int>
    requires Sized(r, |r.recvCounts|)
  {
    map s | s in known ::
      if 0 <= s < |r.recvCounts| && s in sources then UpdatedBound(r, known[s], s, s in probed, s in recved) else known[s]
  }

  function UpdateBounds(r: Rank, sources: set<int>, probed: set<int>, recved: set<int>): Rank
    requires Sized(r, |r.recvCounts|)
  {
    r.(bounds := map id | id in r.bounds :: UpdateSet(r, r.bounds[id], sources, probed, recved))
  }

  /** Some set does not know a source of the chunk whose bound is looked up. */
  predicate UpdateThrows(r: Rank, sources: set<int>, probed: set<int>, recved: set<int>)
    requires Sized(r, |r.recvCounts|)
  {
    exists id, s: nat :: id in r.bounds && s in sources && s < |r.recvCounts| && s !in r.bounds[id] && LooksUp(r, s, s in probed, s in recved)
  }

  /** What publishing a clock does: the published clock is the larger of the old one and this one. */
  lemma PublishedIsLarger(r: Rank, clock: int)
    ensures Publish(r, clock).scatterClock >= clock && Publish(r, clock).scatterClock >= r.scatterClock
    ensures Publish(r, clock).scatterClock == clock || Publish(r, clock).scatterClock == r.scatterClock
    ensures Publish(r, clock) == r.(scatterClock := Publish(r, clock).scatterClock)
  {
  }

  /**
    How far an update takes the bounds of known sources: with messages received or on their way a bound
    catches up with the largest clock received, otherwise with the clock that the source published,
    where a source inside a collective counts as such; probed sources and those outside the chunk stay.
   */
  ghost predicate CaughtUp(r: Rank, after: Bounds, sources: set<int>, probed: set<int>, recved: set<int>)
    requires Sized(r, |r.recvCounts|)
  {
    && after.Keys == r.bounds.Keys
    && forall id, s: nat {:trigger r.bounds[id][s]} :: id in r.bounds && s in r.bounds[id] && s < |r.recvCounts| ==>
      && id in after && s in after[id]
      && after[id][s] == LargerBound(r, r.bounds[id][s], s, s in sources && s !in probed, s in recved)
  }

  function LargerBound(r: Rank, bound: int, s: nat, visited: bool, received: bool): int
    requires Sized(r, |r.recvCounts|) && s < |r.recvCounts|
  {
    var largest, published := r.maxRecved[s], r.gathered[s].clock;
    if !visited then bound
    else if received || r.gathered[s].sendCount > r.recvCounts[s] then (if largest != 0 then Max(bound, largest) else bound)
    else if published == COLLECTIVE_CLOCK then published
    else Max(bound, published)
  }

  lemma UpdateCatchesUp(r: Rank, sources: set<int>, probed: set<int>, recved: set<int>)
    requires Sized(r, |r.recvCounts|)
    ensures CaughtUp(r, UpdateBounds(r, sources, probed, recved).bounds, sources, probed, recved)
  {
  }

  /** The three rules of howto_update_look_ahead_recv_clock, each with the condition under which it applies. */
  ghost predicate Answers(r: Rank, known: map<int, int>, s: nat, probed: bool, received: bool, howTo: HowTo, thrown: bool)
    requires Sized(r, |r.recvCounts|) && s < |r.recvCounts|
  {
    var pending := received || r.gathered[s].sendCount > r.recvCounts[s];
    && (thrown <==> !probed && pending && r.maxRecved[s] != 0 && s !in known)
    && (!thrown ==>
          && (howTo == LookAheadClock <==> !probed && !pending)
          && (howTo == LastRecvClock <==> !probed && pending && r.maxRecved[s] != 0 && r.maxRecved[s] + 1 >= known[s]))
  }

  /** When the third rule applies, which may clear the report. */
  lemma ThirdRuleIff(r: Rank, v: Visit, probed: set<int>, recved: set<int>)
    requires Sized(r, |r.recvCounts|) && v.source < |r.recvCounts|
    ensures RuleAt(r, v, probed, recved) == LookAheadClock <==>
      v.source !in probed && v.source !in recved && r.gathered[v.source].sendCount <= r.recvCounts[v.source]
  {
  }

  /** Exactly when an update stops with an error: some set does not know a source that it has to look up. */
  lemma ThrowsIffUnknown(r: Rank, sources: set<int>, probed: set<int>, recved: set<int>)
    requires Sized(r, |r.recvCounts|)
    ensures UpdateThrows(r, sources, probed, recved) <==>
      exists id, s: nat ::
        && id in r.bounds && s in sources && s < |r.recvCounts| && s !in r.bounds[id] && s !in probed
        && (s in recved || r.gathered[s].sendCount > r.recvCounts[s] ==> r.maxRecved[s] != 0)
  {
  }

  // ----- what the update reports -----

  datatype Visit = Visit(id: int, source: nat)

  /** The order in which the two loops come to the bounds. */
  function VisitsOf(id: int, sources: seq<nat>): seq<Visit> {
    seq(|sources|, k requires 0 <= k < |sources| => Visit(id, sources[k]))
  }

  function Visits(sets: seq<int>, sources: seq<nat>): seq<Visit> {
    if sets == [] then [] else Visits(sets[..|sets| - 1], sources) + VisitsOf(sets[|sets| - 1], sources)
  }

  function BoundAt(r: Rank, v: Visit): int {
    if v.id in r.bounds && v.source in r.bounds[v.id] then r.bounds[v.id][v.source] else 0
  }

  function RuleAt(r: Rank, v: Visit, probed: set<int>, recved: set<int>): HowTo
    requires Sized(r, |r.recvCounts|) && v.source < |r.recvCounts|
  {
    HowToUpdate(r, BoundAt(r, v), v.source, v.source in probed, v.source in recved)
  }

  predicate Grows(r: Rank, v: Visit, probed: set<int>, recved: set<int>)
    requires Sized(r, |r.recvCounts|) && v.source < |r.recvCounts|
  {
    UpdatedBound(r, BoundAt(r, v), v.source, v.source in probed, v.source in recved) > BoundAt(r, v)
  }

  predicate InRange(r: Rank, visits: seq<Visit>) {
    forall k :: 0 <= k < |visits| ==> visits[k].source < |r.recvCounts|
  }

  /** is_updated after these visits: the third rule overwrites what earlier visits set. */
  function Reports(r: Rank, visits: seq<Visit>, probed: set<int>, recved: set<int>): bool
    requires Sized(r, |r.recvCounts|) && InRange(r, visits)
  {
    visits != [] &&
    var front, v := visits[..|visits| - 1], visits[|visits| - 1];
    match RuleAt(r, v, probed, recved)
    case NoUpdate => Reports(r, front, probed, recved)
    case LastRecvClock => Reports(r, front, probed, recved) || BoundAt(r, v) < r.maxRecved[v.source]
    case LookAheadClock => BoundAt(r, v) < r.gathered[v.source].clock
  }

  /** An update is reported exactly if some bound grew behind which the third rule was not applied. */
  lemma {:induction false} ReportedIff(r: Rank, visits: seq<Visit>, probed: set<int>, recved: set<int>)
    requires Sized(r, |r.recvCounts|) && InRange(r, visits)
    ensures Reports(r, visits, probed, recved) <==> exists k :: 0 <= k < |visits| && GrowsLast(r, visits, probed, recved, k)
  {
    if visits != [] {
      var n := |visits| - 1;
      var front, v := visits[..n], visits[n];
      ReportedIff(r, front, probed, recved);
      hide UpdatedBound, Reports;
      OneMoreReported(r, visits, probed, recved);
      if k: nat :| k < n && GrowsLast(r, front, probed, recved, k) && RuleAt(r, v, probed, recved) != LookAheadClock {
        assert GrowsLast(r, visits, probed, recved, k);
      }
      if k: nat :| k < n && GrowsLast(r, visits, probed, recved, k) {
        assert GrowsLast(r, front, probed, recved, k) && RuleAt(r, visits[n], probed, recved) != LookAheadClock;
      }
      if Grows(r, v, probed, recved) {
        assert GrowsLast(r, visits, probed, recved, n);
      }
    }
  }

  /** The bound of visit k grows, and the third rule is not applied behind it. */
  predicate GrowsLast(r: Rank, visits: seq<Visit>, probed: set<int>, recved: set<int>, k: nat)
    requires Sized(r, |r.recvCounts|) && InRange(r, visits) && k < |visits|
  {
    Grows(r, visits[k], probed, recved) && forall l :: k < l < |visits| ==> RuleAt(r, visits[l], probed, recved) != LookAheadClock
  }

  lemma OneMoreReported(r: Rank, visits: seq<Visit>, probed: set<int>, recved: set<int>)
    requires Sized(r, |r.recvCounts|) && InRange(r, visits) && visits != []
    ensures var front, v := visits[..|visits| - 1], visits[|visits| - 1];
      Reports(r, visits, probed, recved) <==>
        Grows(r, v, probed, recved) || (RuleAt(r, v, probed, recved) != LookAheadClock && Reports(r, front, probed, recved))
  {
  }

  lemma {:induction false} LastGrowth(r: Rank, visits: seq<Visit>, probed: set<int>, recved: set<int>, k: nat) returns (last: nat)
    requires Sized(r, |r.recvCounts|) && InRange(r, visits) && k < |visits| && Grows(r, visits[k], probed, recved)
    ensures k <= last < |visits| && Grows(r, visits[last], probed, recved)
    ensures forall l :: last < l < |visits| ==> !Grows(r, visits[l], probed, recved)
    decreases |visits| - k
  {
    last := k;
    if l: nat :| k < l < |visits| && Grows(r, visits[l], probed, recved) {
      last := LastGrowth(r, visits, probed, recved, l);
    }
  }

  /**
    A growth goes unreported exactly if the third rule is applied to a later bound without effect and
    nothing grows from there on.
   */
  lemma UnreportedIff(r: Rank, visits: seq<Visit>, probed: set<int>, recved: set<int>)
    requires Sized(r, |r.recvCounts|) && InRange(r, visits)
    ensures (exists k :: 0 <= k < |visits| && Grows(r, visits[k], probed, recved)) && !Reports(r, visits, probed, recved) <==>
      exists l ::
        && 0 <= l < |visits| && RuleAt(r, visits[l], probed, recved) == LookAheadClock
        && (exists k :: 0 <= k < l && Grows(r, visits[k], probed, recved))
        && (forall k :: l <= k < |visits| ==> !Grows(r, visits[k], probed, recved))
  {
    ReportedIff(r, visits, probed, recved);
    if !Reports(r, visits, probed, recved) {
      if k: nat :| k < |visits| && Grows(r, visits[k], probed, recved) {
        var last := LastGrowth(r, visits, probed, recved, k);
        assert !GrowsLast(r, visits, probed, recved, last);
        var l :| last < l < |visits| && RuleAt(r, visits[l], probed, recved) == LookAheadClock;
      }
    }
  }

  /** A reported update is one: some bound has grown. */
  lemma ReportedMeansGrown(r: Rank, visits: seq<Visit>, probed: set<int>, recved: set<int>)
    requires Sized(r, |r.recvCounts|) && InRange(r, visits) && Reports(r, visits, probed, recved)
    ensures exists k :: 0 <= k < |visits| && Grows(r, visits[k], probed, recved)
  {
    ReportedIff(r, visits, probed, recved);
  }

  /** One that is not: the bound on source 0 grows, and source 1 clears the report. */
  lemma GrownMayGoUnreported(r: Rank, id: int)
    requires Sized(r, 2) && r.recvCounts == [0, 0] && r.bounds == map[id := map[0 := 0, 1 := 0]]
    requires r.gathered == [Published(INITIAL_CLOCK, 0), Published(0, 0)]
    ensures Grows(r, Visit(id, 0), {}, {}) && !Reports(r, [Visit(id, 0), Visit(id, 1)], {}, {})
  {
    var visits := [Visit(id, 0), Visit(id, 1)];
    assert RuleAt(r, visits[1], {}, {}) == LookAheadClock && !Grows(r, visits[1], {}, {});
    ReportedIff(r, visits, {}, {});
  }

  // ----- the smallest bound -----

  /** The bound the decoder uses: the smallest (clock, rank) of the epoch's sources outside collectives. */
  ghost predicate IsLookAhead(known: map<int, int>, ranks: seq<int>, min: Msg)
    requires forall k :: 0 <= k < |ranks| ==> ranks[k] in known
  {
    if ranks == [] then min == Msg(0, 0)
    else if forall k :: 0 <= k < |ranks| ==> known[ranks[k]] == COLLECTIVE_CLOCK then min.clock == COLLECTIVE_CLOCK
    else
      && min.clock != COLLECTIVE_CLOCK
      && (exists k :: 0 <= k < |ranks| && min == Msg(ranks[k], known[ranks[k]]))
      && (forall k :: 0 <= k < |ranks| && known[ranks[k]] != COLLECTIVE_CLOCK ==> LessEq(min, Msg(ranks[k], known[ranks[k]])))
  }

  /** compute_look_ahead_recv_clock for a known set; None for the error of an unknown source. */
  method ComputeLookAheadRecvClock(known: map<int, int>, ranks: seq<int>) returns (found: Option<Msg>)
    ensures found.None? <==> exists k :: 0 <= k < |ranks| && ranks[k] !in known
    ensures found.Some? ==> IsLookAhead(known, ranks, found.value)
  {
    if |ranks| == 0 {
      return Some(Msg(0, 0));
    }
    if ranks[0] !in known {
      return None;
    }
    var min := Msg(ranks[0], known[ranks[0]]);
    for i := 0 to |ranks|
      invariant forall k :: 0 <= k < i ==> ranks[k] in known
      invariant exists k :: 0 <= k < |ranks| && ranks[k] in known && min == Msg(ranks[k], known[ranks[k]])
      invariant min.clock == COLLECTIVE_CLOCK ==> forall k :: 0 <= k < i ==> known[ranks[k]] == COLLECTIVE_CLOCK
      invariant min.clock != COLLECTIVE_CLOCK ==>
        forall k :: 0 <= k < i && known[ranks[k]] != COLLECTIVE_CLOCK ==> LessEq(min, Msg(ranks[k], known[ranks[k]]))
    {
      var rank := ranks[i];
      if rank !in known {
        return None;
      }
      var clock := known[rank];
      if clock == COLLECTIVE_CLOCK {
        continue;
      }
      if min.clock == COLLECTIVE_CLOCK {
        min := Msg(rank, clock);
      }
      if min.clock > clock {
        min := Msg(rank, clock);
      } else if min.clock == clock {
        if min.source > rank {
          min := Msg(rank, clock);
        }
      }
    }
    found := Some(min);
  }

  // ----- the rank as an object -----

  class LocalRank {
    var localClock: int
    var scatterClock: int
    var sendCounts: seq<nat>
    var gathered: seq<Published>
    var recvCounts: seq<nat>
    var maxRecved: seq<int>
    var bounds: Bounds

    ghost function State(): Rank
      reads this
    {
      Rank(localClock, scatterClock, sendCounts, gathered, recvCounts, maxRecved, bounds)
    }

    constructor (n: nat)
      ensures State() == InitialRank(n)
    {
      localClock, scatterClock := INITIAL_CLOCK, 0;
      sendCounts, gathered := seq(n, i => 0), seq(n, i => Published(0, 0));
      recvCounts, maxRecved, bounds := seq(n, i => 0), seq(n, i => 0), map[];
    }

    method UpdateSendClock(nextClock: int)
      modifies this`scatterClock
      ensures State() == Publish(old(State()), nextClock)
    {
      if scatterClock < nextClock {
        scatterClock := nextClock;
      }
    }

    /** replay_isend: count, send with the local clock, tick, publish. */
    method ReplayIsend(dest: nat) returns (sentClock: int)
      requires dest < |sendCounts|
      modifies this
      ensures sentClock == old(localClock)
      ensures var ticked := Tick(CountSend(old(State()), dest)); State() == Publish(ticked, ticked.localClock)
    {
      sendCounts := sendCounts[dest := sendCounts[dest] + 1];
      sentClock := localClock;
      localClock := localClock + 1;
      UpdateSendClock(localClock);
    }

    /** The clock effects of a replayed receive set, message by message. */
    method SyncAllClocks(msgs: seq<Msg>)
      modifies this`localClock
      ensures State() == old(State()).(localClock := SyncAll(old(localClock), msgs))
      ensures localClock >= old(localClock) + |msgs| && forall i :: 0 <= i < |msgs| ==> localClock >= msgs[i].clock + |msgs| - i
      ensures localClock == old(localClock) + |msgs| || exists i :: 0 <= i < |msgs| && localClock == msgs[i].clock + |msgs| - i
    {
      SyncAllIsLargest(localClock, msgs);
      ghost var before := localClock;
      for i := 0 to |msgs|
        invariant SyncAll(localClock, msgs[i..]) == SyncAll(before, msgs)
      {
        assert msgs[i..][1..] == msgs[i + 1..];
        if localClock < msgs[i].clock {
          localClock := msgs[i].clock;
        }
        localClock := localClock + 1;
      }
    }

    method RecordRecv(source: nat, clock: int)
      requires source < |recvCounts| && source < |maxRecved|
      modifies this
      ensures State() == Ingest(old(State()), source, clock)
    {
      recvCounts := recvCounts[source := recvCounts[source] + 1];
      if maxRecved[source] < clock {
        maxRecved := maxRecved[source := clock];
      } else {
        assert maxRecved[source := maxRecved[source]] == maxRecved;
      }
    }

    /** The end of decode: `ids` are the sets of the chunk in order, `sources` its mc_recv_ranks. */
    method OpenChunk(ids: seq<int>, sources: seq<int>) returns (error: Option<OpenError>)
      requires Distinct(sources)
      modifies this`bounds
      ensures match Open(old(bounds), ids, SetOf(sources))
              case Refused(e) => error == Some(e)
              case Opens(known) => error.None? && State() == old(State()).(bounds := known)
    {
      SetSize(sources);
      ghost var before := bounds;
      if |bounds| != 0 && |bounds| < |ids| {
        return Some(MoreSets);
      }
      for i := 0 to |ids|
        invariant KnowSets(before, ids[..i], SetOf(sources)) == Opens(bounds)
      {
        assert ids[..i + 1][..i] == ids[..i];
        if ids[i] in bounds {
          if |bounds| != |sources| {
            StaysRefused(before, ids, SetOf(sources), i + 1);
            return Some(SourcesDiffer);
          }
        } else {
          var umap := EmptyClocks(sources);
          bounds := bounds[ids[i] := umap];
        }
      }
      assert ids[..|ids|] == ids;
      if |sources| > MAX_MC_LENGTH {
        return Some(TooManySources);
      }
      return None;
    }

    /** update_local_look_ahead_recv_clock: `sets` are the known sets in the order of the map. */
    method UpdateLocalLookAheadRecvClock(sets: seq<int>, sources: seq<nat>, probed: set<int>, recved: set<int>)
      returns (isUpdated: bool, thrown: bool)
      requires Sized(State(), |recvCounts|) && Distinct(sets) && Distinct(sources)
      requires (forall id :: id in sets <==> id in bounds) && forall s :: s in sources ==> s < |recvCounts|
      modifies this`bounds
      ensures thrown <==> UpdateThrows(old(State()), SetOf(sources), probed, recved)
      ensures !thrown ==> State() == UpdateBounds(old(State()), SetOf(sources), probed, recved)
      ensures !thrown ==> CaughtUp(old(State()), bounds, SetOf(sources), probed, recved)
      ensures !thrown ==> InRange(old(State()), Visits(sets, sources))
      ensures !thrown ==> isUpdated == Reports(old(State()), Visits(sets, sources), probed, recved)
    {
      hide SetThrows, Reports, UpdateSet, UpdateThrows, UpdateBounds, Visits, VisitsOf, InRange, CaughtUp;
      ghost var was := State();
      ThrowsIff(was, sources, probed, recved);
      NothingReported(was, sources, probed, recved);
      isUpdated, thrown := false, false;
      for i := 0 to |sets|
        invariant State() == was.(bounds := bounds) && bounds.Keys == was.bounds.Keys
        invariant forall id :: id in sets[..i] ==> bounds[id] == UpdateSet(was, was.bounds[id], SetOf(sources), probed, recved)
        invariant forall id :: id in bounds && id !in sets[..i] ==> bounds[id] == was.bounds[id]
        invariant forall id :: id in sets[..i] ==> !SetThrows(was, id, sources, probed, recved)
        invariant InRange(was, Visits(sets[..i], sources)) && isUpdated == Reports(was, Visits(sets[..i], sources), probed, recved)
      {
        assert sets[..i + 1] == sets[..i] + [sets[i]] && sets[..i + 1][..i] == sets[..i];
        assert sets[i] in sets && sets[i] !in sets[..i];
        VisitsGrow(sets[..i + 1], sources);
        isUpdated, thrown := UpdateSetBounds(sets[i], sources, probed, recved, isUpdated, was, Visits(sets[..i], sources));
        if thrown {
          return;
        }
      }
      assert sets[..|sets|] == sets;
      AllUpdated(was, bounds, SetOf(sources), probed, recved);
      UpdateCatchesUp(was, SetOf(sources), probed, recved);
    }

    /** The loop over the sources of the chunk, for one matching set. */
    method UpdateSetBounds(id: int, sources: seq<nat>, probed: set<int>, recved: set<int>, reported: bool, ghost was: Rank, ghost before: seq<Visit>)
      returns (isUpdated: bool, thrown: bool)
      requires Sized(State(), |recvCounts|) && id in bounds && Distinct(sources) && forall s :: s in sources ==> s < |recvCounts|
      requires State() == was.(bounds := bounds) && id in was.bounds && bounds[id] == was.bounds[id]
      requires InRange(was, before) && reported == Reports(was, before, probed, recved)
      modifies this`bounds
      ensures thrown <==> SetThrows(was, id, sources, probed, recved)
      ensures !thrown ==> bounds == old(bounds)[id := UpdateSet(was, was.bounds[id], SetOf(sources), probed, recved)]
      ensures !thrown ==> InRange(was, before + VisitsOf(id, sources))
      ensures !thrown ==> isUpdated == Reports(was, before + VisitsOf(id, sources), probed, recved)
    {
      hide SetThrows, Reports, UpdateSet, Answers;
      isUpdated, thrown := reported, false;
      NothingVisited(was, id, before, probed, recved);
      for k := 0 to |sources|
        invariant bounds == old(bounds)[id := UpdateSet(was, was.bounds[id], SetOf(sources[..k]), probed, recved)]
        invariant InRange(was, before + VisitsOf(id, sources[..k]))
        invariant isUpdated == Reports(was, before + VisitsOf(id, sources[..k]), probed, recved)
        invariant !SetThrows(was, id, sources[..k], probed, recved)
      {
        var source := sources[k];
        assert source in sources;
        OneMoreSource(was, id, sources, k, probed, recved);
        OneMoreVisit(was, id, sources, k, before, probed, recved);
        NoMoreThrows(was, id, sources, k, probed, recved);
        assert BoundAt(State(), Visit(id, source)) == BoundAt(was, Visit(id, source));
        var howTo;
        howTo, thrown := HowTo(id, source, probed, recved);
        assert !thrown ==> howTo == RuleAt(was, Visit(id, source), probed, recved);
        if source in bounds[id] {
          SameEntry(bounds[id], source);
          assert old(bounds)[id := bounds[id]] == bounds;
        }
        if thrown {
          return;
        }
        match howTo
        case NoUpdate =>
        case LastRecvClock =>
          if bounds[id][source] < maxRecved[source] {
            bounds := bounds[id := bounds[id][source := maxRecved[source]]];
            isUpdated := true;
          }
        case LookAheadClock =>
          if source !in bounds[id] {
            thrown := true;
            return;
          }
          isUpdated := bounds[id][source] < gathered[source].clock;
          if isUpdated || gathered[source].clock == COLLECTIVE_CLOCK {
            bounds := bounds[id := bounds[id][source := gathered[source].clock]];
          }
      }
      assert sources[..|sources|] == sources;
    }

    /** howto_update_look_ahead_recv_clock; it looks a bound up only where it compares with it. */
    method HowTo(id: int, source: nat, probed: set<int>, recved: set<int>) returns (howTo: HowTo, thrown: bool)
      requires Sized(State(), |recvCounts|) && source < |recvCounts| && id in bounds
      ensures !thrown ==> howTo == RuleAt(State(), Visit(id, source), probed, recved)
      ensures !thrown && howTo == LastRecvClock ==> source in bounds[id]
      ensures Answers(State(), bounds[id], source, source in probed, source in recved, howTo, thrown)
      ensures thrown ==> source !in bounds[id] && LooksUp(State(), source, source in probed, source in recved)
      ensures source !in bounds[id] && LooksUp(State(), source, source in probed, source in recved) ==> thrown || howTo == LookAheadClock
    {
      thrown := false;
      if source in probed {
        howTo := NoUpdate;
      } else if source in recved {
        howTo := LastRecvClock;
      } else if gathered[source].sendCount > recvCounts[source] {
        howTo := LastRecvClock;
      } else {
        howTo := LookAheadClock;
      }
      if howTo == LastRecvClock {
        if maxRecved[source] == 0 {
          howTo := NoUpdate;
        } else if source !in bounds[id] {
          thrown := true;
        } else if maxRecved[source] + 1 < bounds[id][source] {
          howTo := NoUpdate;
        }
      }
    }
  }

  /** A source in front of which the loop over one set stops with an error. */
  predicate SetThrows(r: Rank, id: int, sources: seq<nat>, probed: set<int>, recved: set<int>)
    requires Sized(r, |r.recvCounts|) && id in r.bounds
  {
    exists s: nat :: s in sources && s < |r.recvCounts| && s !in r.bounds[id] && LooksUp(r, s, s in probed, s in recved)
  }

  lemma NothingVisited(r: Rank, id: int, before: seq<Visit>, probed: set<int>, recved: set<int>)
    requires Sized(r, |r.recvCounts|) && id in r.bounds
    ensures before + VisitsOf(id, []) == before && UpdateSet(r, r.bounds[id], SetOf([]), probed, recved) == r.bounds[id]
    ensures !SetThrows(r, id, [], probed, recved)
  {
    assert SetOf([]) == {};
    hide UpdatedBound;
  }

  /** One more source in a set: its bound changes if the set knows it. */
  lemma OneMoreSource(r: Rank, id: int, sources: seq<nat>, k: nat, probed: set<int>, recved: set<int>)
    requires Sized(r, |r.recvCounts|) && id in r.bounds && k < |sources| && Distinct(sources) && sources[k] < |r.recvCounts|
    ensures var known, source, done := r.bounds[id], sources[k], UpdateSet(r, r.bounds[id], SetOf(sources[..k]), probed, recved);
      var after := UpdateSet(r, known, SetOf(sources[..k + 1]), probed, recved);
      if source in known then
        && source in done && done[source] == known[source]
        && after == done[source := UpdatedBound(r, known[source], source, source in probed, source in recved)]
      else source !in done && after == done
  {
    hide UpdatedBound;
    assert sources[..k + 1] == sources[..k] + [sources[k]];
    assert SetOf(sources[..k + 1]) == SetOf(sources[..k]) + {sources[k]} && sources[k] !in sources[..k];
  }

  /** One more visit: whether it is reported. */
  lemma OneMoreVisit(r: Rank, id: int, sources: seq<nat>, k: nat, before: seq<Visit>, probed: set<int>, recved: set<int>)
    requires Sized(r, |r.recvCounts|) && k < |sources| && sources[k] < |r.recvCounts|
    requires InRange(r, before + VisitsOf(id, sources[..k]))
    ensures InRange(r, before + VisitsOf(id, sources[..k + 1]))
    ensures var v, front := Visit(id, sources[k]), before + VisitsOf(id, sources[..k]);
      Reports(r, before + VisitsOf(id, sources[..k + 1]), probed, recved) <==>
        match RuleAt(r, v, probed, recved)
        case NoUpdate => Reports(r, front, probed, recved)
        case LastRecvClock => Reports(r, front, probed, recved) || BoundAt(r, v) < r.maxRecved[v.source]
        case LookAheadClock => BoundAt(r, v) < r.gathered[v.source].clock
  {
    var front, v := before + VisitsOf(id, sources[..k]), Visit(id, sources[k]);
    assert VisitsOf(id, sources[..k + 1]) == VisitsOf(id, sources[..k]) + [v];
    assert before + VisitsOf(id, sources[..k + 1]) == front + [v];
    assert (front + [v])[..|front|] == front;
  }

  lemma SameEntry(known: map<int, int>, source: int)
    requires source in known
    ensures known[source := known[source]] == known
  {
  }

  lemma NothingReported(r: Rank, sources: seq<nat>, probed: set<int>, recved: set<int>)
    requires Sized(r, |r.recvCounts|)
    ensures Visits([], sources) == [] && InRange(r, []) && !Reports(r, [], probed, recved)
  {
  }

  lemma VisitsGrow(sets: seq<int>, sources: seq<nat>)
    requires sets != []
    ensures Visits(sets, sources) == Visits(sets[..|sets| - 1], sources) + VisitsOf(sets[|sets| - 1], sources)
  {
  }

  lemma AllUpdated(r: Rank, bounds: Bounds, sources: set<int>, probed: set<int>, recved: set<int>)
    requires Sized(r, |r.recvCounts|) && bounds.Keys == r.bounds.Keys
    requires forall id :: id in bounds ==> id in r.bounds && bounds[id] == UpdateSet(r, r.bounds[id], sources, probed, recved)
    ensures UpdateBounds(r, sources, probed, recved) == r.(bounds := bounds)
  {
    hide UpdateSet;
    var updated := UpdateBounds(r, sources, probed, recved).bounds;
    assert updated.Keys == bounds.Keys;
    forall id | id in bounds ensures updated[id] == bounds[id] {
      assert id in r.bounds.Keys;
    }
    assert updated == bounds;
  }

  lemma ThrowsIff(r: Rank, sources: seq<nat>, probed: set<int>, recved: set<int>)
    requires Sized(r, |r.recvCounts|)
    ensures UpdateThrows(r, SetOf(sources), probed, recved) <==> exists id :: id in r.bounds && SetThrows(r, id, sources, probed, recved)
  {
  }

  lemma NoMoreThrows(r: Rank, id: int, sources: seq<nat>, k: nat, probed: set<int>, recved: set<int>)
    requires Sized(r, |r.recvCounts|) && id in r.bounds && k < |sources| && sources[k] < |r.recvCounts|
    requires !SetThrows(r, id, sources[..k], probed, recved)
    ensures SetThrows(r, id, sources[..k + 1], probed, recved) <==>
      sources[k] !in r.bounds[id] && LooksUp(r, sources[k], sources[k] in probed, sources[k] in recved)
    ensures SetThrows(r, id, sources[..k + 1], probed, recved) ==> SetThrows(r, id, sources, probed, recved)
  {
    assert sources[..k + 1] == sources[..k] + [sources[k]];
  }

  lemma {:induction false} StaysRefused(known: Bounds, ids: seq<int>, sources: set<int>, k: nat)
    requires k <= |ids| && KnowSets(known, ids[..k], sources).Refused?
    ensures KnowSets(known, ids, sources) == KnowSets(known, ids[..k], sources)
    decreases |ids|
  {
    if k == |ids| {
      assert ids[..k] == ids;
    } else {
      assert ids[..|ids| - 1][..k] == ids[..k];
      StaysRefused(known, ids[..|ids| - 1], sources, k);
    }
  }

  method EmptyClocks(sources: seq<int>) returns (umap: map<int, int>)
    ensures umap == NoClocks(SetOf(sources))
  {
    umap := map[];
    for k := 0 to |sources|
      invariant umap == NoClocks(SetOf(sources[..k]))
    {
      assert sources[..k + 1] == sources[..k] + [sources[k]];
      umap := umap[sources[k] := 0];
    }
    assert sources[..|sources|] == sources;
  }
}
