/**
  The bounds that the replayer keeps for every matching set and source, and what decode does to them
  when it opens a chunk of the record.
 */
module ChunkOpening {
  import opened Collections

  /** solid_mc_next_clocks_umap_umap: matching set -> source -> bound. */
  type Bounds = map<int, map<int, int>>

  const MAX_MC_LENGTH := 1024

  datatype OpenError = MoreSets | SourcesDiffer | TooManySources

  datatype Opening = Opens(known: Bounds) | Refused(error: OpenError)

  function NoClocks(sources: set<int>): map<int, int> {
    map s | s in sources :: 0
  }

  /** The loop over the tables of the chunk: new sets are entered, known ones are only compared. */
  function KnowSets(known: Bounds, ids: seq<int>, sources: set<int>): Opening {
    if ids == [] then Opens(known)
    else
      var id := ids[|ids| - 1];
      match KnowSets(known, ids[..|ids| - 1], sources)
      case Refused(error) => Refused(error)
      case Opens(now) =>
        if id !in now then Opens(now[id := NoClocks(sources)])
        else if |now| != |sources| then Refused(SourcesDiffer)
        else Opens(now)
  }

  /** The end of decode, for a chunk with tables of these sets and messages from these sources. */
  function Open(known: Bounds, ids: seq<int>, sources: set<int>): Opening {
    if |known| != 0 && |known| < |ids| then Refused(MoreSets)
    else
      match KnowSets(known, ids, sources)
      case Refused(error) => Refused(error)
      case Opens(now) => if |sources| > MAX_MC_LENGTH then Refused(TooManySources) else Opens(now)
  }

  /** The bounds of the first chunk: every set knows every source of the chunk. */
  function FirstBounds(ids: seq<int>, sources: set<int>): Bounds {
    map id | id in ids :: NoClocks(sources)
  }

  lemma {:induction false} NewSetsAreEntered(ids: seq<int>, sources: set<int>)
    requires Distinct(ids)
    ensures KnowSets(map[], ids, sources) == Opens(FirstBounds(ids, sources))
  {
    if ids != [] {
      var front, last := ids[..|ids| - 1], ids[|ids| - 1];
      NewSetsAreEntered(front, sources);
      assert ids == front + [last];
      assert last !in front;
      assert FirstBounds(ids, sources) == FirstBounds(front, sources)[last := NoClocks(sources)];
    }
  }

  /** The first chunk opens unless it has too many sources. */
  lemma FirstChunkOpens(ids: seq<int>, sources: set<int>)
    requires Distinct(ids)
    ensures Open(map[], ids, sources) ==
      if |sources| > MAX_MC_LENGTH then Refused(TooManySources) else Opens(FirstBounds(ids, sources))
  {
    NewSetsAreEntered(ids, sources);
  }

  lemma {:induction false} KnownSetsAreCompared(known: Bounds, ids: seq<int>, sources: set<int>)
    requires forall id :: id in ids ==> id in known
    ensures KnowSets(known, ids, sources) == if ids != [] && |known| != |sources| then Refused(SourcesDiffer) else Opens(known)
  {
    if ids != [] {
      KnownSetsAreCompared(known, ids[..|ids| - 1], sources);
    }
  }

  /** A later chunk of known sets opens if and only if it has as many sources as sets are known. */
  lemma LaterChunkOpensIff(known: Bounds, ids: seq<int>, sources: set<int>)
    requires ids != [] && |ids| <= |known| && forall id :: id in ids ==> id in known
    ensures Open(known, ids, sources).Opens? <==> |sources| == |known| && |known| <= MAX_MC_LENGTH
    ensures Open(known, ids, sources).Opens? ==> Open(known, ids, sources).known == known
  {
    KnownSetsAreCompared(known, ids, sources);
  }

  // ----- any chunk -----

  /** Number of sets that are not known yet. */
  function NewSets(known: Bounds, ids: seq<int>): nat {
    if ids == [] then 0 else NewSets(known, ids[..|ids| - 1]) + (if ids[|ids| - 1] in known then 0 else 1)
  }

  /** A known set is compared when the new sets in front of it are already entered. */
  ghost predicate ComparesWell(known: Bounds, ids: seq<int>, sources: set<int>) {
    forall i {:trigger ids[i]} :: 0 <= i < |ids| && ids[i] in known ==> |known| + NewSets(known, ids[..i]) == |sources|
  }

  lemma {:induction false} KnowSetsIff(known: Bounds, ids: seq<int>, sources: set<int>)
    requires Distinct(ids)
    ensures KnowSets(known, ids, sources).Opens? <==> ComparesWell(known, ids, sources)
    ensures KnowSets(known, ids, sources).Opens? ==> Knows(known, KnowSets(known, ids, sources).known, ids, sources)
  {
    if ids != [] {
      var front, last := ids[..|ids| - 1], ids[|ids| - 1];
      OneMoreCompares(known, ids, sources);
      assert Distinct(front) && last !in front;
      hide Knows, ComparesWell, Distinct, NewSets;
      KnowSetsIff(known, front, sources);
      if KnowSets(known, front, sources).Opens? {
        OneMoreKnown(known, KnowSets(known, front, sources).known, ids, sources);
      }
    }
  }

  lemma OneMoreCompares(known: Bounds, ids: seq<int>, sources: set<int>)
    requires ids != []
    ensures var front, last := ids[..|ids| - 1], ids[|ids| - 1];
      ComparesWell(known, ids, sources) <==>
        ComparesWell(known, front, sources) && (last in known ==> |known| + NewSets(known, front) == |sources|)
  {
    hide NewSets;
    var n := |ids| - 1;
    var front := ids[..n];
    assert forall i {:trigger ids[i]} :: 0 <= i < n ==> front[i] == ids[i] && front[..i] == ids[..i];
    assert forall i {:trigger front[i]} :: 0 <= i < n ==> front[i] == ids[i] && front[..i] == ids[..i];
  }

  lemma OneMoreKnown(known: Bounds, now: Bounds, ids: seq<int>, sources: set<int>)
    requires ids != [] && ids[|ids| - 1] !in ids[..|ids| - 1] && Knows(known, now, ids[..|ids| - 1], sources)
    ensures ids[|ids| - 1] in now <==> ids[|ids| - 1] in known
    ensures |now| == |known| + NewSets(known, ids[..|ids| - 1])
    ensures Knows(known, if ids[|ids| - 1] in now then now else now[ids[|ids| - 1] := NoClocks(sources)], ids, sources)
  {
    var front, last := ids[..|ids| - 1], ids[|ids| - 1];
    assert NewSets(known, ids) == NewSets(known, front) + (if last in known then 0 else 1);
    hide NoClocks, NewSets;
    InFrontOrLast(ids);
    if last !in now {
      OneMoreKey(now, last, NoClocks(sources));
    }
  }

  lemma InFrontOrLast(ids: seq<int>)
    requires ids != []
    ensures forall id :: id in ids <==> id in ids[..|ids| - 1] || id == ids[|ids| - 1]
  {
    assert ids == ids[..|ids| - 1] + [ids[|ids| - 1]];
  }

  lemma OneMoreKey(now: Bounds, id: int, clocks: map<int, int>)
    requires id !in now
    ensures |now[id := clocks]| == |now| + 1
  {
    assert now[id := clocks].Keys == now.Keys + {id};
    assert |now[id := clocks]| == |now[id := clocks].Keys| && |now| == |now.Keys|;
  }

  /** The known sets stay as they are, the new ones know every source of the chunk. */
  ghost predicate Knows(known: Bounds, now: Bounds, ids: seq<int>, sources: set<int>) {
    && (forall id :: id in now <==> id in known || id in ids) && |now| == |known| + NewSets(known, ids)
    && (forall id :: id in known ==> now[id] == known[id])
    && (forall id :: id in ids && id !in known ==> now[id] == NoClocks(sources))
  }

  /** Exactly which chunks open, and what is known then. */
  lemma OpensIff(known: Bounds, ids: seq<int>, sources: set<int>)
    requires Distinct(ids)
    ensures Open(known, ids, sources).Opens? <==>
      (|known| == 0 || |ids| <= |known|) && ComparesWell(known, ids, sources) && |sources| <= MAX_MC_LENGTH
    ensures Open(known, ids, sources).Opens? ==> Knows(known, Open(known, ids, sources).known, ids, sources)
  {
    KnowSetsIff(known, ids, sources);
    hide Knows, ComparesWell, KnowSets;
  }
}
