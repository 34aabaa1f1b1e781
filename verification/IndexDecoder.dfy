/**
  The replayer's side of clock delta compression: moves back to the observed positions.
 */
module IndexDecoder {
  import opened Collections
  import opened EditScripts
  import opened MinimalRecord
  import opened ClockDeltaCompression

  /** The list iterators exist and each is used once: ids are distinct and below n. */
  predicate UsableIds(n: nat, ids: seq<nat>) {
    && (forall k :: 0 <= k < |ids| ==> ids[k] < n)
    && (forall j, k :: 0 <= j < k < |ids| ==> ids[j] != ids[k])
  }

  function Zip(ids: seq<nat>, delays: seq<int>): seq<Move>
    requires |ids| == |delays|
  {
    seq(|ids|, k requires 0 <= k < |ids| => Move(ids[k], delays[k]))
  }

  /** For every value its position in the list. */
  function Positions(n: nat, list: seq<nat>): seq<nat> {
    seq(n, v requires 0 <= v < n => Find(list, v))
  }

  /** None stands for an iterator that leaves the list or is used after its element was erased. */
  function DecodeIndices(n: nat, ids: seq<nat>, delays: seq<int>): Option<seq<nat>>
    requires |ids| == |delays|
  {
    if !UsableIds(n, ids) then None
    else
      match ApplyMoves(Iota(n), Zip(ids, delays))
      case None => None
      case Some(list) => Some(Positions(n, list))
  }

  /** cdc_prepare_decode_indices: a list, one erase / advance / insert per move, then the positions. */
  method PrepareDecodeIndices(n: nat, ids: seq<nat>, delays: seq<int>) returns (indices: Option<seq<nat>>)
    requires |ids| == |delays|
    ensures indices == DecodeIndices(n, ids, delays)
  {
    var list: seq<nat> := [];
    for i := 0 to n
      invariant list == Iota(i)
    {
      list := list + [i];
    }
    if !UsableIds(n, ids) {
      return None;
    }
    var permuted := PermuteList(list, ids, delays);
    if permuted.None? {
      return None;
    }
    MovesPermute(n, Zip(ids, delays), permuted.value);
    var positions := SequenceNumbers(permuted.value);
    return Some(positions);
  }

  method PermuteList(initial: seq<nat>, ids: seq<nat>, delays: seq<int>) returns (permuted: Option<seq<nat>>)
    requires |ids| == |delays|
    ensures permuted == ApplyMoves(initial, Zip(ids, delays))
  {
    var list := initial;
    ghost var moves := Zip(ids, delays);
    for i := 0 to |ids|
      invariant ApplyMoves(initial, moves) == ApplyMoves(list, moves[i..])
    {
      assert moves[i..][1..] == moves[i + 1..];
      var id, delay := ids[i], delays[i];
      var at := Find(list, id);
      if at == |list| {
        return None;
      }
      var erased := list[..at] + list[at + 1..];
      if !(0 <= at + delay <= |erased|) {
        return None;
      }
      list := erased[..at + delay] + [id] + erased[at + delay..];
    }
    return Some(list);
  }

  method SequenceNumbers(list: seq<nat>) returns (positions: seq<nat>)
    requires IsPermutation(list)
    ensures positions == Positions(|list|, list)
  {
    positions := seq(|list|, v => 0);
    for sequence := 0 to |list|
      invariant |positions| == |list|
      invariant forall k :: 0 <= k < sequence ==> positions[list[k]] == k
    {
      positions := positions[list[sequence] := sequence];
    }
    forall v | 0 <= v < |list| ensures positions[v] == Find(list, v) {
      PermutationIsOnto(list, v);
    }
  }

  lemma {:induction false} MovesPermute(n: nat, moves: seq<Move>, list: seq<nat>)
    requires ApplyMoves(Iota(n), moves) == Some(list)
    ensures IsPermutation(list) && |list| == n
    decreases |moves|
  {
    if moves != [] {
      var front, m := moves[..|moves| - 1], moves[|moves| - 1];
      assert moves == front + [m];
      ApplyMovesSnoc(Iota(n), front, m);
      var before := ApplyMoves(Iota(n), front).value;
      MovesPermute(n, front, before);
      var k := Find(before, m.id);
      ErasedIsDistinct(before, k);
      InsertedIsPermutation(before[..k] + before[k + 1..], m.id, k + m.delay, n);
    }
  }

  lemma ErasedIsDistinct(list: seq<nat>, k: nat)
    requires IsPermutation(list) && k < |list|
    ensures var erased := list[..k] + list[k + 1..];
      Distinct(erased) && list[k] !in erased && forall i :: 0 <= i < |erased| ==> erased[i] < |list|
  {
  }

  lemma InsertedIsPermutation(erased: seq<nat>, id: nat, at: nat, n: nat)
    requires Distinct(erased) && id !in erased && |erased| == n - 1 && at <= |erased|
    requires id < n && forall i :: 0 <= i < |erased| ==> erased[i] < n
    ensures IsPermutation(erased[..at] + [id] + erased[at..])
  {
  }

  /** positions is the inverse of p: message i is replayed in position i. */
  ghost predicate InverseOf(positions: seq<nat>, p: seq<nat>) {
    |positions| == |p| && forall i :: 0 <= i < |p| ==> p[i] < |p| && positions[p[i]] == i
  }

  /** Round trip of the codec, for every script that explains p. */
  lemma CodecRoundTrip(script: seq<Edit>, p: seq<nat>)
    requires IsPermutation(p) && Explains(script, p)
    ensures DecodeIndices(|p|, MoveIds(Moves(script)), MoveDelays(Moves(script))).Some?
    ensures InverseOf(DecodeIndices(|p|, MoveIds(Moves(script)), MoveDelays(Moves(script))).value, p)
  {
    var moves := Moves(script);
    assert Zip(MoveIds(moves), MoveDelays(moves)) == moves;
    assert UsableIds(|p|, MoveIds(moves)) by {
      ExplainsPairsEntries(script, p);
      MovesAreDistinct(script, |script|);
      MovedIdsInRange(script, p);
    }
    MovesRebuildObservedOrder(script, p);
    PositionsInvert(p);
  }

  lemma PositionsInvert(p: seq<nat>)
    requires IsPermutation(p)
    ensures InverseOf(Positions(|p|, p), p)
  {
    assert forall i :: 0 <= i < |p| ==> p[Find(p, p[i])] == p[i];
  }

  lemma MovedIdsInRange(script: seq<Edit>, p: seq<nat>)
    requires IsPermutation(p) && Explains(script, p)
    ensures forall id :: id in MovedBy(script, |script|) ==> id < |p|
  {
    forall id | id in MovedBy(script, |script|) ensures id < |p| {
      var i :| 0 <= i < |script| && script[i].kind != Ignore && script[i].id == id;
      SelectHas(script, (e: Edit) => e.kind != Add, id);
      SelectHas(script, (e: Edit) => e.kind != Remove, id);
      assert id in ClockSide(script) || id in ObservedSide(script);
    }
  }

  /**
    Recorder and replayer together, for every observed order: decoding succeeds and inverts it, and
    no list of single-element moves that rebuilds it is shorter than the record.
   */
  method RecordAndDecode(observed: seq<nat>) returns (ids: seq<nat>, delays: seq<int>, indices: Option<seq<nat>>)
    requires IsPermutation(observed)
    ensures |ids| == |delays| <= |observed|
    ensures indices.Some? && InverseOf(indices.value, observed)
    ensures forall moves: seq<Move> :: ApplyMoves(Iota(|observed|), moves) == Some(observed) ==> |ids| <= |moves|
  {
    ghost var script, rows;
    ids, delays, script, rows := Compress(Iota(|observed|), observed);
    CodecRoundTrip(script, observed);
    forall moves: seq<Move> | ApplyMoves(Iota(|observed|), moves) == Some(observed) ensures |ids| <= |moves| {
      RecordIsMinimal(observed, script, rows, moves);
    }
    MoveCount(script, observed);
    indices := PrepareDecodeIndices(|observed|, ids, delays);
  }
}
