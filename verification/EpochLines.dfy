/**
  The epoch line as the record keeps it: a vector of ranks and a vector of clocks.
 */
module EpochLines {
  import opened LinearPrediction

  /** epoch_umap from epoch_rank and epoch_clock. */
  function LineOf(ranks: seq<u64>, clocks: seq<u64>): map<int, int>
    requires |ranks| == |clocks|
  {
    if ranks == [] then map[]
    else LineOf(ranks[..|ranks| - 1], clocks[..|ranks| - 1])[ranks[|ranks| - 1] := clocks[|ranks| - 1]]
  }

  /** Sources and clocks are size_t values. */
  ghost predicate WideLine(line: map<int, int>) {
    forall source :: source in line ==> 0 <= source < TWO_64 && 0 <= line[source] < TWO_64
  }

  /** The epoch line, written out in the order of an unordered map. */
  method LineVectors(line: map<int, int>) returns (ranks: seq<u64>, clocks: seq<u64>)
    requires WideLine(line)
    ensures |ranks| == |clocks| == |line| && LineOf(ranks, clocks) == line
  {
    ranks, clocks := [], [];
    var todo: set<u64> := line.Keys;
    NothingLeft(line);
    hide LineOf, PartOf;
    while todo != {}
      invariant todo <= line.Keys && |ranks| == |clocks| == |line| - |todo|
      invariant LineOf(ranks, clocks) == PartOf(line, line.Keys - todo)
      decreases |todo|
    {
      var source: u64 :| source in todo;
      LineSnoc(ranks, clocks, source, line[source]);
      PartGrows(line, todo, source);
      todo := todo - {source};
      ranks, clocks := ranks + [source], clocks + [line[source]];
    }
  }

  ghost function PartOf(line: map<int, int>, done: set<int>): map<int, int> {
    map source | source in done && source in line :: line[source]
  }

  lemma NothingLeft(line: map<int, int>)
    ensures PartOf(line, line.Keys - line.Keys) == map[] == LineOf([], []) && PartOf(line, line.Keys - {}) == line
    ensures |line| == |line.Keys|
  {
  }

  lemma PartGrows(line: map<int, int>, todo: set<int>, source: int)
    requires todo <= line.Keys && source in todo
    ensures PartOf(line, line.Keys - (todo - {source})) == PartOf(line, line.Keys - todo)[source := line[source]]
  {
  }

  lemma LineSnoc(ranks: seq<u64>, clocks: seq<u64>, rank: u64, clock: u64)
    requires |ranks| == |clocks|
    ensures LineOf(ranks + [rank], clocks + [clock]) == LineOf(ranks, clocks)[rank := clock]
  {
    assert (ranks + [rank])[..|ranks|] == ranks && (clocks + [clock])[..|ranks|] == clocks;
  }

  method LineMap(ranks: seq<u64>, clocks: seq<u64>) returns (line: map<int, int>)
    requires |ranks| == |clocks|
    ensures line == LineOf(ranks, clocks)
  {
    line := map[];
    for i := 0 to |ranks|
      invariant line == LineOf(ranks[..i], clocks[..i])
    {
      assert ranks[..i + 1][..i] == ranks[..i] && clocks[..i + 1][..i] == clocks[..i];
      line := line[ranks[i] := clocks[i]];
    }
    assert ranks[..|ranks|] == ranks && clocks[..|ranks|] == clocks;
  }
}
