/**
  The recorder's side of clock delta compression: find the clock order of every observed message,
  search the shortest edit path, write it as a script, and keep the moves.
 */
module ClockDeltaCompression {
  import opened EditScripts
  import opened MinimalRecord
  import opened PathSearch

  // ----- from the path to the script -----

  /** Rows of the parent chain of i, root first. */
  ghost function ChainRows(nodes: seq<Node>, i: nat): (rows: seq<nat>)
    requires Rooted(nodes) && i < |nodes|
    ensures |rows| == Len(nodes, i) && rows[|rows| - 1] == nodes[i].row
  {
    match nodes[i].parent
    case None => [nodes[i].row]
    case Some(q) => ChainRows(nodes, q) + [nodes[i].row]
  }

  /** `count` entries with ids first, first-1, .., as the source pushes them. */
  function RunDown(first: int, count: nat, kind: Kind): seq<Edit>
    requires count <= first + 1
  {
    seq(count, k requires 0 <= k < count => Edit(first - k, kind))
  }

  /** The same ids upwards, from `from` to `to` - 1. */
  function Run(from: nat, to: nat, kind: Kind): seq<Edit>
    requires from <= to
  {
    seq(to - from, k requires 0 <= k < to - from => Edit(from + k, kind))
  }

  /** The diff read from node i back to the root; added entries still carry their row. */
  function DiffFrom(nodes: seq<Node>, i: nat): seq<Edit>
    requires Forest(nodes) && i < |nodes|
  {
    assert Linked(nodes, i);
    NodeDiff(nodes[i]) + (if nodes[i].parent.Some? then DiffFrom(nodes, nodes[i].parent.value) else [])
  }

  ghost function Rest(nodes: seq<Node>, at: Option<nat>): seq<Edit>
    requires Forest(nodes) && (at.Some? ==> at.value < |nodes|)
  {
    if at.Some? then DiffFrom(nodes, at.value) else []
  }

  /** The match, the columns skipped before it, the rows skipped before it. */
  function NodeDiff(node: Node): seq<Edit>
    requires node.columnDistance <= node.column && node.rowDistance <= node.row
  {
    [Edit(node.column, Ignore)]
    + RunDown(node.column - 1, node.columnDistance, Remove)
    + RunDown(node.row - 1, node.rowDistance, Add)
  }

  function Reverse(s: seq<Edit>): seq<Edit> {
    seq(|s|, i requires 0 <= i < |s| => s[|s| - 1 - i])
  }

  ghost predicate RowsBelow(s: seq<Edit>, n: nat) {
    forall k :: 0 <= k < |s| && s[k].kind == Add ==> s[k].id < n
  }

  /** change_to_seq_order_id: an added entry is named by the clock order of its row. */
  function Relabel(s: seq<Edit>, p: seq<nat>): seq<Edit>
    requires RowsBelow(s, |p|)
  {
    seq(|s|, k requires 0 <= k < |s| => if s[k].kind == Add then Edit(p[s[k].id], Add) else s[k])
  }

  lemma FlipConcat(a: seq<Edit>, b: seq<Edit>, p: seq<nat>)
    requires RowsBelow(a, |p|) && RowsBelow(b, |p|)
    ensures RowsBelow(a + b, |p|)
    ensures Reverse(Relabel(a + b, p)) == Reverse(Relabel(b, p)) + Reverse(Relabel(a, p))
  {
  }

  lemma FlipConcat4(a: seq<Edit>, b: seq<Edit>, c: seq<Edit>, d: seq<Edit>, p: seq<nat>)
    requires RowsBelow(a, |p|) && RowsBelow(b, |p|) && RowsBelow(c, |p|) && RowsBelow(d, |p|)
    ensures RowsBelow(a + b + c + d, |p|)
    ensures Reverse(Relabel(a + b + c + d, p)) ==
      Reverse(Relabel(d, p)) + Reverse(Relabel(c, p)) + Reverse(Relabel(b, p)) + Reverse(Relabel(a, p))
  {
    FlipConcat(a, b, p);
    FlipConcat(a + b, c, p);
    FlipConcat(a + b + c, d, p);
    Regroup(Reverse(Relabel(d, p)), Reverse(Relabel(c, p)), Reverse(Relabel(b, p)), Reverse(Relabel(a, p)));
  }

  lemma Regroup(a: seq<Edit>, b: seq<Edit>, c: seq<Edit>, d: seq<Edit>)
    ensures a + (b + (c + d)) == a + b + c + d
  {
  }

  lemma {:induction false} RemoveSides(from: nat, to: nat)
    requires from <= to
    ensures ClockSide(Run(from, to, Remove)) == Iota(to)[from..] && ObservedSide(Run(from, to, Remove)) == []
    ensures Ignores(Run(from, to, Remove)) == 0
  {
    if from < to {
      RemoveSides(from, to - 1);
      var r := Run(from, to, Remove);
      assert r[..|r| - 1] == Run(from, to - 1, Remove) && r[|r| - 1] == Edit(to - 1, Remove);
      assert Iota(to)[from..] == Iota(to - 1)[from..] + [to - 1];
    }
  }

  lemma {:induction false} AddSides(p: seq<nat>, from: nat, to: nat)
    requires from <= to <= |p|
    ensures ClockSide(Relabel(Run(from, to, Add), p)) == [] && ObservedSide(Relabel(Run(from, to, Add), p)) == p[from..to]
    ensures Ignores(Relabel(Run(from, to, Add), p)) == 0
  {
    if from < to {
      AddSides(p, from, to - 1);
      var adds := Relabel(Run(from, to, Add), p);
      assert adds[..|adds| - 1] == Relabel(Run(from, to - 1, Add), p) && adds[|adds| - 1] == Edit(p[to - 1], Add);
    }
  }

  lemma SidesConcat(a: seq<Edit>, b: seq<Edit>)
    ensures ClockSide(a + b) == ClockSide(a) + ClockSide(b)
    ensures ObservedSide(a + b) == ObservedSide(a) + ObservedSide(b)
    ensures Ignores(a + b) == Ignores(a) + Ignores(b)
  {
    SelectConcat(a, b, (e: Edit) => e.kind != Add);
    SelectConcat(a, b, (e: Edit) => e.kind != Remove);
    IgnoresConcat(a, b);
  }

  lemma {:induction false} IgnoresConcat(a: seq<Edit>, b: seq<Edit>)
    ensures Ignores(a + b) == Ignores(a) + Ignores(b)
  {
    if b == [] {
      assert a + b == a;
    } else {
      IgnoresConcat(a, b[..|b| - 1]);
      assert (a + b)[..|a + b| - 1] == a + b[..|b| - 1];
    }
  }

  /** Node k is row k, in the column p[k]. */
  ghost predicate Tracks(nodes: seq<Node>, p: seq<nat>) {
    |nodes| == |p| && forall k :: 0 <= k < |p| ==> nodes[k].row == k && nodes[k].column == p[k]
  }

  lemma {:induction false} DiffRowsInRange(nodes: seq<Node>, i: nat)
    requires Forest(nodes) && i < |nodes| && forall k :: 0 <= k < |nodes| ==> nodes[k].row == k
    ensures RowsBelow(DiffFrom(nodes, i), i)
  {
    assert Linked(nodes, i);
    if nodes[i].parent.Some? {
      DiffRowsInRange(nodes, nodes[i].parent.value);
    }
  }

  /** The script of the path that ends in node i. */
  ghost function ScriptTo(nodes: seq<Node>, p: seq<nat>, i: nat): seq<Edit>
    requires Forest(nodes) && Tracks(nodes, p) && i < |nodes|
  {
    DiffRowsInRange(nodes, i);
    Reverse(Relabel(DiffFrom(nodes, i), p))
  }

  /** The script grows by the added rows, the removed columns, and the match. */
  lemma ScriptStep(nodes: seq<Node>, p: seq<nat>, i: nat)
    requires Forest(nodes) && Tracks(nodes, p) && i < |nodes|
    ensures nodes[i].columnDistance <= nodes[i].column && nodes[i].rowDistance <= i
    ensures ScriptTo(nodes, p, i) ==
      (if nodes[i].parent.Some? then ScriptTo(nodes, p, nodes[i].parent.value) else [])
      + Relabel(Run(i - nodes[i].rowDistance, i, Add), p)
      + Run(nodes[i].column - nodes[i].columnDistance, nodes[i].column, Remove)
      + [Edit(nodes[i].column, Ignore)]
  {
    assert Linked(nodes, i);
    var node := nodes[i];
    var hit, removes, adds := [Edit(node.column, Ignore)], RunDown(node.column - 1, node.columnDistance, Remove),
      RunDown(i - 1, node.rowDistance, Add);
    var rest := [];
    if node.parent.Some? {
      DiffRowsInRange(nodes, node.parent.value);
      rest := DiffFrom(nodes, node.parent.value);
    }
    assert DiffFrom(nodes, i) == NodeDiff(node) + rest && NodeDiff(node) == hit + removes + adds;
    assert Reverse(Relabel(hit, p)) == hit;
    assert Reverse(Relabel(removes, p)) == Run(node.column - node.columnDistance, node.column, Remove);
    assert Reverse(Relabel(adds, p)) == Relabel(Run(i - node.rowDistance, i, Add), p);
    FlipConcat4(hit, removes, adds, rest, p);
  }

  /** A script up to (r, c), extended by a match in (i, p[i]). */
  lemma ExtendSides(before: seq<Edit>, p: seq<nat>, r: nat, i: nat, c: nat)
    requires r <= i < |p| && c <= p[i]
    requires ClockSide(before) == Iota(c) && ObservedSide(before) == p[..r]
    ensures var s := before + Relabel(Run(r, i, Add), p) + Run(c, p[i], Remove) + [Edit(p[i], Ignore)];
      ClockSide(s) == Iota(p[i] + 1) && ObservedSide(s) == p[..i + 1] && Ignores(s) == Ignores(before) + 1
  {
    var adds, removes, hit := Relabel(Run(r, i, Add), p), Run(c, p[i], Remove), [Edit(p[i], Ignore)];
    assert ClockSide(adds) == [] && ObservedSide(adds) == p[r..i] && Ignores(adds) == 0 by {
      AddSides(p, r, i);
    }
    assert ClockSide(removes) == Iota(p[i])[c..] && ObservedSide(removes) == [] && Ignores(removes) == 0 by {
      RemoveSides(c, p[i]);
    }
    HitSides(p[i]);
    SidesConcat4(before, adds, removes, hit);
    JoinSides(p, r, i, c);
  }

  lemma HitSides(id: nat)
    ensures var hit := [Edit(id, Ignore)]; ClockSide(hit) == [id] && ObservedSide(hit) == [id] && Ignores(hit) == 1
  {
    var hit := [Edit(id, Ignore)];
    assert hit[..|hit| - 1] == [];
    assert ClockSide([]) == [] && ObservedSide([]) == [] && Ignores([]) == 0;
  }

  lemma JoinSides(p: seq<nat>, r: nat, i: nat, c: nat)
    requires r <= i < |p| && c <= p[i]
    ensures Iota(c) + [] + Iota(p[i])[c..] + [p[i]] == Iota(p[i] + 1)
    ensures p[..r] + p[r..i] + [] + [p[i]] == p[..i + 1]
  {
  }

  lemma SidesConcat4(a: seq<Edit>, b: seq<Edit>, c: seq<Edit>, d: seq<Edit>)
    ensures ClockSide(a + b + c + d) == ClockSide(a) + ClockSide(b) + ClockSide(c) + ClockSide(d)
    ensures ObservedSide(a + b + c + d) == ObservedSide(a) + ObservedSide(b) + ObservedSide(c) + ObservedSide(d)
    ensures Ignores(a + b + c + d) == Ignores(a) + Ignores(b) + Ignores(c) + Ignores(d)
  {
    SidesConcat(a + b + c, d);
    SidesConcat(a + b, c);
    SidesConcat(a, b);
  }

  /** Read up to node i, the script explains the first i + 1 rows and all columns up to p[i]. */
  lemma {:induction false} ScriptSides(nodes: seq<Node>, p: seq<nat>, i: nat)
    requires Forest(nodes) && Tracks(nodes, p) && i < |nodes|
    ensures ClockSide(ScriptTo(nodes, p, i)) == Iota(p[i] + 1)
    ensures ObservedSide(ScriptTo(nodes, p, i)) == p[..i + 1]
    ensures Ignores(ScriptTo(nodes, p, i)) == Len(nodes, i)
  {
    assert Linked(nodes, i);
    ScriptStep(nodes, p, i);
    var node := nodes[i];
    var before := if node.parent.Some? then ScriptTo(nodes, p, node.parent.value) else [];
    if node.parent.Some? {
      ScriptSides(nodes, p, node.parent.value);
    }
    ExtendSides(before, p, i - node.rowDistance, i, node.column - node.columnDistance);
  }

  // ----- the chain is a longest increasing subsequence -----

  lemma {:induction false} ChainIncreases(nodes: seq<Node>, p: seq<nat>, i: nat)
    requires Forest(nodes) && Tracks(nodes, p) && i < |nodes|
    ensures Increasing(p, ChainRows(nodes, i))
  {
    assert Linked(nodes, i);
    if nodes[i].parent.Some? {
      ChainIncreases(nodes, p, nodes[i].parent.value);
    }
  }

  /** No increasing subsequence that ends in row i is longer than the chain of node i. */
  lemma {:induction false} ChainIsLongest(nodes: seq<Node>, p: seq<nat>, rows: seq<nat>)
    requires Forest(nodes) && Tracks(nodes, p) && forall i :: 0 <= i < |nodes| ==> Dominates(nodes, i)
    requires rows != [] && Increasing(p, rows)
    ensures |rows| <= Len(nodes, rows[|rows| - 1])
  {
    if |rows| > 1 {
      var front := rows[..|rows| - 1];
      ChainIsLongest(nodes, p, front);
      var j, i := front[|front| - 1], rows[|rows| - 1];
      assert j == rows[|rows| - 2];
      assert Dominates(nodes, i);
      assert Len(nodes, j) < Len(nodes, i);
    }
  }

  /** The bottom-right corner can be put behind any increasing subsequence, and taken away again. */
  lemma BottomRight(p: seq<nat>, rows: seq<nat>)
    requires IsPermutation(p)
    ensures Increasing(p + [|p|], rows + [|p|]) <==> Increasing(p, rows)
  {
    var q, more := p + [|p|], rows + [|p|];
    assert forall i :: 0 <= i < |p| ==> q[i] == p[i];
    assert forall i :: 0 <= i < |rows| ==> more[i] == rows[i];
    if Increasing(q, more) {
      forall i | 0 <= i < |rows| ensures rows[i] < |p| {
        assert more[i] < more[|rows|];
      }
    }
  }

  /** The path to the bottom-right node, without that node, passes a longest increasing subsequence. */
  lemma FinalChain(nodes: seq<Node>, p: seq<nat>)
    requires IsPermutation(p) && Forest(nodes) && Tracks(nodes, p + [|p|])
    requires forall i :: 0 <= i < |nodes| ==> Dominates(nodes, i)
    ensures LongestIncreasing(p, ChainRows(nodes, |p|)[..Len(nodes, |p|) - 1])
  {
    FinalChainIncreases(nodes, p);
    NoneLongerThanFinal(nodes, p);
  }

  lemma NoneLongerThanFinal(nodes: seq<Node>, p: seq<nat>)
    requires IsPermutation(p) && Forest(nodes) && Tracks(nodes, p + [|p|])
    requires forall i :: 0 <= i < |nodes| ==> Dominates(nodes, i)
    ensures forall other: seq<nat> :: Increasing(p, other) ==> |other| <= Len(nodes, |p|) - 1
  {
    forall other: seq<nat> | Increasing(p, other) ensures |other| <= Len(nodes, |p|) - 1 {
      BelowFinalChain(nodes, p, other);
    }
  }

  lemma FinalChainIncreases(nodes: seq<Node>, p: seq<nat>)
    requires IsPermutation(p) && Forest(nodes) && Tracks(nodes, p + [|p|])
    ensures Increasing(p, ChainRows(nodes, |p|)[..Len(nodes, |p|) - 1])
  {
    var chain := ChainRows(nodes, |p|);
    var rows := chain[..|chain| - 1];
    assert chain == rows + [|p|];
    ChainIncreases(nodes, p + [|p|], |p|);
    BottomRight(p, rows);
  }

  lemma BelowFinalChain(nodes: seq<Node>, p: seq<nat>, other: seq<nat>)
    requires IsPermutation(p) && Forest(nodes) && Tracks(nodes, p + [|p|]) && Increasing(p, other)
    requires forall i :: 0 <= i < |nodes| ==> Dominates(nodes, i)
    ensures |other| + 1 <= Len(nodes, |p|)
  {
    var more := other + [|p|];
    assert Increasing(p + [|p|], more) by {
      BottomRight(p, other);
    }
    ChainIsLongest(nodes, p + [|p|], more);
  }

  // ----- the recorder's loops -----

  method PushNode(diff: seq<Edit>, node: Node) returns (longer: seq<Edit>)
    requires node.columnDistance <= node.column && node.rowDistance <= node.row
    ensures longer == diff + NodeDiff(node)
  {
    longer := diff + [Edit(node.column, Ignore)];
    for column := 0 to node.columnDistance
      invariant longer == diff + [Edit(node.column, Ignore)] + RunDown(node.column - 1, column, Remove)
    {
      longer := longer + [Edit(node.column - 1 - column, Remove)];
    }
    ghost var removed := longer;
    for row := 0 to node.rowDistance
      invariant longer == removed + RunDown(node.row - 1, row, Add)
    {
      longer := longer + [Edit(node.row - 1 - row, Add)];
    }
  }

  lemma RestStep(nodes: seq<Node>, i: nat, diff: seq<Edit>)
    requires Forest(nodes) && i < |nodes|
    ensures nodes[i].columnDistance <= nodes[i].column && nodes[i].rowDistance <= nodes[i].row
    ensures nodes[i].parent.Some? ==> nodes[i].parent.value < i
    ensures diff + Rest(nodes, Some(i)) == (diff + NodeDiff(nodes[i])) + Rest(nodes, nodes[i].parent)
  {
    assert Linked(nodes, i);
    var rest := Rest(nodes, nodes[i].parent);
    assert diff + (NodeDiff(nodes[i]) + rest) == (diff + NodeDiff(nodes[i])) + rest;
  }

  /** Walks from the last leaf to the root and drops the entry of the bottom-right node. */
  method ConvertToDiffReversed(search: Search) returns (diff: seq<Edit>)
    requires search.Valid() && search.leaves != []
    ensures diff == DiffFrom(search.nodes, search.leaves[|search.leaves| - 1])[1..]
  {
    diff := [];
    ghost var all := DiffFrom(search.nodes, search.leaves[|search.leaves| - 1]);
    var at: Option<nat> := Some(search.leaves[|search.leaves| - 1]);
    while at.Some?
      invariant at.Some? ==> at.value < |search.nodes|
      invariant diff + Rest(search.nodes, at) == all
      decreases if at.Some? then at.value + 1 else 0
    {
      var node := search.nodes[at.value];
      RestStep(search.nodes, at.value, diff);
      diff := PushNode(diff, node);
      at := node.parent;
    }
    diff := diff[1..];
  }

  /** Names every added entry by the clock order of its row. */
  method ChangeToSeqOrderId(diff: seq<Edit>, observed: seq<nat>, clockToOrder: map<nat, nat>) returns (named: seq<Edit>)
    requires RowsBelow(diff, |observed|)
    requires forall v :: v in observed ==> v in clockToOrder && clockToOrder[v] == v
    ensures named == Relabel(diff, observed)
  {
    named := diff;
    for k := 0 to |diff|
      invariant |named| == |diff| && named[k..] == diff[k..]
      invariant named[..k] == Relabel(diff, observed)[..k]
    {
      if named[k].kind == Add {
        assert diff[k] == named[k];
        var clockOrder := observed[named[k].id];
        named := named[k := Edit(clockToOrder[clockOrder], Add)];
      }
    }
  }

  function MoveIds(moves: seq<Move>): seq<nat> {
    seq(|moves|, k requires 0 <= k < |moves| => moves[k].id)
  }

  function MoveDelays(moves: seq<Move>): seq<int> {
    seq(|moves|, k requires 0 <= k < |moves| => moves[k].delay)
  }

  /** The delta loop: how many list elements lie between the two entries of an id. */
  method CountDelta(script: seq<Edit>, pending: map<nat, nat>, memorized: nat, current: nat) returns (delta: nat)
    requires memorized < current <= |script|
    ensures delta == CountBetween(script, pending, memorized + 1, current)
  {
    delta := 0;
    for k := memorized + 1 to current
      invariant delta == CountBetween(script, pending, memorized + 1, k)
    {
      if script[k].kind == Ignore {
        delta := delta + 1;
      } else if script[k].kind == Remove {
        if script[k].id in pending { delta := delta + 1; }
      } else if script[k].kind == Add {
        if script[k].id !in pending { delta := delta + 1; }
      }
    }
  }

  /** Scans the reversed diff backwards and emits a move at the second entry of every id. */
  method ConvertToDiffBinary(diff: seq<Edit>) returns (ids: seq<nat>, delays: seq<int>)
    ensures ids == MoveIds(Moves(Reverse(diff))) && delays == MoveDelays(Moves(Reverse(diff)))
  {
    var script := Reverse(diff);
    ids, delays := [], [];
    var pending: map<nat, nat> := map[];
    for t := 0 to |script|
      invariant pending == Pending(script, t)
      invariant ids == MoveIds(MovesUpTo(script, t)) && delays == MoveDelays(MovesUpTo(script, t))
    {
      var id, kind := script[t].id, script[t].kind;
      if kind != Ignore {
        if id !in pending {
          pending := pending[id := t];
        } else {
          PendingRange(script, t);
          var delta: int := CountDelta(script, pending, pending[id], t);
          ids := ids + [id];
          if kind == Remove {
            delta := -delta;
          }
          delays := delays + [delta];
          pending := pending - {id};
        }
      }
    }
  }

  // ----- the column search -----

  /** Where the search for the next match begins, given the column of the previous one. */
  function NextStartSearch(upClock: nat, leftClock: nat, searchColumn: int, startColumn: nat): int {
    if upClock > leftClock || searchColumn == -1 then startColumn else searchColumn + 1
  }

  /** Steps right until the clock order matches; None is the source's "Searched to the end". */
  method FindMatchedClockColumn(left: nat, clocked: seq<nat>, from: nat) returns (traversed: Option<nat>)
    requires from <= |clocked|
    ensures traversed.Some? ==>
      && from + traversed.value < |clocked| && clocked[from + traversed.value] == left
      && left !in clocked[from..from + traversed.value]
    ensures traversed.None? ==> left !in clocked[from..]
  {
    var at, count: nat := from, 0;
    while at < |clocked|
      invariant at == from + count && at <= |clocked|
      invariant left !in clocked[from..at]
    {
      if left == clocked[at] {
        return Some(count);
      }
      assert clocked[from..at + 1] == clocked[from..at] + [clocked[at]];
      at, count := at + 1, count + 1;
    }
    assert clocked[from..at] == clocked[from..];
    return None;
  }

  /** The smallest column that is not matched, or the number of columns. */
  ghost predicate IsStart(matched: seq<bool>, start: nat) {
    && start <= |matched|
    && (forall c :: 0 <= c < start ==> matched[c])
    && (start < |matched| ==> !matched[start])
  }

  /** Marks the column and moves the start column right past everything matched. */
  method UpdateStart(start: nat, column: nat, matched: seq<bool>) returns (next: nat, matched': seq<bool>)
    requires IsStart(matched, start) && column < |matched| && !matched[column]
    ensures matched' == matched[column := true] && IsStart(matched', next)
    ensures column == start <==> next > start
    ensures column != start ==> next == start
  {
    matched' := matched[column := true];
    next := start;
    while next < |matched'| && matched'[next]
      invariant start <= next <= |matched'|
      invariant forall c :: 0 <= c < next ==> matched'[c]
      invariant column != start ==> next == start
    {
      next := next + 1;
    }
  }

  /** Which columns are matched after i observed messages. */
  ghost predicate MatchedBy(matched: seq<bool>, observed: seq<nat>, i: nat)
    requires i <= |observed|
  {
    && |matched| == |observed|
    && (forall k :: 0 <= k < i ==> observed[k] < |observed| && matched[observed[k]])
    && (forall c :: 0 <= c < |observed| && matched[c] ==> c in observed[..i])
  }

  /** Message i is found in the column of its own clock order; the search never runs off the end. */
  method MatchColumn(clocked: seq<nat>, observed: seq<nat>, i: nat, searchColumn: int, start: nat, ghost matched: seq<bool>)
    returns (column: nat)
    requires IsPermutation(observed) && clocked == Iota(|observed|) && i < |observed|
    requires MatchedBy(matched, observed, i) && IsStart(matched, start)
    requires searchColumn == if i == 0 then -1 else observed[i - 1]
    ensures column == observed[i] && column >= start && !matched[column]
  {
    var left, up := observed[i], clocked[if searchColumn == -1 then 0 else searchColumn];
    assert left !in observed[..i];
    var from := NextStartSearch(up, left, searchColumn, start);
    assert from <= left;
    var traversed := FindMatchedClockColumn(left, clocked, from);
    assert clocked[left] == clocked[from..][left - from];
    column := from + traversed.value;
  }

  /** The first half of compress: one node for every match, then the bottom-right corner. */
  method SearchPath(clocked: seq<nat>, observed: seq<nat>) returns (search: Search, clockToOrder: map<nat, nat>)
    requires IsPermutation(observed) && clocked == Iota(|observed|)
    ensures fresh(search) && search.Valid() && Tracks(search.nodes, observed + [|observed|])
    ensures search.leaves != [] && search.leaves[|search.leaves| - 1] == |observed|
    ensures forall v :: v in observed ==> v in clockToOrder && clockToOrder[v] == v
  {
    var n := |observed|;
    search := new Search();
    var matched := seq(n, c => false);
    clockToOrder := map[];
    var searchColumn: int := -1;
    var start: nat := 0;
    assert Represented(search.nodes, search.leaves, start);
    hide Represented, Dominates, Linked;
    for i := 0 to n
      invariant search.Valid() && fresh(search) && Represented(search.nodes, search.leaves, start)
      invariant Tracks(search.nodes, observed[..i])
      invariant MatchedBy(matched, observed, i) && IsStart(matched, start)
      invariant searchColumn == if i == 0 then -1 else observed[i - 1]
      invariant forall v :: v in observed[..i] ==> v in clockToOrder && clockToOrder[v] == v
    {
      searchColumn := MatchColumn(clocked, observed, i, searchColumn, start, matched);
      ghost var before := search.nodes;
      TrackedRows(before, observed, i, searchColumn);
      search.AddNode(i, searchColumn, start);
      TracksNext(before, search.nodes, observed, i);
      clockToOrder := clockToOrder[clocked[searchColumn] := searchColumn];
      start, matched := UpdateStart(start, searchColumn, matched);
      MatchedStep(observed, i);
    }
    assert start == n by {
      forall c | 0 <= c < n ensures matched[c] {
        PermutationIsOnto(observed, c);
      }
    }
    ghost var before := search.nodes;
    assert observed[..n] == observed;
    search.AddNode(n, n, start);
    assert forall k :: 0 <= k < n ==> search.nodes[k] == before[..n][k];
  }

  lemma MatchedStep(observed: seq<nat>, i: nat)
    requires i < |observed|
    ensures observed[..i + 1] == observed[..i] + [observed[i]]
  {
  }

  lemma TrackedRows(nodes: seq<Node>, observed: seq<nat>, i: nat, column: nat)
    requires i < |observed| && Tracks(nodes, observed[..i]) && IsPermutation(observed) && column == observed[i]
    ensures forall k :: 0 <= k < |nodes| ==> nodes[k].row < i && nodes[k].column != column
  {
  }

  lemma TracksNext(before: seq<Node>, nodes: seq<Node>, observed: seq<nat>, i: nat)
    requires i < |observed| && Tracks(before, observed[..i]) && |nodes| == i + 1 && nodes[..i] == before
    requires nodes[i].row == i && nodes[i].column == observed[i]
    ensures Tracks(nodes, observed[..i + 1])
  {
    assert forall k :: 0 <= k < i ==> nodes[k] == before[k];
  }

  /**
    compress: from the observed clock orders to the record.  `clocked` lists the clock orders by
    column.  The ghost results are the script and the rows that stay in place.
   */
  method Compress(clocked: seq<nat>, observed: seq<nat>)
    returns (ids: seq<nat>, delays: seq<int>, ghost script: seq<Edit>, ghost rows: seq<nat>)
    requires IsPermutation(observed) && clocked == Iota(|observed|)
    ensures Explains(script, observed)
    ensures LongestIncreasing(observed, rows) && Ignores(script) == |rows|
    ensures ids == MoveIds(Moves(script)) && delays == MoveDelays(Moves(script))
  {
    var search, clockToOrder := SearchPath(clocked, observed);
    var diff := NamedDiff(search, observed, clockToOrder);
    script := Reverse(diff);
    FinalChain(search.nodes, observed);
    rows := ChainRows(search.nodes, |observed|)[..Len(search.nodes, |observed|) - 1];
    ids, delays := ConvertToDiffBinary(diff);
  }

  /** The reversed diff of the final path, added entries named by their clock order. */
  method NamedDiff(search: Search, observed: seq<nat>, clockToOrder: map<nat, nat>) returns (diff: seq<Edit>)
    requires IsPermutation(observed) && search.Valid() && Tracks(search.nodes, observed + [|observed|])
    requires search.leaves != [] && search.leaves[|search.leaves| - 1] == |observed|
    requires forall v :: v in observed ==> v in clockToOrder && clockToOrder[v] == v
    ensures Explains(Reverse(diff), observed) && Ignores(Reverse(diff)) == Len(search.nodes, |observed|) - 1
  {
    var raw := ConvertToDiffReversed(search);
    assert RowsBelow(raw, |observed|)
      && Explains(Reverse(Relabel(raw, observed)), observed)
      && Ignores(Reverse(Relabel(raw, observed))) == Len(search.nodes, |observed|) - 1 by {
      ScriptToBottomRight(search.nodes, observed);
    }
    diff := ChangeToSeqOrderId(raw, observed, clockToOrder);
  }

  lemma DropLast(a: seq<nat>, b: seq<nat>, x: nat)
    requires a + [x] == b + [x]
    ensures a == b
  {
    assert a == (a + [x])[..|a|] && b == (b + [x])[..|b|] && |a + [x]| == |b + [x]|;
  }

  /** Without its last entry, the script to the bottom-right node explains the observed order. */
  lemma ScriptToBottomRight(nodes: seq<Node>, p: seq<nat>)
    requires IsPermutation(p) && Forest(nodes) && Tracks(nodes, p + [|p|])
    ensures RowsBelow(DiffFrom(nodes, |p|)[1..], |p|)
    ensures var script := Reverse(Relabel(DiffFrom(nodes, |p|)[1..], p));
      Explains(script, p) && Ignores(script) == Len(nodes, |p|) - 1
  {
    var q, diff := p + [|p|], DiffFrom(nodes, |p|);
    DiffRowsInRange(nodes, |p|);
    assert diff[0] == Edit(|p|, Ignore);
    var script := Reverse(Relabel(diff[1..], p));
    assert ScriptTo(nodes, q, |p|) == script + [Edit(|p|, Ignore)] by {
      FlipConcat([diff[0]], diff[1..], q);
      assert diff == [diff[0]] + diff[1..];
      assert Relabel(diff[1..], q) == Relabel(diff[1..], p);
      assert Reverse(Relabel([diff[0]], q)) == [diff[0]];
    }
    ScriptSides(nodes, q, |p|);
    DropBottomRight(script, p);
  }

  lemma DropBottomRight(script: seq<Edit>, p: seq<nat>)
    requires ClockSide(script + [Edit(|p|, Ignore)]) == Iota(|p| + 1)
    requires ObservedSide(script + [Edit(|p|, Ignore)]) == p + [|p|]
    ensures Explains(script, p) && Ignores(script) == Ignores(script + [Edit(|p|, Ignore)]) - 1
  {
    var all := script + [Edit(|p|, Ignore)];
    assert all[..|all| - 1] == script;
    assert Iota(|p| + 1) == Iota(|p|) + [|p|];
    DropLast(ClockSide(script), Iota(|p|), |p|);
    DropLast(ObservedSide(script), p, |p|);
  }
}
