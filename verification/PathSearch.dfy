/**
  The search for the shortest edit path between clock order and observed order.

  Every observed message is a node (row = observed position, column = clock order).  A node's
  parent is the node before it on its best path.  The leaves are the nodes from which later
  nodes search for a parent; leaves that can no longer matter are dropped.
 */
module PathSearch {
  import opened EditScripts

  datatype Node = Node(row: nat, column: nat, rowDistance: nat, columnDistance: nat, distance: int, parent: Option<nat>)

  // ----- parent chains -----

  ghost predicate Rooted(nodes: seq<Node>) {
    forall i :: 0 <= i < |nodes| && nodes[i].parent.Some? ==> nodes[i].parent.value < i
  }

  /** Number of nodes on the parent chain of i, itself included. */
  ghost function Len(nodes: seq<Node>, i: nat): (n: nat)
    requires Rooted(nodes) && i < |nodes|
  {
    match nodes[i].parent
    case None => 1
    case Some(q) => 1 + Len(nodes, q)
  }

  ghost predicate OnPath(nodes: seq<Node>, leaf: nat, i: nat): (b: bool)
    requires Rooted(nodes) && leaf < |nodes|
    ensures b ==> i <= leaf
  {
    leaf == i || (nodes[leaf].parent.Some? && OnPath(nodes, nodes[leaf].parent.value, i))
  }

  /** Distances count the edits on the path; rows and columns grow along it. */
  ghost predicate Forest(nodes: seq<Node>) {
    && Rooted(nodes)
    && forall i :: 0 <= i < |nodes| ==> Linked(nodes, i)
  }

  ghost predicate Linked(nodes: seq<Node>, i: nat)
    requires Rooted(nodes) && i < |nodes|
  {
    var x := nodes[i];
    && x.distance == x.row + x.column + 2 - Len(nodes, i)
    && match x.parent
       case None => x.rowDistance == x.row && x.columnDistance == x.column
       case Some(q) =>
         && nodes[q].row < x.row && x.rowDistance == x.row - (nodes[q].row + 1)
         && nodes[q].column < x.column && x.columnDistance == x.column - (nodes[q].column + 1)
  }

  lemma {:induction false} LenPrefix(nodes: seq<Node>, x: Node, i: nat)
    requires Rooted(nodes) && Rooted(nodes + [x]) && i < |nodes|
    ensures Len(nodes + [x], i) == Len(nodes, i)
  {
    if nodes[i].parent.Some? {
      LenPrefix(nodes, x, nodes[i].parent.value);
    }
  }

  lemma {:induction false} OnPathPrefix(nodes: seq<Node>, x: Node, leaf: nat, i: nat)
    requires Rooted(nodes) && Rooted(nodes + [x]) && leaf < |nodes|
    ensures OnPath(nodes + [x], leaf, i) == OnPath(nodes, leaf, i)
  {
    if nodes[leaf].parent.Some? {
      OnPathPrefix(nodes, x, nodes[leaf].parent.value, i);
    }
  }

  lemma {:induction false} PathShrinks(nodes: seq<Node>, leaf: nat, i: nat)
    requires Forest(nodes) && leaf < |nodes| && OnPath(nodes, leaf, i)
    ensures Len(nodes, i) <= Len(nodes, leaf) && nodes[i].column <= nodes[leaf].column
  {
    if leaf != i {
      assert Linked(nodes, leaf);
      PathShrinks(nodes, nodes[leaf].parent.value, i);
    }
  }

  lemma {:induction false} LenBound(nodes: seq<Node>, i: nat)
    requires Forest(nodes) && i < |nodes|
    ensures 1 <= Len(nodes, i) <= nodes[i].row + 1
  {
    assert Linked(nodes, i);
    if nodes[i].parent.Some? {
      LenBound(nodes, nodes[i].parent.value);
    }
  }

  // ----- what pruning must preserve -----

  ghost predicate Reachable(nodes: seq<Node>, leaves: seq<nat>, i: nat)
    requires Rooted(nodes) && forall k :: 0 <= k < |leaves| ==> leaves[k] < |nodes|
  {
    exists k :: 0 <= k < |leaves| && OnPath(nodes, leaves[k], i)
  }

  predicate Eligible(nodes: seq<Node>, i: nat, row: nat, column: nat)
    requires i < |nodes|
  {
    nodes[i].row < row && nodes[i].column < column
  }

  /** For node j and any column c still to come, some reachable node left of c has as long a chain. */
  ghost predicate Stands(nodes: seq<Node>, leaves: seq<nat>, j: nat, c: nat)
    requires Rooted(nodes) && j < |nodes| && forall k :: 0 <= k < |leaves| ==> leaves[k] < |nodes|
  {
    exists y :: 0 <= y < |nodes| && Reachable(nodes, leaves, y) && nodes[y].column < c && Len(nodes, y) >= Len(nodes, j)
  }

  ghost predicate Represented(nodes: seq<Node>, leaves: seq<nat>, start: nat)
    requires Rooted(nodes) && forall k :: 0 <= k < |leaves| ==> leaves[k] < |nodes|
  {
    forall j, c :: 0 <= j < |nodes| && c >= start && c > nodes[j].column ==> Stands(nodes, leaves, j, c)
  }

  /** A node's chain is longer than that of every earlier node it could follow. */
  ghost predicate Dominates(nodes: seq<Node>, i: nat)
    requires Rooted(nodes) && i < |nodes|
  {
    forall j :: 0 <= j < i && nodes[j].column < nodes[i].column ==> Len(nodes, j) < Len(nodes, i)
  }

  ghost predicate InOrder(nodes: seq<Node>, leaves: seq<nat>) {
    && Forest(nodes)
    && (forall k :: 0 <= k < |leaves| ==> leaves[k] < |nodes|)
    && (forall i :: 0 <= i < |nodes| ==> Dominates(nodes, i))
  }

  class Search {
    var nodes: seq<Node>    // all nodes, a parent before its children
    var leaves: seq<nat>    // leaf_list

    constructor ()
      ensures nodes == [] && leaves == []
    {
      nodes, leaves := [], [];
    }

    ghost predicate Valid()
      reads this
    {
      InOrder(nodes, leaves)
    }

    /** Walks from a leaf towards the root until a node can precede (row, column). */
    method FindShortestNode(row: nat, column: nat, leaf: nat) returns (parent: Option<nat>, distance: int)
      requires Valid() && leaf < |nodes|
      ensures parent.None? ==> distance == -1
      ensures parent.None? ==> forall y: nat :: OnPath(nodes, leaf, y) ==> !Eligible(nodes, y, row, column)
      ensures parent.Some? ==>
        && OnPath(nodes, leaf, parent.value) && parent.value < |nodes| && Eligible(nodes, parent.value, row, column)
        && distance == row + column - Len(nodes, parent.value) >= 0
        && forall y: nat :: OnPath(nodes, leaf, y) && Eligible(nodes, y, row, column) ==> Len(nodes, y) <= Len(nodes, parent.value)
    {
      var search: Option<nat> := Some(leaf);
      while search.Some?
        invariant search.Some? ==> search.value < |nodes| && OnPath(nodes, leaf, search.value)
        invariant forall y: nat :: OnPath(nodes, leaf, y) && !(search.Some? && OnPath(nodes, search.value, y)) ==>
          !Eligible(nodes, y, row, column)
        decreases if search.Some? then search.value + 1 else 0
      {
        var node := nodes[search.value];
        assert Linked(nodes, search.value);
        var rowDistance, columnDistance := row - (node.row + 1), column - (node.column + 1);
        if rowDistance >= 0 && columnDistance >= 0 {
          LenBound(nodes, search.value);
          forall y: nat | OnPath(nodes, leaf, y) && Eligible(nodes, y, row, column)
            ensures Len(nodes, y) <= Len(nodes, search.value)
          {
            PathShrinks(nodes, search.value, y);
          }
          return search, node.distance + rowDistance + columnDistance;
        }
        OnPathExtends(nodes, leaf, search.value);
        search := node.parent;
      }
      return None, -1;
    }

    /** The loop of add_node over the leaves: the best parent, and its leaf if it is one itself. */
    method FindBestParent(row: nat, column: nat, start: nat) returns (best: Option<nat>, bestDistance: int, eraseAt: Option<nat>)
      requires Valid() && Represented(nodes, leaves, start) && column >= start
      requires forall i :: 0 <= i < |nodes| ==> nodes[i].row < row
      ensures best.None? ==> bestDistance == row + column + 1
      ensures best.Some? ==> best.value < |nodes| && Eligible(nodes, best.value, row, column)
      ensures best.Some? ==> bestDistance == row + column - Len(nodes, best.value)
      ensures forall j: nat :: j < |nodes| && nodes[j].column < column ==> best.Some? && Len(nodes, j) <= Len(nodes, best.value)
      ensures eraseAt.Some? ==> eraseAt.value < |leaves| && best == Some(leaves[eraseAt.value])
    {
      best, bestDistance, eraseAt := None, row + column + 1, None;
      for k := 0 to |leaves|
        invariant best.None? ==> bestDistance == row + column + 1
        invariant best.Some? ==> best.value < |nodes| && Eligible(nodes, best.value, row, column)
        invariant best.Some? ==> bestDistance == row + column - Len(nodes, best.value)
        invariant forall j: nat, y: nat {:trigger OnPath(nodes, leaves[j], y)} :: j < k && OnPath(nodes, leaves[j], y) ==> Covered(best, y, row, column)
        invariant eraseAt.Some? ==> eraseAt.value < k && best == Some(leaves[eraseAt.value])
      {
        var parent, distance := FindShortestNode(row, column, leaves[k]);
        if distance >= 0 && distance < bestDistance {
          best, bestDistance := parent, distance;
          eraseAt := if parent == Some(leaves[k]) then Some(k) else None;
        }
      }
      forall j: nat | j < |nodes| && nodes[j].column < column
        ensures best.Some? && Len(nodes, j) <= Len(nodes, best.value)
      {
        assert Stands(nodes, leaves, j, column);
      }
    }

    ghost predicate Covered(best: Option<nat>, y: nat, row: nat, column: nat)
      reads this
      requires Rooted(nodes) && y < |nodes| && (best.Some? ==> best.value < |nodes|)
    {
      Eligible(nodes, y, row, column) ==> best.Some? && Len(nodes, y) <= Len(nodes, best.value)
    }

    /** Adds the match (row, column), given the smallest column not matched before it. */
    method AddNode(row: nat, column: nat, start: nat)
      requires Valid() && Represented(nodes, leaves, start)
      requires forall i :: 0 <= i < |nodes| ==> nodes[i].row < row && nodes[i].column != column
      requires column >= start
      modifies this
      ensures Valid()
      ensures |nodes| == |old(nodes)| + 1 && nodes[..|old(nodes)|] == old(nodes)
      ensures nodes[|old(nodes)|].row == row && nodes[|old(nodes)|].column == column
      ensures Represented(nodes, leaves, if column == start then start + 1 else start)
      ensures leaves != [] && leaves[|leaves| - 1] == |old(nodes)|
    {
      hide InOrder, Represented, Eligible, Len, OnPath, Swept;
      ghost var was, before := nodes, leaves;
      var best, bestDistance, eraseAt := FindBestParent(row, column, start);
      var node := MatchNode(nodes, row, column, best, bestDistance);
      NodeAdded(was, before, node, best, bestDistance, eraseAt, start);
      if eraseAt.Some? {
        leaves := leaves[..eraseAt.value] + leaves[eraseAt.value + 1..];
      }
      nodes := nodes + [node];
      leaves := leaves + [|nodes| - 1];
      assert leaves == NewLeaves(before, |was|, eraseAt);
      if column == start {
        SweepLeaves(start);
      }
    }

    /** Drops the leaves to the left of the smallest unmatched column. */
    method SweepLeaves(start: nat)
      requires forall k :: 0 <= k < |leaves| ==> leaves[k] < |nodes|
      modifies this`leaves
      ensures leaves == Swept(old(leaves), nodes, start)
    {
      var i, kept := 0, [];
      while i < |leaves|
        invariant 0 <= i <= |leaves|
        invariant kept == Swept(leaves[..i], nodes, start)
      {
        assert leaves[..i + 1][..i] == leaves[..i];
        if nodes[leaves[i]].column >= start {
          kept := kept + [leaves[i]];
        }
        i := i + 1;
      }
      assert leaves[..i] == leaves;
      leaves := kept;
    }
  }

  /** The node of a match, linked to its best parent or to the top-left corner. */
  function MatchNode(nodes: seq<Node>, row: nat, column: nat, best: Option<nat>, bestDistance: int): Node
    requires best.Some? ==> best.value < |nodes| && Eligible(nodes, best.value, row, column)
  {
    match best
    case None => Node(row, column, row, column, row + column + 1, None)
    case Some(q) => Node(row, column, row - (nodes[q].row + 1), column - (nodes[q].column + 1), bestDistance + 1, best)
  }

  /** The leaves once node n is one, in place of the leaf that became its parent. */
  function NewLeaves(leaves: seq<nat>, n: nat, eraseAt: Option<nat>): seq<nat>
    requires eraseAt.Some? ==> eraseAt.value < |leaves|
  {
    (if eraseAt.Some? then leaves[..eraseAt.value] + leaves[eraseAt.value + 1..] else leaves) + [n]
  }

  lemma LeavesKept(nodes: seq<Node>, x: Node, leaves: seq<nat>, eraseAt: Option<nat>)
    requires Rooted(nodes + [x])
    requires eraseAt.Some? ==> eraseAt.value < |leaves| && x.parent == Some(leaves[eraseAt.value])
    ensures forall k :: 0 <= k < |leaves| ==> leaves[k] in NewLeaves(leaves, |nodes|, eraseAt) || OnPath(nodes + [x], |nodes|, leaves[k])
    ensures |nodes| in NewLeaves(leaves, |nodes|, eraseAt)
    ensures forall i :: i in NewLeaves(leaves, |nodes|, eraseAt) ==> i in leaves || i == |nodes|
  {
    NewLeavesHold(leaves, |nodes|, eraseAt);
    if eraseAt.Some? {
      var all, leaf := nodes + [x], leaves[eraseAt.value];
      assert all[|nodes|].parent == Some(leaf);
      hide NewLeaves;
      assert OnPath(all, leaf, leaf);
    }
  }

  lemma NewLeavesHold(leaves: seq<nat>, n: nat, eraseAt: Option<nat>)
    requires eraseAt.Some? ==> eraseAt.value < |leaves|
    ensures forall k :: 0 <= k < |leaves| && eraseAt != Some(k) ==> leaves[k] in NewLeaves(leaves, n, eraseAt)
    ensures n in NewLeaves(leaves, n, eraseAt)
    ensures forall i :: i in NewLeaves(leaves, n, eraseAt) ==> i in leaves || i == n
  {
    var now := NewLeaves(leaves, n, eraseAt);
    assert now[|now| - 1] == n;
    forall k | 0 <= k < |leaves| && eraseAt != Some(k) ensures leaves[k] in now {
      assert now[if eraseAt.Some? && k > eraseAt.value then k - 1 else k] == leaves[k];
    }
  }

  function Swept(leaves: seq<nat>, nodes: seq<Node>, start: nat): (kept: seq<nat>)
    requires forall k :: 0 <= k < |leaves| ==> leaves[k] < |nodes|
    ensures forall k :: 0 <= k < |kept| ==> kept[k] in leaves && nodes[kept[k]].column >= start
    ensures forall x :: x in leaves && nodes[x].column >= start ==> x in kept
  {
    if leaves == [] then []
    else
      var last := leaves[|leaves| - 1];
      Swept(leaves[..|leaves| - 1], nodes, start) + (if nodes[last].column >= start then [last] else [])
  }

  lemma LenPrefixes(nodes: seq<Node>, x: Node)
    requires Rooted(nodes) && Rooted(nodes + [x])
    ensures forall i :: 0 <= i < |nodes| ==> Len(nodes + [x], i) == Len(nodes, i)
    ensures forall leaf, i: nat :: 0 <= leaf < |nodes| ==> OnPath(nodes + [x], leaf, i) == OnPath(nodes, leaf, i)
  {
    forall i | 0 <= i < |nodes| ensures Len(nodes + [x], i) == Len(nodes, i) {
      LenPrefix(nodes, x, i);
    }
    forall leaf, i: nat | 0 <= leaf < |nodes| ensures OnPath(nodes + [x], leaf, i) == OnPath(nodes, leaf, i) {
      OnPathPrefix(nodes, x, leaf, i);
    }
  }

  /** Appending a node linked to its best parent keeps the forest and gives it the longest chain. */
  lemma NewNodeExtends(nodes: seq<Node>, x: Node, best: Option<nat>)
    requires Forest(nodes) && forall i :: 0 <= i < |nodes| ==> Dominates(nodes, i)
    requires forall i :: 0 <= i < |nodes| ==> nodes[i].row < x.row && nodes[i].column != x.column
    requires best.Some? ==> best.value < |nodes| && nodes[best.value].column < x.column
    requires x.parent == best
    requires best.None? ==> x.rowDistance == x.row && x.columnDistance == x.column && x.distance == x.row + x.column + 1
    requires best.Some? ==>
      && x.rowDistance == x.row - (nodes[best.value].row + 1)
      && x.columnDistance == x.column - (nodes[best.value].column + 1)
      && x.distance == x.row + x.column - Len(nodes, best.value) + 1
    requires forall j: nat :: j < |nodes| && nodes[j].column < x.column ==> best.Some? && Len(nodes, j) <= Len(nodes, best.value)
    ensures Forest(nodes + [x]) && forall i :: 0 <= i <= |nodes| ==> Dominates(nodes + [x], i)
  {
    var all := nodes + [x];
    assert Rooted(all);
    LenPrefixes(nodes, x);
    forall i | 0 <= i < |all| ensures Linked(all, i) && Dominates(all, i) {
      if i < |nodes| {
        assert Linked(nodes, i) && Dominates(nodes, i);
      }
    }
  }

  /** The state after a node was added: its leaves, and what is left of them if its column closes a gap. */
  lemma NodeAdded(nodes: seq<Node>, leaves: seq<nat>, x: Node, best: Option<nat>, bestDistance: int, eraseAt: Option<nat>, start: nat)
    requires InOrder(nodes, leaves) && Represented(nodes, leaves, start) && x.column >= start
    requires forall i :: 0 <= i < |nodes| ==> nodes[i].row < x.row && nodes[i].column != x.column
    requires best.None? ==> bestDistance == x.row + x.column + 1
    requires best.Some? ==> best.value < |nodes| && Eligible(nodes, best.value, x.row, x.column)
    requires best.Some? ==> bestDistance == x.row + x.column - Len(nodes, best.value)
    requires forall j: nat :: j < |nodes| && nodes[j].column < x.column ==> best.Some? && Len(nodes, j) <= Len(nodes, best.value)
    requires eraseAt.Some? ==> eraseAt.value < |leaves| && best == Some(leaves[eraseAt.value])
    requires x == MatchNode(nodes, x.row, x.column, best, bestDistance)
    ensures var all, now := nodes + [x], NewLeaves(leaves, |nodes|, eraseAt);
      && InOrder(all, now) && Represented(all, now, start) && now != [] && now[|now| - 1] == |nodes|
      && (forall k :: 0 <= k < |now| ==> now[k] < |all|)
      && (x.column == start ==>
        && InOrder(all, Swept(now, all, start)) && Represented(all, Swept(now, all, start), start + 1)
        && Swept(now, all, start) != [] && Swept(now, all, start)[|Swept(now, all, start)| - 1] == |nodes|)
  {
    var all, now := nodes + [x], NewLeaves(leaves, |nodes|, eraseAt);
    NewNodeExtends(nodes, x, best);
    LeavesKept(nodes, x, leaves, eraseAt);
    forall k | 0 <= k < |now| ensures now[k] < |all| {
      assert now[k] in now;
    }
    KeepsRepresented(nodes, leaves, x, now, start);
    SweptEnds(now, all, start);
  }

  lemma SweptEnds(leaves: seq<nat>, nodes: seq<Node>, start: nat)
    requires leaves != [] && forall k :: 0 <= k < |leaves| ==> leaves[k] < |nodes|
    ensures nodes[leaves[|leaves| - 1]].column >= start ==>
      Swept(leaves, nodes, start) != [] && Swept(leaves, nodes, start)[|Swept(leaves, nodes, start)| - 1] == leaves[|leaves| - 1]
    ensures forall k :: 0 <= k < |Swept(leaves, nodes, start)| ==> Swept(leaves, nodes, start)[k] < |nodes|
  {
    forall k | 0 <= k < |Swept(leaves, nodes, start)| ensures Swept(leaves, nodes, start)[k] < |nodes| {
      assert Swept(leaves, nodes, start)[k] in leaves;
    }
  }

  lemma LeafReachable(nodes: seq<Node>, leaves: seq<nat>, leaf: nat)
    requires Rooted(nodes) && forall k :: 0 <= k < |leaves| ==> leaves[k] < |nodes|
    requires leaf in leaves
    ensures Reachable(nodes, leaves, leaf)
  {
    var k :| 0 <= k < |leaves| && leaves[k] == leaf;
    assert OnPath(nodes, leaves[k], leaf);
  }

  /** Replacing a parent leaf by its child loses no chain. */
  lemma KeepsStanding(nodes: seq<Node>, leaves: seq<nat>, x: Node, now: seq<nat>, j: nat, c: nat)
    requires Rooted(nodes) && Rooted(nodes + [x])
    requires forall k :: 0 <= k < |leaves| ==> leaves[k] < |nodes|
    requires forall k :: 0 <= k < |now| ==> now[k] <= |nodes|
    requires |nodes| in now
    requires forall k :: 0 <= k < |leaves| ==> leaves[k] in now || OnPath(nodes + [x], |nodes|, leaves[k])
    requires j < |nodes| && Stands(nodes, leaves, j, c)
    ensures Stands(nodes + [x], now, j, c)
  {
    var all := nodes + [x];
    LenPrefixes(nodes, x);
    LeafReachable(all, now, |nodes|);
    var y :| 0 <= y < |nodes| && Reachable(nodes, leaves, y) && nodes[y].column < c && Len(nodes, y) >= Len(nodes, j);
    var k :| 0 <= k < |leaves| && OnPath(nodes, leaves[k], y);
    if leaves[k] in now {
      LeafReachable(all, now, leaves[k]);
    } else {
      StillReachable(all, now, |nodes|, leaves[k]);
    }
    StillReachable(all, now, leaves[k], y);
  }

  lemma SweptIsShorter(all: seq<Node>, start: nat, last: nat, leaf: nat, y: nat)
    requires Forest(all) && last == |all| - 1 && all[last].column == start && Dominates(all, last)
    requires leaf < |all| && all[leaf].column < start && OnPath(all, leaf, y)
    ensures Len(all, y) < Len(all, last)
  {
    PathShrinks(all, leaf, y);
  }

  /** Sweeping drops only leaves whose chains the new node, in the smallest open column, outdoes. */
  lemma SweepKeepsStanding(all: seq<Node>, now: seq<nat>, start: nat, last: nat, j: nat, c: nat)
    requires Forest(all) && last == |all| - 1 && all[last].column == start && Dominates(all, last)
    requires forall k :: 0 <= k < |now| ==> now[k] < |all|
    requires last in now && j < |all| && c > start && Stands(all, now, j, c)
    ensures Stands(all, Swept(now, all, start), j, c)
  {
    var swept := Swept(now, all, start);
    LeafReachable(all, swept, last);
    var y :| 0 <= y < |all| && Reachable(all, now, y) && all[y].column < c && Len(all, y) >= Len(all, j);
    var k :| 0 <= k < |now| && OnPath(all, now[k], y);
    if now[k] in swept {
      LeafReachable(all, swept, now[k]);
      StillReachable(all, swept, now[k], y);
    } else {
      SweptIsShorter(all, start, last, now[k], y);
    }
  }

  /** Neither replacing a parent leaf by its child nor sweeping loses a chain that is still needed. */
  lemma KeepsRepresented(nodes: seq<Node>, leaves: seq<nat>, x: Node, now: seq<nat>, start: nat)
    requires Forest(nodes) && Forest(nodes + [x])
    requires forall k :: 0 <= k < |leaves| ==> leaves[k] < |nodes|
    requires forall k :: 0 <= k < |now| ==> now[k] <= |nodes|
    requires Represented(nodes, leaves, start) && x.column >= start
    requires forall j :: 0 <= j < |nodes| ==> nodes[j].column != x.column
    requires Dominates(nodes + [x], |nodes|)
    requires |nodes| in now
    requires forall k :: 0 <= k < |leaves| ==> leaves[k] in now || OnPath(nodes + [x], |nodes|, leaves[k])
    ensures Represented(nodes + [x], now, start)
    ensures x.column == start ==> Represented(nodes + [x], Swept(now, nodes + [x], start), start + 1)
  {
    var all := nodes + [x];
    LeafReachable(all, now, |nodes|);
    forall j, c | 0 <= j < |all| && c >= start && c > all[j].column ensures Stands(all, now, j, c) {
      if j < |nodes| {
        KeepsStanding(nodes, leaves, x, now, j, c);
      }
    }
    if x.column == start {
      forall j, c | 0 <= j < |all| && c >= start + 1 && c > all[j].column ensures Stands(all, Swept(now, all, start), j, c) {
        SweepKeepsStanding(all, now, start, |nodes|, j, c);
      }
    }
  }

  lemma StillReachable(nodes: seq<Node>, leaves: seq<nat>, leaf: nat, y: nat)
    requires Rooted(nodes) && leaf < |nodes| && forall k :: 0 <= k < |leaves| ==> leaves[k] < |nodes|
    requires OnPath(nodes, leaf, y) && Reachable(nodes, leaves, leaf)
    ensures Reachable(nodes, leaves, y)
  {
    var k :| 0 <= k < |leaves| && OnPath(nodes, leaves[k], leaf);
    OnPathTransitive(nodes, leaves[k], leaf, y);
  }

  lemma {:induction false} OnPathTransitive(nodes: seq<Node>, a: nat, b: nat, c: nat)
    requires Rooted(nodes) && a < |nodes| && b < |nodes| && OnPath(nodes, a, b) && OnPath(nodes, b, c)
    ensures OnPath(nodes, a, c)
  {
    if a != b {
      OnPathTransitive(nodes, nodes[a].parent.value, b, c);
    }
  }

  lemma {:induction false} OnPathExtends(nodes: seq<Node>, leaf: nat, i: nat)
    requires Rooted(nodes) && leaf < |nodes| && i < |nodes| && OnPath(nodes, leaf, i)
    ensures nodes[i].parent.Some? ==> OnPath(nodes, leaf, nodes[i].parent.value)
  {
    if leaf != i {
      OnPathExtends(nodes, nodes[leaf].parent.value, i);
    }
  }
}
