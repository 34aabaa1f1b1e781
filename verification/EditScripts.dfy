/**
  Edit scripts between the clock order and the observed order of one epoch.

  A script is read from left to right.  Its Ignore and Remove entries spell the clock order
  0, 1, .., n-1; its Ignore and Add entries spell the observed order.  The recorder keeps only
  the pairs (id, delay) of Moves: one for every id that has a Remove and an Add entry.
 */
module EditScripts {
  import opened Collections

  datatype Option<+T> = None | Some(value: T)

  /** The source's EDIT_IGNORE, EDIT_ADD and EDIT_REMOVE. */
  datatype Kind = Ignore | Add | Remove

  datatype Edit = Edit(id: nat, kind: Kind)

  /** One element of the record: remove `id`, advance by `delay`, insert `id` again. */
  datatype Move = Move(id: nat, delay: int)

  // ----- permutations -----

  /** `p[i]` is the clock order of the message observed at position i. */
  ghost predicate IsPermutation(p: seq<nat>) {
    && Distinct(p)
    && forall i :: 0 <= i < |p| ==> p[i] < |p|
  }

  function Iota(n: nat): (s: seq<nat>)
    ensures |s| == n && forall i :: 0 <= i < n ==> s[i] == i
  {
    seq(n, i requires 0 <= i < n => i)
  }

  lemma {:induction false} SubsetOfRangeSize(s: set<nat>, n: nat)
    requires forall x :: x in s ==> x < n
    ensures |s| <= n
  {
    if n == 0 {
      assert s == {};
    } else {
      SubsetOfRangeSize(s - {n - 1}, n - 1);
    }
  }

  ghost function Elements(p: seq<nat>): set<nat> {
    set x | x in p
  }

  lemma {:induction false} DistinctSetSize(p: seq<nat>)
    requires Distinct(p)
    ensures |Elements(p)| == |p|
  {
    if p == [] {
      assert Elements(p) == {};
    } else {
      var front, last := p[..|p| - 1], p[|p| - 1];
      DistinctSetSize(front);
      assert p == front + [last];
      assert Elements(p) == Elements(front) + {last};
      assert last !in Elements(front);
    }
  }

  /** The pigeonhole: a permutation misses no id. */
  lemma PermutationIsOnto(p: seq<nat>, v: nat)
    requires IsPermutation(p) && v < |p|
    ensures v in p
  {
    if v !in p {
      DistinctSetSize(p);
      SubsetOfRangeSize(Elements(p) + {v}, |p|);
    }
  }

  // ----- reading a script -----

  /** The ids of the entries that satisfy `keep`, in order. */
  ghost function Select(s: seq<Edit>, keep: Edit -> bool): seq<nat> {
    if s == [] then []
    else Select(s[..|s| - 1], keep) + (if keep(s[|s| - 1]) then [s[|s| - 1].id] else [])
  }

  lemma {:induction false} SelectConcat(a: seq<Edit>, b: seq<Edit>, keep: Edit -> bool)
    ensures Select(a + b, keep) == Select(a, keep) + Select(b, keep)
  {
    if b == [] {
      assert a + b == a;
    } else {
      var last := b[|b| - 1];
      SelectConcat(a, b[..|b| - 1], keep);
      assert (a + b)[..|a + b| - 1] == a + b[..|b| - 1];
      var tail := if keep(last) then [last.id] else [];
      assert Select(a, keep) + (Select(b[..|b| - 1], keep) + tail) == Select(a, keep) + Select(b[..|b| - 1], keep) + tail;
    }
  }

  lemma {:induction false} SelectAgrees(s: seq<Edit>, f: Edit -> bool, g: Edit -> bool)
    requires forall k :: 0 <= k < |s| ==> f(s[k]) == g(s[k])
    ensures Select(s, f) == Select(s, g)
  {
    if s != [] {
      SelectAgrees(s[..|s| - 1], f, g);
    }
  }

  lemma {:induction false} SelectHas(s: seq<Edit>, keep: Edit -> bool, id: nat)
    ensures id in Select(s, keep) <==> exists k :: 0 <= k < |s| && s[k].id == id && keep(s[k])
  {
    if s != [] {
      var front := s[..|s| - 1];
      SelectHas(front, keep, id);
      if id in Select(front, keep) {
        var k :| 0 <= k < |front| && front[k].id == id && keep(front[k]);
        assert s[k].id == id && keep(s[k]);
      }
      forall k | 0 <= k < |s| && s[k].id == id && keep(s[k]) ensures id in Select(s, keep) {
        if k < |front| { assert front[k].id == id && keep(front[k]); }
      }
    }
  }

  lemma SelectDistinct(s: seq<Edit>, keep: Edit -> bool, i: nat, j: nat)
    requires i < j < |s| && keep(s[i]) && keep(s[j])
    requires Distinct(Select(s, keep))
    ensures s[i].id != s[j].id
  {
    var a, b := s[..j], s[j..];
    assert s == a + b && a[i] == s[i] && b[0] == s[j];
    SelectConcat(a, b, keep);
    SelectHas(a, keep, s[i].id);
    SelectHas(b, keep, s[j].id);
    DistinctHalves(Select(a, keep), Select(b, keep), s[i].id, s[j].id);
  }

  lemma DistinctHalves(a: seq<nat>, b: seq<nat>, u: nat, v: nat)
    requires Distinct(a + b) && u in a && v in b
    ensures u != v
  {
    var x :| 0 <= x < |a| && a[x] == u;
    var y :| 0 <= y < |b| && b[y] == v;
    assert (a + b)[x] == u && (a + b)[|a| + y] == v;
  }

  /** An Ignore is always in the decoder's list, a Remove until its id moved, an Add from then on. */
  predicate Kept(e: Edit, moved: set<nat>) {
    match e.kind
    case Ignore => true
    case Remove => e.id !in moved
    case Add => e.id in moved
  }

  ghost function Read(s: seq<Edit>, moved: set<nat>): seq<nat> {
    Select(s, e => Kept(e, moved))
  }

  /** The ids of the Ignore and Remove entries: the clock order. */
  ghost function ClockSide(s: seq<Edit>): seq<nat> {
    Select(s, (e: Edit) => e.kind != Add)
  }

  /** The ids of the Ignore and Add entries: the observed order. */
  ghost function ObservedSide(s: seq<Edit>): seq<nat> {
    Select(s, (e: Edit) => e.kind != Remove)
  }

  /** What the compressor must produce for the observed order p. */
  ghost predicate Explains(s: seq<Edit>, p: seq<nat>) {
    ClockSide(s) == Iota(|p|) && ObservedSide(s) == p
  }

  // ----- entries of one id -----

  /** No id has two entries on the same side. */
  ghost predicate OncePerSide(s: seq<Edit>) {
    forall i, j :: 0 <= i < |s| && 0 <= j < |s| && i != j && s[i].id == s[j].id ==>
      (s[i].kind == Remove && s[j].kind == Add) || (s[i].kind == Add && s[j].kind == Remove)
  }

  lemma NoThirdEntry(s: seq<Edit>, i: nat, j: nat, k: nat)
    requires i < |s| && j < |s| && k < |s| && i != j && k != i && k != j
    requires OncePerSide(s) && s[i].id == s[j].id
    ensures s[k].id != s[i].id
  {
  }

  /** Every Remove has its Add and every Add its Remove. */
  ghost predicate Paired(s: seq<Edit>) {
    forall i :: 0 <= i < |s| && s[i].kind != Ignore ==>
      exists j :: 0 <= j < |s| && j != i && s[j].id == s[i].id
  }

  /** Each id is either one Ignore entry, or one Remove and one Add entry. */
  lemma ExplainsPairsEntries(s: seq<Edit>, p: seq<nat>)
    requires IsPermutation(p) && Explains(s, p)
    ensures OncePerSide(s) && Paired(s)
  {
    var clock, observed := (e: Edit) => e.kind != Add, (e: Edit) => e.kind != Remove;
    forall i, j | 0 <= i < |s| && 0 <= j < |s| && i != j && s[i].id == s[j].id
      ensures (s[i].kind == Remove && s[j].kind == Add) || (s[i].kind == Add && s[j].kind == Remove)
    {
      var lo, hi := if i < j then i else j, if i < j then j else i;
      if clock(s[i]) && clock(s[j]) { SelectDistinct(s, clock, lo, hi); }
      if observed(s[i]) && observed(s[j]) { SelectDistinct(s, observed, lo, hi); }
    }
    forall i | 0 <= i < |s| && s[i].kind != Ignore
      ensures exists j :: 0 <= j < |s| && j != i && s[j].id == s[i].id
    {
      var id := s[i].id;
      SelectHas(s, clock, id);
      SelectHas(s, observed, id);
      assert id in ClockSide(s) || id in ObservedSide(s);
      if s[i].kind == Remove {
        assert id in Iota(|p|);
        PermutationIsOnto(p, id);
        var j :| 0 <= j < |s| && s[j].id == id && observed(s[j]);
        assert j != i;
      } else {
        assert id < |p| && Iota(|p|)[id] == id;
        var j :| 0 <= j < |s| && s[j].id == id && clock(s[j]);
        assert j != i;
      }
    }
  }

  // ----- the moves the compressor emits -----

  /** pending_delta_umap after the first t entries: ids met once, with the position where. */
  function Pending(s: seq<Edit>, t: nat): map<nat, nat>
    requires t <= |s|
  {
    if t == 0 then map[]
    else
      var before, e := Pending(s, t - 1), s[t - 1];
      if e.kind == Ignore then before
      else if e.id in before then before - {e.id}
      else before[e.id := t - 1]
  }

  /** The compressor's test for an entry between the two entries of an id. */
  predicate Counts(e: Edit, pending: map<nat, nat>) {
    match e.kind
    case Ignore => true
    case Remove => e.id in pending
    case Add => e.id !in pending
  }

  function CountBetween(s: seq<Edit>, pending: map<nat, nat>, from: nat, to: nat): nat
    requires from <= to <= |s|
  {
    if from == to then 0
    else CountBetween(s, pending, from, to - 1) + (if Counts(s[to - 1], pending) then 1 else 0)
  }

  /** Entry t is the second one of its id. */
  predicate Completes(s: seq<Edit>, t: nat)
    requires t < |s|
  {
    s[t].kind != Ignore && s[t].id in Pending(s, t)
  }

  /** The move emitted at the second entry of an id; an id that is added first moves backwards. */
  function MoveAt(s: seq<Edit>, t: nat): Move
    requires t < |s| && Completes(s, t)
  {
    PendingRange(s, t);
    var delta: int := CountBetween(s, Pending(s, t), Pending(s, t)[s[t].id] + 1, t);
    Move(s[t].id, if s[t].kind == Remove then -delta else delta)
  }

  /** The moves emitted while the first t entries are scanned. */
  function MovesUpTo(s: seq<Edit>, t: nat): seq<Move>
    requires t <= |s|
  {
    if t == 0 then []
    else if Completes(s, t - 1) then MovesUpTo(s, t - 1) + [MoveAt(s, t - 1)]
    else MovesUpTo(s, t - 1)
  }

  function Moves(s: seq<Edit>): seq<Move> {
    MovesUpTo(s, |s|)
  }

  lemma {:induction false} PendingRange(s: seq<Edit>, t: nat)
    requires t <= |s|
    ensures forall id :: id in Pending(s, t) ==>
      Pending(s, t)[id] < t && s[Pending(s, t)[id]].id == id && s[Pending(s, t)[id]].kind != Ignore
  {
    if t > 0 {
      PendingRange(s, t - 1);
    }
  }

  /** Ids whose two entries lie before t: the ones already moved. */
  ghost function MovedBy(s: seq<Edit>, t: nat): set<nat>
    requires t <= |s|
  {
    set i | 0 <= i < t && s[i].kind != Ignore && s[i].id !in Pending(s, t) :: s[i].id
  }

  ghost predicate MetOnce(s: seq<Edit>, t: nat, i: nat)
    requires i < t <= |s|
  {
    forall j :: 0 <= j < t && j != i ==> s[j].id != s[i].id
  }

  /** In a script where every id has at most two entries, an id is pending iff it was met exactly once. */
  lemma {:induction false} PendingMeansMetOnce(s: seq<Edit>, t: nat, i: nat)
    requires i < t <= |s| && OncePerSide(s) && s[i].kind != Ignore
    ensures s[i].id in Pending(s, t) <==> MetOnce(s, t, i)
    decreases t
  {
    var e := s[t - 1];
    if i < t - 1 {
      PendingMeansMetOnce(s, t - 1, i);
      if e.id == s[i].id {
        forall j | 0 <= j < t - 1 && j != i ensures s[j].id != s[i].id {
          NoThirdEntry(s, i, t - 1, j);
        }
      }
    } else if e.id in Pending(s, t - 1) {
      PendingRange(s, t - 1);
      assert s[Pending(s, t - 1)[e.id]].id == e.id;
    } else {
      forall j | 0 <= j < t - 1 && s[j].id == e.id ensures false {
        EarlierEntryIsPending(s, t, j);
      }
    }
  }

  lemma EarlierEntryIsPending(s: seq<Edit>, t: nat, j: nat)
    requires j < t - 1 < |s| && OncePerSide(s) && s[t - 1].kind != Ignore && s[j].id == s[t - 1].id
    ensures s[j].id in Pending(s, t - 1)
    decreases t, 0
  {
    assert s[j].kind != Ignore;
    PendingMeansMetOnce(s, t - 1, j);
    forall k | 0 <= k < t - 1 && k != j ensures s[k].id != s[j].id {
      NoThirdEntry(s, j, t - 1, k);
    }
  }

  lemma PendingEntries(s: seq<Edit>, t: nat)
    requires t <= |s| && OncePerSide(s)
    ensures forall i :: 0 <= i < t && s[i].kind != Ignore ==>
      (s[i].id in Pending(s, t) <==> forall j :: 0 <= j < t && j != i ==> s[j].id != s[i].id)
  {
    forall i | 0 <= i < t && s[i].kind != Ignore ensures s[i].id in Pending(s, t) <==> MetOnce(s, t, i) {
      PendingMeansMetOnce(s, t, i);
    }
  }

  /** "The pending map ends empty." */
  lemma PendingEndsEmpty(s: seq<Edit>)
    requires OncePerSide(s) && Paired(s)
    ensures Pending(s, |s|) == map[]
  {
    PendingRange(s, |s|);
    forall i | 0 <= i < |s| && s[i].kind != Ignore ensures s[i].id !in Pending(s, |s|) {
      PendingMeansMetOnce(s, |s|, i);
      var j :| 0 <= j < |s| && j != i && s[j].id == s[i].id;
    }
    assert Pending(s, |s|).Keys == {};
  }

  // ----- the decoder's list -----

  function Find(list: seq<nat>, id: nat): (k: nat)
    ensures k <= |list|
    ensures id in list ==> k < |list| && list[k] == id
    ensures id !in list ==> k == |list|
    ensures forall j :: 0 <= j < k ==> list[j] != id
  {
    if list == [] then 0 else if list[0] == id then 0 else 1 + Find(list[1..], id)
  }

  /** erase, advance, insert; None when the element is missing or the iterator leaves the list. */
  function ApplyMove(list: seq<nat>, m: Move): Option<seq<nat>> {
    if m.id !in list then None
    else
      var k := Find(list, m.id);
      var erased := list[..k] + list[k + 1..];
      var target := k + m.delay;
      if 0 <= target <= |erased| then Some(erased[..target] + [m.id] + erased[target..]) else None
  }

  /** A move succeeds if the id stays in the list; it shifts the id by its delay and leaves the order of the others alone. */
  lemma MoveShiftsByDelay(list: seq<nat>, m: Move)
    requires m.id in list
    ensures ApplyMove(list, m).Some? <==> 0 <= Find(list, m.id) + m.delay < |list|
    ensures ApplyMove(list, m).Some? ==>
      var next, from, to := ApplyMove(list, m).value, Find(list, m.id), Find(list, m.id) + m.delay;
      |next| == |list| && next[to] == m.id && next[..to] + next[to + 1..] == list[..from] + list[from + 1..]
  {
    var from := Find(list, m.id);
    var erased, to := list[..from] + list[from + 1..], from + m.delay;
    if 0 <= to <= |erased| {
      var next := erased[..to] + [m.id] + erased[to..];
      assert next[..to] == erased[..to] && next[to + 1..] == erased[to..];
      assert erased[..to] + erased[to..] == erased;
    }
  }

  function ApplyMoves(list: seq<nat>, moves: seq<Move>): Option<seq<nat>>
    decreases |moves|
  {
    if moves == [] then Some(list)
    else
      match ApplyMove(list, moves[0])
      case None => None
      case Some(next) => ApplyMoves(next, moves[1..])
  }

  lemma {:induction false} ApplyMovesSnoc(list: seq<nat>, moves: seq<Move>, m: Move)
    ensures ApplyMoves(list, moves + [m]) ==
      match ApplyMoves(list, moves) { case None => None case Some(next) => ApplyMove(next, m) }
    decreases |moves|
  {
    if moves == [] {
      assert moves + [m] == [m];
    } else {
      assert (moves + [m])[1..] == moves[1..] + [m];
      match ApplyMove(list, moves[0])
      case None =>
      case Some(next) => ApplyMovesSnoc(next, moves[1..], m);
    }
  }

  lemma {:induction false} CountBetweenReads(s: seq<Edit>, t: nat, from: nat, to: nat)
    requires from <= to <= t <= |s| && OncePerSide(s)
    ensures CountBetween(s, Pending(s, t), from, to) == |Read(s[from..to], MovedBy(s, t))|
  {
    if from < to {
      CountBetweenReads(s, t, from, to - 1);
      assert s[from..to][..to - 1 - from] == s[from..to - 1];
      assert Counts(s[to - 1], Pending(s, t)) == Kept(s[to - 1], MovedBy(s, t)) by {
        if s[to - 1].kind != Ignore {
          assert s[to - 1].id in MovedBy(s, t) <==> s[to - 1].id !in Pending(s, t);
        }
      }
    }
  }

  /** Moving one element of a list cut as x + [id] + y + z or x + y + [id] + z. */
  lemma ApplyMoveAt(x: seq<nat>, y: seq<nat>, z: seq<nat>, id: nat)
    requires id !in x && id !in y && id !in z
    ensures ApplyMove(x + [id] + y + z, Move(id, |y|)) == Some(x + y + [id] + z)
    ensures ApplyMove(x + y + [id] + z, Move(id, -|y|)) == Some(x + [id] + y + z)
  {
    ErasedAt(x, y + z, id);
    assert x + [id] + y + z == x + [id] + (y + z);
    assert (x + (y + z))[..|x| + |y|] == x + y && (x + (y + z))[|x| + |y|..] == z;
    ErasedAt(x + y, z, id);
    assert x + y + z == x + (y + z);
    assert (x + y + z)[..|x|] == x && (x + y + z)[|x|..] == y + z;
  }

  lemma ErasedAt(x: seq<nat>, z: seq<nat>, id: nat)
    requires id !in x
    ensures var a := x + [id] + z;
      Find(a, id) == |x| && a[..|x|] + a[|x| + 1..] == x + z
  {
    var a := x + [id] + z;
    assert a[|x|] == id;
    assert forall j :: 0 <= j < |x| ==> a[j] == x[j];
  }

  /** A piece of the script without entries of id reads the same before and after id moves. */
  lemma ReadElsewhere(part: seq<Edit>, moved: set<nat>, id: nat)
    requires forall k :: 0 <= k < |part| ==> part[k].id != id
    ensures id !in Read(part, moved) && Read(part, moved + {id}) == Read(part, moved)
  {
    SelectHas(part, e => Kept(e, moved), id);
    SelectAgrees(part, e => Kept(e, moved), e => Kept(e, moved + {id}));
  }

  /** What the script reads before and after id moves from its entry at a to its entry at t. */
  lemma ReadAroundMove(s: seq<Edit>, a: nat, t: nat, moved: set<nat>)
    requires a < t < |s| && OncePerSide(s) && s[a].id == s[t].id && s[a].id !in moved
    ensures var id := s[a].id;
      var x, y, z := Read(s[..a], moved), Read(s[a + 1..t], moved), Read(s[t + 1..], moved);
      && id !in x && id !in y && id !in z
      && Read(s, moved) == (if s[a].kind == Remove then x + [id] + y + z else x + y + [id] + z)
      && Read(s, moved + {id}) == (if s[a].kind == Remove then x + y + [id] + z else x + [id] + y + z)
  {
    var id := s[a].id;
    forall k | 0 <= k < |s| && k != a && k != t ensures s[k].id != id {
      NoThirdEntry(s, a, t, k);
    }
    ReadElsewhere(s[..a], moved, id);
    ReadElsewhere(s[a + 1..t], moved, id);
    ReadElsewhere(s[t + 1..], moved, id);
    ReadCut(s, a, t, moved);
    ReadCut(s, a, t, moved + {id});
    assert s[a].kind != s[t].kind;
  }

  lemma ReadCut(s: seq<Edit>, a: nat, t: nat, moved: set<nat>)
    requires a < t < |s|
    ensures var at := if Kept(s[a], moved) then [s[a].id] else [];
      var tt := if Kept(s[t], moved) then [s[t].id] else [];
      Read(s, moved) == Read(s[..a], moved) + at + Read(s[a + 1..t], moved) + tt + Read(s[t + 1..], moved)
  {
    var keep := e => Kept(e, moved);
    assert s[..t + 1][..t] == s[..t] && s[..a + 1][..a] == s[..a];
    assert s == s[..t + 1] + s[t + 1..];
    SelectConcat(s[..t + 1], s[t + 1..], keep);
    assert s[..t] == s[..a + 1] + s[a + 1..t];
    SelectConcat(s[..a + 1], s[a + 1..t], keep);
  }

  lemma MovedByStep(s: seq<Edit>, t: nat)
    requires t < |s| && OncePerSide(s)
    ensures MovedBy(s, t + 1) == if Completes(s, t) then MovedBy(s, t) + {s[t].id} else MovedBy(s, t)
    ensures Completes(s, t) ==> s[t].id !in MovedBy(s, t)
  {
    PendingRange(s, t);
    PendingEntries(s, t);
    PendingEntries(s, t + 1);
    var before, after := MovedBy(s, t), MovedBy(s, t + 1);
    if Completes(s, t) {
      var a := Pending(s, t)[s[t].id];
      assert s[a].id == s[t].id && s[a].id !in Pending(s, t + 1);
      assert s[t].id in after;
    }
    forall x | x in before ensures x in after {
      var i :| 0 <= i < t && s[i].kind != Ignore && s[i].id !in Pending(s, t) && s[i].id == x;
    }
  }

  /** Applying the move of entry t takes the list from before that entry to after it. */
  lemma MoveStep(s: seq<Edit>, t: nat)
    requires t < |s| && OncePerSide(s) && Completes(s, t)
    ensures ApplyMove(Read(s, MovedBy(s, t)), MoveAt(s, t)) == Some(Read(s, MovedBy(s, t) + {s[t].id}))
  {
    var id, moved := s[t].id, MovedBy(s, t);
    var a: nat := Pending(s, t)[id];
    assert a < t && s[a].id == id && s[a].kind != s[t].kind && id !in moved by {
      PendingRange(s, t);
      MovedByStep(s, t);
    }
    var x, y, z := Read(s[..a], moved), Read(s[a + 1..t], moved), Read(s[t + 1..], moved);
    assert MoveAt(s, t) == Move(id, if s[t].kind == Remove then -|y| else |y|) by {
      CountBetweenReads(s, t, a + 1, t);
    }
    ReadAroundMove(s, a, t, moved);
    ApplyMoveAt(x, y, z, id);
  }

  /** The decoder's list after the moves of the first t entries is the script read with those ids moved. */
  lemma {:induction false} DecoderListInvariant(s: seq<Edit>, t: nat)
    requires t <= |s| && OncePerSide(s)
    ensures ApplyMoves(ClockSide(s), MovesUpTo(s, t)) == Some(Read(s, MovedBy(s, t)))
  {
    if t == 0 {
      assert MovedBy(s, 0) == {};
      SelectAgrees(s, e => Kept(e, {}), (e: Edit) => e.kind != Add);
    } else {
      DecoderListInvariant(s, t - 1);
      MovedByStep(s, t - 1);
      if Completes(s, t - 1) {
        MoveStep(s, t - 1);
        ApplyMovesSnoc(ClockSide(s), MovesUpTo(s, t - 1), MoveAt(s, t - 1));
      }
    }
  }

  /** Round trip of the permutation codec: replaying the moves on 0..n-1 gives the observed order. */
  lemma MovesRebuildObservedOrder(s: seq<Edit>, p: seq<nat>)
    requires IsPermutation(p) && Explains(s, p)
    ensures ApplyMoves(Iota(|p|), Moves(s)) == Some(p)
  {
    ExplainsPairsEntries(s, p);
    DecoderListInvariant(s, |s|);
    PendingEndsEmpty(s);
    SelectAgrees(s, e => Kept(e, MovedBy(s, |s|)), (e: Edit) => e.kind != Remove);
  }

  // ----- how many moves -----

  function Ignores(s: seq<Edit>): nat {
    if s == [] then 0
    else Ignores(s[..|s| - 1]) + (if s[|s| - 1].kind == Ignore then 1 else 0)
  }

  lemma {:induction false} SideSizes(s: seq<Edit>)
    ensures |ClockSide(s)| + |ObservedSide(s)| == |s| + Ignores(s)
  {
    if s != [] {
      SideSizes(s[..|s| - 1]);
    }
  }

  lemma {:induction false} MovesBalance(s: seq<Edit>, t: nat)
    requires t <= |s|
    ensures t == Ignores(s[..t]) + 2 * |MovesUpTo(s, t)| + |Pending(s, t)|
  {
    if t > 0 {
      MovesBalance(s, t - 1);
      assert s[..t][..t - 1] == s[..t - 1];
      PendingSizes(Pending(s, t - 1), s[t - 1].id, t - 1);
    } else {
      assert s[..0] == [];
    }
  }

  lemma PendingSizes(pending: map<nat, nat>, id: nat, t: nat)
    ensures id in pending ==> |pending - {id}| == |pending| - 1
    ensures id !in pending ==> |pending[id := t]| == |pending| + 1
  {
    if id in pending {
      assert (pending - {id}).Keys == pending.Keys - {id};
    } else {
      assert pending[id := t].Keys == pending.Keys + {id};
    }
  }

  /** One move for every id that the script does not ignore. */
  lemma MoveCount(s: seq<Edit>, p: seq<nat>)
    requires IsPermutation(p) && Explains(s, p)
    ensures |Moves(s)| == |p| - Ignores(s)
  {
    ExplainsPairsEntries(s, p);
    PendingEndsEmpty(s);
    MovesBalance(s, |s|);
    SideSizes(s);
    assert s[..|s|] == s;
  }

  /** Every id moves at most once, so no iterator is used after its element was erased. */
  lemma {:induction false} MovesAreDistinct(s: seq<Edit>, t: nat)
    requires t <= |s| && OncePerSide(s)
    ensures forall k :: 0 <= k < |MovesUpTo(s, t)| ==> MovesUpTo(s, t)[k].id in MovedBy(s, t)
    ensures forall j, k :: 0 <= j < k < |MovesUpTo(s, t)| ==> MovesUpTo(s, t)[j].id != MovesUpTo(s, t)[k].id
  {
    if t > 0 {
      MovesAreDistinct(s, t - 1);
      MovedByStep(s, t - 1);
    }
  }
}
