/**
  Matching sets of messages: every message id, a (communicator, tag) pair, gets the set of the calls
  that use it.  The calls come in the order of an unordered map.
 */
module MatchingSets {
  import opened EditScripts

  /** A receiving call: the matching set it belongs to and the message ids it uses. */
  datatype Caller = Caller(setId: int, msgs: seq<nat>)

  /** change_matching_set_id: every message of the old set moves to the new one. */
  function Relabel(sets: map<nat, int>, oldId: int, newId: int): map<nat, int> {
    map m | m in sets :: if sets[m] == oldId then newId else sets[m]
  }

  /** One message of a call; None is the error that the source raises unless it encodes in REP mode. */
  function AssignOne(rep: bool, sets: map<nat, int>, msg: nat, setId: int): Option<map<nat, int>> {
    if msg in sets && sets[msg] != setId then
      if rep then Some(Relabel(sets, sets[msg], setId)[msg := setId]) else None
    else Some(sets[msg := setId])
  }

  function AssignMsgs(rep: bool, sets: map<nat, int>, msgs: seq<nat>, setId: int): Option<map<nat, int>> {
    if msgs == [] then Some(sets)
    else
      match AssignMsgs(rep, sets, msgs[..|msgs| - 1], setId)
      case None => None
      case Some(before) => AssignOne(rep, before, msgs[|msgs| - 1], setId)
  }

  function AssignCalls(rep: bool, sets: map<nat, int>, calls: seq<Caller>): Option<map<nat, int>> {
    if calls == [] then Some(sets)
    else
      match AssignCalls(rep, sets, calls[..|calls| - 1])
      case None => None
      case Some(before) => AssignMsgs(rep, before, calls[|calls| - 1].msgs, calls[|calls| - 1].setId)
  }

  // ----- what relabelling keeps -----

  /** Messages of one set stay in one set. */
  ghost predicate Coarsens(before: map<nat, int>, after: map<nat, int>) {
    && (forall a :: a in before ==> a in after)
    && (forall a, b :: a in before && b in before && before[a] == before[b] ==> after[a] == after[b])
  }

  ghost predicate OneSet(sets: map<nat, int>, msgs: seq<nat>) {
    forall a, b :: a in msgs && b in msgs ==> a in sets && b in sets && sets[a] == sets[b]
  }

  lemma AssignOneCoarsens(rep: bool, sets: map<nat, int>, msg: nat, setId: int)
    requires AssignOne(rep, sets, msg, setId).Some?
    ensures Coarsens(sets, AssignOne(rep, sets, msg, setId).value)
    ensures msg in AssignOne(rep, sets, msg, setId).value && AssignOne(rep, sets, msg, setId).value[msg] == setId
    ensures forall m :: m in sets && sets[m] == setId ==> AssignOne(rep, sets, msg, setId).value[m] == setId
  {
  }

  /** Afterwards every message of the call is in the set of the call. */
  lemma {:induction false} AssignMsgsCoarsens(rep: bool, sets: map<nat, int>, msgs: seq<nat>, setId: int)
    requires AssignMsgs(rep, sets, msgs, setId).Some?
    ensures Coarsens(sets, AssignMsgs(rep, sets, msgs, setId).value)
    ensures forall m :: m in msgs ==>
      m in AssignMsgs(rep, sets, msgs, setId).value && AssignMsgs(rep, sets, msgs, setId).value[m] == setId
  {
    if msgs != [] {
      var front, last := msgs[..|msgs| - 1], msgs[|msgs| - 1];
      AssignMsgsCoarsens(rep, sets, front, setId);
      AssignOneCoarsens(rep, AssignMsgs(rep, sets, front, setId).value, last, setId);
      assert forall m :: m in msgs ==> m in front || m == last;
    }
  }

  lemma StaysOneSet(before: map<nat, int>, after: map<nat, int>, msgs: seq<nat>)
    requires Coarsens(before, after) && OneSet(before, msgs)
    ensures OneSet(after, msgs)
  {
  }

  /**
    For every order of the calls: in the end all messages that any one call uses are in a single set,
    and messages that were in one set before still are.
   */
  lemma {:induction false} CallsShareOneSet(rep: bool, sets: map<nat, int>, calls: seq<Caller>)
    requires AssignCalls(rep, sets, calls).Some?
    ensures Coarsens(sets, AssignCalls(rep, sets, calls).value)
    ensures forall i :: 0 <= i < |calls| ==> OneSet(AssignCalls(rep, sets, calls).value, calls[i].msgs)
  {
    if calls != [] {
      var front, last := calls[..|calls| - 1], calls[|calls| - 1];
      CallsShareOneSet(rep, sets, front);
      var before, after := AssignCalls(rep, sets, front).value, AssignCalls(rep, sets, calls).value;
      AssignMsgsCoarsens(rep, before, last.msgs, last.setId);
      forall i | 0 <= i < |calls| ensures OneSet(after, calls[i].msgs) {
        if i < |front| {
          StaysOneSet(before, after, front[i].msgs);
        }
      }
    }
  }

  // ----- what relabelling does not merge -----

  /** A colouring of messages and sets in which every call has one colour. */
  ghost predicate OneColour(calls: seq<Caller>, ofMsg: nat -> int, ofSet: int -> int) {
    forall i, m :: 0 <= i < |calls| && m in calls[i].msgs ==> ofMsg(m) == ofSet(calls[i].setId)
  }

  ghost predicate Coloured(sets: map<nat, int>, ofMsg: nat -> int, ofSet: int -> int) {
    forall m :: m in sets ==> ofMsg(m) == ofSet(sets[m])
  }

  lemma {:induction false} AssignMsgsColoured(rep: bool, sets: map<nat, int>, msgs: seq<nat>, setId: int, ofMsg: nat -> int, ofSet: int -> int)
    requires AssignMsgs(rep, sets, msgs, setId).Some? && Coloured(sets, ofMsg, ofSet)
    requires forall m :: m in msgs ==> ofMsg(m) == ofSet(setId)
    ensures Coloured(AssignMsgs(rep, sets, msgs, setId).value, ofMsg, ofSet)
    ensures forall m :: m in AssignMsgs(rep, sets, msgs, setId).value <==> m in sets || m in msgs
  {
    if msgs != [] {
      var front, last := msgs[..|msgs| - 1], msgs[|msgs| - 1];
      AssignMsgsColoured(rep, sets, front, setId, ofMsg, ofSet);
      assert forall m :: m in msgs <==> m in front || m == last;
    }
  }

  /**
    Messages are merged only as far as the calls demand: whatever colouring gives every call one
    colour, a message has the colour of the set in which it ends, so messages of one set are connected
    by calls and their sets.  And the calls' messages, and no others, are assigned.
   */
  lemma {:induction false} OnlyConnectedMerge(rep: bool, calls: seq<Caller>, ofMsg: nat -> int, ofSet: int -> int)
    requires AssignCalls(rep, map[], calls).Some? && OneColour(calls, ofMsg, ofSet)
    ensures Coloured(AssignCalls(rep, map[], calls).value, ofMsg, ofSet)
    ensures forall m :: m in AssignCalls(rep, map[], calls).value <==> exists i :: 0 <= i < |calls| && m in calls[i].msgs
  {
    if calls != [] {
      var n := |calls| - 1;
      var front, last := calls[..n], calls[n];
      assert forall i :: 0 <= i < n ==> front[i] == calls[i];
      OnlyConnectedMerge(rep, front, ofMsg, ofSet);
      AssignMsgsColoured(rep, AssignCalls(rep, map[], front).value, last.msgs, last.setId, ofMsg, ofSet);
      forall m ensures m in AssignCalls(rep, map[], calls).value <==> exists i :: 0 <= i < |calls| && m in calls[i].msgs {
        if i: nat :| i < n && m in front[i].msgs {
          assert m in calls[i].msgs;
        }
        if m in last.msgs {
          assert m in calls[n].msgs;
        }
      }
    }
  }

  /** In REP mode the assignment never fails. */
  lemma {:induction false} RepNeverFails(sets: map<nat, int>, calls: seq<Caller>)
    ensures AssignCalls(true, sets, calls).Some?
  {
    if calls != [] {
      var front, last := calls[..|calls| - 1], calls[|calls| - 1];
      RepNeverFails(sets, front);
      RepCallsSucceed(AssignCalls(true, sets, front).value, last.msgs, last.setId);
    }
  }

  lemma {:induction false} RepCallsSucceed(sets: map<nat, int>, msgs: seq<nat>, setId: int)
    ensures AssignMsgs(true, sets, msgs, setId).Some?
  {
    if msgs != [] {
      RepCallsSucceed(sets, msgs[..|msgs| - 1], setId);
    }
  }

  // ----- outside REP mode -----

  /** No two calls of different sets use the same message. */
  ghost predicate Consistent(calls: seq<Caller>) {
    forall i, j, m :: 0 <= i < |calls| && 0 <= j < |calls| && m in calls[i].msgs && m in calls[j].msgs ==> calls[i].setId == calls[j].setId
  }

  /** The map holds exactly the messages of the calls, each with the set of a call that uses it. */
  ghost predicate SetsOf(sets: map<nat, int>, calls: seq<Caller>) {
    && (forall i, m :: 0 <= i < |calls| && m in calls[i].msgs ==> m in sets && sets[m] == calls[i].setId)
    && (forall m :: m in sets ==> exists i :: 0 <= i < |calls| && m in calls[i].msgs)
  }

  lemma {:induction false} AssignWithoutRelabel(sets: map<nat, int>, msgs: seq<nat>, setId: int)
    ensures AssignMsgs(false, sets, msgs, setId).Some? <==> forall m :: m in msgs && m in sets ==> sets[m] == setId
    ensures AssignMsgs(false, sets, msgs, setId).Some? ==>
      AssignMsgs(false, sets, msgs, setId).value == sets + map m | m in msgs :: setId
  {
    if msgs != [] {
      var front, last := msgs[..|msgs| - 1], msgs[|msgs| - 1];
      AssignWithoutRelabel(sets, front, setId);
      assert forall m :: m in msgs <==> m in front || m == last;
    }
  }

  /**
    Outside REP mode the assignment succeeds, in every order of the calls, exactly if no message is
    used by calls of different sets; then every message has the set of each call that uses it.
   */
  lemma {:induction false} SucceedsIffConsistent(calls: seq<Caller>)
    ensures AssignCalls(false, map[], calls).Some? <==> Consistent(calls)
    ensures AssignCalls(false, map[], calls).Some? ==> SetsOf(AssignCalls(false, map[], calls).value, calls)
  {
    if calls != [] {
      var n := |calls| - 1;
      var front, last := calls[..n], calls[n];
      SucceedsIffConsistent(front);
      if AssignCalls(false, map[], front).Some? {
        var before := AssignCalls(false, map[], front).value;
        AssignWithoutRelabel(before, last.msgs, last.setId);
        ConsistentStep(front, last, before);
        assert calls == front + [last];
        if AssignCalls(false, map[], calls).Some? {
          SetsStep(front, last, before);
        }
      } else {
        assert !Consistent(calls) by {
          var i, j, m :| 0 <= i < n && 0 <= j < n && m in front[i].msgs && m in front[j].msgs && front[i].setId != front[j].setId;
          assert m in calls[i].msgs && m in calls[j].msgs;
        }
      }
    }
  }

  lemma ConsistentStep(front: seq<Caller>, last: Caller, before: map<nat, int>)
    requires Consistent(front) && SetsOf(before, front)
    ensures Consistent(front + [last]) <==> forall m :: m in last.msgs && m in before ==> before[m] == last.setId
  {
    var calls, n := front + [last], |front|;
    if Consistent(calls) {
      forall m | m in last.msgs && m in before ensures before[m] == last.setId {
        var i :| 0 <= i < n && m in front[i].msgs;
        assert m in calls[i].msgs && m in calls[n].msgs;
      }
    }
    if forall m :: m in last.msgs && m in before ==> before[m] == last.setId {
      forall i, j, m | 0 <= i <= n && 0 <= j <= n && m in calls[i].msgs && m in calls[j].msgs ensures calls[i].setId == calls[j].setId {
        assert i < n ==> calls[i] == front[i];
        assert j < n ==> calls[j] == front[j];
      }
    }
  }

  lemma SetsStep(front: seq<Caller>, last: Caller, before: map<nat, int>)
    requires SetsOf(before, front) && forall m :: m in last.msgs && m in before ==> before[m] == last.setId
    ensures SetsOf(before + map m | m in last.msgs :: last.setId, front + [last])
  {
    var calls, n, sets := front + [last], |front|, before + map m | m in last.msgs :: last.setId;
    forall m | m in sets ensures exists i :: 0 <= i < |calls| && m in calls[i].msgs {
      if m in last.msgs {
        assert m in calls[n].msgs;
      } else {
        var i :| 0 <= i < n && m in front[i].msgs;
        assert m in calls[i].msgs;
      }
    }
  }

  // ----- the maps as the source changes them -----

  class MessageSets {
    const rep: bool
    var setOf: map<nat, int>      // comm_tag_to_matching_set_id

    constructor (rep: bool)
      ensures this.rep == rep && setOf == map[]
    {
      this.rep, setOf := rep, map[];
    }

    /** change_matching_set_id, entry by entry. */
    method Change(oldId: int, newId: int)
      modifies this`setOf
      ensures setOf == Relabel(old(setOf), oldId, newId)
    {
      ghost var before := setOf;
      var todo := setOf.Keys;
      while todo != {}
        invariant setOf.Keys == before.Keys && todo <= before.Keys
        invariant forall m :: m in before ==>
          setOf[m] == if m in todo then before[m] else Relabel(before, oldId, newId)[m]
        decreases |todo|
      {
        var msg: nat :| msg in todo;
        if setOf[msg] == oldId {
          setOf := setOf[msg := newId];
        }
        todo := todo - {msg};
      }
    }

    /** assign_matching_set_id_to_msg_id. */
    method Assign(setId: int, msgs: seq<nat>) returns (ok: bool)
      modifies this`setOf
      ensures ok <==> AssignMsgs(rep, old(setOf), msgs, setId).Some?
      ensures ok ==> setOf == AssignMsgs(rep, old(setOf), msgs, setId).value
    {
      ghost var before := setOf;
      for i := 0 to |msgs|
        invariant AssignMsgs(rep, before, msgs[..i], setId) == Some(setOf)
      {
        assert msgs[..i + 1][..i] == msgs[..i];
        FailsForGood(rep, before, msgs, setId, i + 1);
        var msg := msgs[i];
        if msg in setOf {
          var oldSetId := setOf[msg];
          if oldSetId != setId {
            if !rep {
              return false;
            }
            Change(oldSetId, setId);
          }
        }
        setOf := setOf[msg := setId];
      }
      assert msgs[..|msgs|] == msgs;
      return true;
    }
  }

  /** A conflict among the first k messages is a conflict of the call. */
  lemma {:induction false} FailsForGood(rep: bool, sets: map<nat, int>, msgs: seq<nat>, setId: int, k: nat)
    requires k <= |msgs|
    ensures AssignMsgs(rep, sets, msgs[..k], setId).None? ==> AssignMsgs(rep, sets, msgs, setId).None?
    decreases |msgs|
  {
    if k == |msgs| {
      assert msgs[..k] == msgs;
    } else {
      FailsForGood(rep, sets, msgs[..|msgs| - 1], setId, k);
      assert msgs[..|msgs| - 1][..k] == msgs[..k];
    }
  }
}
