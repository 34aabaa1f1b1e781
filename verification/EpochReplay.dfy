/**
  All tables of one epoch: insert_encoder_input_format_chunk_recv_test_id, and when it reports that
  the epoch is finished.
 */
module EpochReplay {
  import opened EditScripts
  import opened Messages
  import opened EpochTables
  import opened ReplayOrdering
  import opened ReplayRuns

  /** Ids of the tables that handed out everything. */
  ghost function Done(epochs: map<int, Epoch>, tables: map<int, Progress>): set<int>
    requires tables.Keys <= epochs.Keys
  {
    set id | id in tables && DecodedAll(epochs[id], tables[id])
  }

  /** A call reports completion exactly when it completes the table; afterwards it does nothing. */
  lemma StepFinishes(e: Epoch, s: Progress, bound: Msg, localClock: int)
    requires Step(e, s, bound, localClock).Decoded?
    ensures var o := Step(e, s, bound, localClock);
      && (o.finished <==> !DecodedAll(e, s) && DecodedAll(e, o.next))
      && (DecodedAll(e, s) ==> o.next == s && o.emitted == [])
  {
    if !DecodedAll(e, s) && s.replayed !in s.unmatched {
      ReplayFinishes(e, TakeIn(e, s), bound, localClock);
    }
  }

  lemma ReplayFinishes(e: Epoch, s: Progress, bound: Msg, localClock: int)
    requires ReplayMatched(e, s, bound, localClock).Decoded?
    ensures var o := ReplayMatched(e, s, bound, localClock); o.finished <==> DecodedAll(e, o.next)
  {
    var n := SolidCount(e, s, bound);
    var solid := Solidify(s.solid, s.ordered[..n], |s.solid| + s.replayed).value;
    HandOutFinishes(e, s.(ordered := s.ordered[n..], solid := solid), OutCount(e, s.replayed).value, bound, localClock);
  }

  lemma HandOutFinishes(e: Epoch, s: Progress, o: nat, bound: Msg, localClock: int)
    requires HandOut(e, s, o, bound, localClock).Decoded?
    ensures var r := HandOut(e, s, o, bound, localClock); r.finished <==> DecodedAll(e, r.next)
  {
  }

  lemma DoneStep(epochs: map<int, Epoch>, tables: map<int, Progress>, id: int, next: Progress)
    requires tables.Keys == epochs.Keys && id in tables
    requires DecodedAll(epochs[id], tables[id]) ==> next == tables[id]
    ensures Done(epochs, tables[id := next]) ==
      if DecodedAll(epochs[id], next) then Done(epochs, tables) + {id} else Done(epochs, tables)
  {
  }

  lemma FullMeansAll(done: set<int>, all: set<int>)
    requires done <= all
    ensures |done| <= |all| && (|done| == |all| <==> done == all)
  {
    assert all == done + (all - done);
    assert |all| == |done| + |all - done|;
  }

  lemma NoneDone(epochs: map<int, Epoch>, unmatched: map<int, map<nat, int>>)
    requires epochs.Keys == unmatched.Keys
    requires forall id :: id in epochs ==> !DecodedAll(epochs[id], Start(unmatched[id]))
    ensures Done(epochs, map id | id in epochs :: Start(unmatched[id])) == {}
  {
    var tables := map id | id in epochs :: Start(unmatched[id]);
    forall id | id in tables ensures !DecodedAll(epochs[id], tables[id]) {
      assert tables[id] == Start(unmatched[id]);
    }
  }

  class EpochReplayer {
    const epochs: map<int, Epoch>
    var tables: map<int, Progress>        // test_tables_map
    var finishedTestsomeCount: nat

    ghost predicate Valid()
      reads this
    {
      && tables.Keys == epochs.Keys
      && finishedTestsomeCount == if Done(epochs, tables) == epochs.Keys then 0 else |Done(epochs, tables)|
    }

    /** A table exists only because an event was recorded in it, so none is decoded yet. */
    constructor (epochs: map<int, Epoch>, unmatched: map<int, map<nat, int>>)
      requires epochs.Keys == unmatched.Keys && epochs.Keys != {}
      requires forall id :: id in epochs ==> !DecodedAll(epochs[id], Start(unmatched[id]))
      ensures Valid() && this.epochs == epochs
      ensures tables == map id | id in epochs :: Start(unmatched[id])
    {
      this.epochs := epochs;
      tables := map id | id in epochs :: Start(unmatched[id]);
      finishedTestsomeCount := 0;
      NoneDone(epochs, unmatched);
    }

    method Insert(id: int, call: Call) returns (emitted: seq<Item>, epochFinished: bool, failure: Option<Failure>)
      requires Valid() && id in tables
      modifies this
      ensures failure.None? ==> Valid()
      ensures match Step(epochs[id], old(tables)[id].(waiting := old(tables)[id].waiting + call.arrivals), call.bound, call.localClock)
              case Failed(f) => failure == Some(f) && tables == old(tables)
              case Decoded(next, items, _) => failure.None? && emitted == items && tables == old(tables)[id := next]
      ensures failure.None? ==> (epochFinished <==> old(Done(epochs, tables)) != epochs.Keys && Done(epochs, tables) == epochs.Keys)
    {
      hide Step, DecodedAll;
      emitted, epochFinished, failure := [], false, None;
      var s := tables[id].(waiting := tables[id].waiting + call.arrivals);
      match Step(epochs[id], s, call.bound, call.localClock)
      case Failed(f) => failure := Some(f);
      case Decoded(next, items, finished) =>
        StepFinishes(epochs[id], s, call.bound, call.localClock);
        ghost var arrived := tables[id := s];
        DoneStepArrived(epochs, tables, id, s);
        DoneStep(epochs, arrived, id, next);
        assert tables[id := next] == arrived[id := next];
        FullMeansAll(Done(epochs, tables), epochs.Keys);
        FullMeansAll(Done(epochs, tables[id := next]), epochs.Keys);
        tables := tables[id := next];
        emitted := items;
        if finished {
          finishedTestsomeCount := finishedTestsomeCount + 1;
          if finishedTestsomeCount >= |epochs| {
            finishedTestsomeCount, epochFinished := 0, true;
          }
        }
    }
  }

  lemma DoneStepArrived(epochs: map<int, Epoch>, tables: map<int, Progress>, id: int, s: Progress)
    requires tables.Keys == epochs.Keys && id in tables
    requires s.unmatched == tables[id].unmatched && s.replayed == tables[id].replayed
    ensures Done(epochs, tables[id := s]) == Done(epochs, tables)
  {
  }
}
