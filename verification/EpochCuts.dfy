/**
  Where one epoch ends for a source: the epoch line is a clock, so it separates the epoch's messages
  from later ones only if the recorder cut the stream of that source in clock order.
 */
module EpochCuts {
  import opened Messages
  import opened EpochTables
  import opened ReplayOrdering

  /** Every message of a later epoch has a larger clock than those of this epoch from its source. */
  ghost predicate CutInClockOrder(keys: seq<Msg>, later: seq<Msg>) {
    forall a, m :: a in keys && m in later && a.source == m.source ==> a.clock < m.clock
  }

  /**
    is_reached_epoch_line and within_epoch tell an epoch's messages from later ones exactly when the
    cut was made in clock order, which the recorder can see when it closes the epoch.
   */
  lemma LineSeparatesIffCutInOrder(e: Epoch, keys: seq<Msg>, later: seq<Msg>)
    requires IsLine(keys, e.line) && forall m :: m in later ==> m.clock > 0
    ensures forall m :: m in keys ==> WithinEpoch(e, m)
    ensures (forall m :: m in later ==> !WithinEpoch(e, m)) <==> CutInClockOrder(keys, later)
  {
    if forall m :: m in later ==> !WithinEpoch(e, m) {
      forall a, m | a in keys && m in later && a.source == m.source ensures a.clock < m.clock {
        assert !WithinEpoch(e, m);
      }
    }
    if CutInClockOrder(keys, later) {
      forall m | m in later ensures !WithinEpoch(e, m) {
        if m.source in e.line {
          assert Msg(m.source, e.line[m.source]) in keys;
        }
      }
    }
  }
}
