/**
  The Lamport clock of a rank.
 */
module Clocks {
  import opened Messages

  const INITIAL_CLOCK := 10

  /** The clock a rank publishes while it is inside a collective. */
  const COLLECTIVE_CLOCK := 3

  function Max(a: int, b: int): int {
    if a < b then b else a
  }

  /** rempi_clock_sync_clock for one received message. */
  function SyncClock(clock: int, received: int): int {
    Max(clock, received) + 1
  }

  /** The local clock after a receive set, its messages applied in order. */
  function SyncAll(clock: int, msgs: seq<Msg>): int
    decreases |msgs|
  {
    if msgs == [] then clock else SyncAll(SyncClock(clock, msgs[0].clock), msgs[1..])
  }

  /** Receiving never sets the clock back: every message makes it tick at least once. */
  lemma {:induction false} SyncAllAdvances(clock: int, msgs: seq<Msg>)
    ensures SyncAll(clock, msgs) >= clock + |msgs|
    ensures forall i :: 0 <= i < |msgs| ==> SyncAll(clock, msgs) > msgs[i].clock
    decreases |msgs|
  {
    if msgs != [] {
      SyncAllAdvances(SyncClock(clock, msgs[0].clock), msgs[1..]);
      assert forall i :: 0 < i < |msgs| ==> msgs[i] == msgs[1..][i - 1];
    }
  }

  /**
    The clock after a receive set in closed form: the largest of the old clock and the received ones,
    each counted up by the messages from it on.
   */
  lemma {:induction false} SyncAllIsLargest(clock: int, msgs: seq<Msg>)
    ensures SyncAll(clock, msgs) >= clock + |msgs|
    ensures forall i :: 0 <= i < |msgs| ==> SyncAll(clock, msgs) >= msgs[i].clock + |msgs| - i
    ensures SyncAll(clock, msgs) == clock + |msgs| || exists i :: 0 <= i < |msgs| && SyncAll(clock, msgs) == msgs[i].clock + |msgs| - i
    decreases |msgs|
  {
    if msgs != [] {
      var rest, after := msgs[1..], SyncAll(clock, msgs);
      SyncAllIsLargest(SyncClock(clock, msgs[0].clock), rest);
      forall i | 0 <= i < |msgs| ensures after >= msgs[i].clock + |msgs| - i {
        assert i > 0 ==> msgs[i] == rest[i - 1];
      }
      if i :| 0 <= i < |rest| && after == rest[i].clock + |rest| - i {
        assert after == msgs[i + 1].clock + |msgs| - (i + 1);
      } else {
        assert after == clock + |msgs| || after == msgs[0].clock + |msgs| - 0;
      }
    }
  }
}
