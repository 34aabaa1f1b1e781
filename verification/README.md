# Record and replay of MPI receive orders: a verified model of ReMPI

ReMPI records in which order a rank received its messages and reproduces that order in a later run.
The record of one matching set and epoch keeps only how the observed order differs from the order
of (Lamport clock, source rank); the replayer rebuilds the observed order online, while messages of
different sources arrive in any interleaving.  This project models that mechanism and proves, in
this order:

* **The permutation codec** (`EditScripts`, `PathSearch`, `MinimalRecord`, `ClockDeltaCompression`,
  `IndexDecoder`).  The path search over match nodes, with its erased and swept leaves, still ends in
  a longest increasing subsequence of the observed order.  The moves written for it invert exactly:
  after every entry of the script the decoder's list is the script read with the ids moved so far.
  No list of single-element moves that produces the observed order is shorter than the record.
* **The recorder's tables and the bytes** (`Messages`, `EpochTables`, `EpochLines`,
  `LinearPrediction`, `RecordLayout`).  A table stands for exactly the stream it was filled from,
  chunks end between groups, the linear prediction is inverted across `int` and `size_t`, and parsing
  the bytes of a chunk ends exactly at their end with the same tables.
* **The replay decoder** (`ReplayOrdering`, `ReplayFidelity`, `ReplayRuns`, `ReplayProgress`,
  `DecodedTables`, `EpochReplay`).  `TestTable` has the loops of `cdc_decode_ordering`; its methods are
  proved equal to the function `Step`, and the theorems are about all runs of `Step`.  With sound
  look-ahead bounds no call fails, the output is always a prefix of the recorded stream, and once the
  messages are there every further call hands something out.  A call holds back exactly the messages above
  the bound in (clock, source) order, hands out the next group if and only if all its messages are
  certain, and else publishes exactly the clock after that group with the bound in place of each missing
  message, which lies beyond the bound.
* **All chunks and matching sets of a rank** (`EpochCuts`, `EpochRuns`, `ChunkOpening`, `ChunkRuns`,
  `ChunkSafety`, `OutOfOrderCuts`, `ChunkFaithfulness`, `EndToEnd`).  The tables of a chunk are replayed
  side by side, what arrived too early waits for its table, and the call that finishes the last table
  opens the next chunk, which may be refused.  A run over the whole record is faithful, in every order of
  calls and arrivals, if and only if the record is `Replayable`: the later chunks can be opened and looked
  up, and every source was cut in clock order at every epoch line.  Otherwise the model says what some
  run does; with all cuts in clock order a run may stop, but it is never misled.  `EndToEnd` joins
  recorder, bytes and replayer.
* **The look-ahead protocol** (`Clocks`, `LookAhead`, `LookAheadProtocol`, `RemoteIndexing`).  One
  rank's counts, published clock and bounds for all matching sets, with the exact bounds after an update
  and the exact condition under which it is reported, and what the clocks and bounds of n ranks say about
  messages to come.  The clock of a rank is the largest of the initial and all received clocks, each
  counted up by the ticks from there on.  Sending is split into counting, leaving and publishing.
* **All ranks together** (`Applications`, `JointReplay`, `JointProgress`).  Applications, decoders of
  all matching sets and the protocol in one transition system that knows nothing of the recorded run but
  the loaded chunks: each decoder uses the bounds its rank derived, each receive gives the application
  and its clock what the decoder handed out, and the interim clock published is the decoder's own.  By
  one invariant over all its steps no chunk is refused, no lookup and no decoder fails, every
  application does and gets exactly what it did and got when recorded, and every clock is the recorded
  one; neither half assumes the other.  Readers catch up with what their sources publish, and every
  round of a waiting rank publishes a clock beyond the one that holds it up.
* **Basic mode and matching sets** (`EventLists`, `MatchingSets`).  Basic mode records the one shortest
  list of runs for the events it got.  Calls merge the matching sets of exactly those messages that they
  connect.

Where the code and a simple reading of it differ, the model follows the code:

* `within_epoch` compares clocks only.  It separates an epoch's messages from later ones if and only
  if the recorder cut the stream of each source in clock order (`EpochCuts`).  When some source was cut
  out of order and everything arrives before the first call, the first chunk with such a cut hands out,
  without a failure of the decoder, as many events as were recorded in it, but with the smallest
  messages that its line lets in, put into the recorded permutation; the first wrong event need not be
  the later epoch's message, nor come from its source (`OutOfOrderCuts`, `ChunkFaithfulness`).
* `decode` compares the number of matching sets that are known so far with the number of source ranks of
  every later chunk, and enters the bounds of a set only once; and the call that finishes a chunk asks
  for the same set again in the next one.  So over all orders in which the sets are called, a record is
  replayed faithfully if and only if its first chunk has at most 1024 sources, every later chunk has the
  matching sets of the first one, as many sources as there are sets, and no source that the first chunk
  lacks, and all cuts are in clock order (`ChunkFaithfulness.FaithfulIffReplayable`).  With one set,
  every later chunk must have a single source, one that the first chunk has, too: the record with (clock
  10, rank 0) in the first chunk and (11, 0) and (12, 1) in the second one stops its own replay.
* The linear prediction over `int` is an inverse for all vectors as far as two's complement wrap-around
  goes; signed overflow is impossible for all vectors with values of at most some magnitude if and
  only if that magnitude is below 2^29 (`LinearPrediction`).
* In basic mode the replayer answers FINISH after the last event if and only if anything was enqueued:
  for an empty stream there is no queue, and the answer stays EMPTY after the list was closed
  (`EventLists`).
* A chunk of a closed event list is ready even inside a group; `format` then rejects it (`EpochTables`).
* `update_local_look_ahead_recv_clock` may update a bound without saying so, because a later source
  overwrites the flag.  It reports an update if and only if some bound grew behind which the look-ahead
  rule was not applied to any other bound; what it reports is an update (`LookAhead`).
* The exchange of window slots posts as many receives as messages are sent if and only if no rank is
  listed twice (`RemoteIndexing`).
* `change_matching_set_id` is an error outside REP mode, so the assignment of matching sets succeeds
  if and only if no message id is used by calls of different sets (`MatchingSets`).

Classes stand for objects whose fields the source changes in place (`Search`, `InputFormat`,
`TestTable`, `EpochReplayer`, `LocalRank`, `RecordingList`, `ReplayingList`, `MessageSets`); lists, vectors
and maps are `seq` and `map` fields, match nodes are an arena with parent indices.

## Assumptions

* The messages of one source are ingested in clock order (non-overtaking, section 3.5 of MPI 3.1), and
  the loop that drains ready receives is one step.
* The published clock and send count of a rank are read together.
* (clock, source) pairs of a matching set are distinct and clocks positive, as `format` enforces for
  an epoch and ticking clocks give for all, and no unmatched test lies inside a group, since the
  recorder pushes a group whole.
* Ingesting, updating bounds, one call of the decoder, dequeuing and publishing are each one step.
* Progress is made by the main thread, which calls the decoder for a matching set.  Where the next chunk
  was just opened, the same set is called once more before any other.
* In `JointReplay` applications are deterministic, every rank opens its first chunk before the run, and
  every message sent to a rank was received there in the recorded run, in the same matching set.

## Model

| member | source | states |
|---|---|---|
| PathSearch.Search.FindShortestNode | src/rempi/rempi_clock_delta_compression.cpp:127-138 | from a leaf it finds the eligible node with the longest chain on the leaf's path, or none is eligible |
| PathSearch.Search.FindBestParent | src/rempi/rempi_clock_delta_compression.cpp:188-225 | although leaves were erased and swept, the parent found is best among all nodes ever added |
| PathSearch.Search.AddNode | src/rempi/rempi_clock_delta_compression.cpp:188-255 | the new node gets the longest possible chain, and the remaining leaves still represent every chain a later column may need |
| PathSearch.Search.SweepLeaves | src/rempi/rempi_clock_delta_compression.cpp:140-154 | exactly the leaves left of the smallest unmatched column are dropped, in order |
| PathSearch.NewNodeExtends | src/rempi/rempi_clock_delta_compression.cpp:226-250 | distances stay row + column + 2 - chain length, and every chain beats those of all earlier nodes it could follow |
| PathSearch.KeepsRepresented | src/rempi/rempi_clock_delta_compression.cpp:140-154 | neither erasing a parent leaf nor sweeping loses a chain that is needed for the optimum |
| ClockDeltaCompression.FindMatchedClockColumn | src/rempi/rempi_clock_delta_compression.cpp:281-301 | the scan returns how far the event's clock order lies ahead, and fails only if it is not ahead |
| ClockDeltaCompression.UpdateStart | src/rempi/rempi_clock_delta_compression.cpp:303-316 | the start column stays the smallest unmatched column (the loop is bounded by the number of columns) |
| ClockDeltaCompression.MatchColumn | src/rempi/rempi_clock_delta_compression.cpp:504-530 | for any permutation the search lands on the event's own clock order and never runs to the end |
| ClockDeltaCompression.SearchPath | src/rempi/rempi_clock_delta_compression.cpp:484-551 | one node for every match, then the bottom-right corner as the last leaf |
| ClockDeltaCompression.FinalChain | src/rempi/rempi_clock_delta_compression.cpp:188-255 | the parent chain of the final node is a longest increasing subsequence of the observed order |
| ClockDeltaCompression.ConvertToDiffReversed | src/rempi/rempi_clock_delta_compression.cpp:160-181 | the reversed diff is that of the final path without the corner's own entry |
| ClockDeltaCompression.ChangeToSeqOrderId | src/rempi/rempi_clock_delta_compression.cpp:318-334 | added entries get the clock order of their row, all others stay |
| ClockDeltaCompression.ScriptSides | src/rempi/rempi_clock_delta_compression.cpp:160-181 | up to every node of a path, ignored and removed ids spell the clock order, ignored and added ids the observed order |
| ClockDeltaCompression.ScriptToBottomRight | src/rempi/rempi_clock_delta_compression.cpp:579-615 | the final script spells 0..n-1 and the observed order, and ignores one id less than the chain has nodes |
| ClockDeltaCompression.CountDelta | src/rempi/rempi_clock_delta_compression.cpp:366-388 | the delta counts the entries between an id's two entries that are in the decoder's list at that time |
| ClockDeltaCompression.ConvertToDiffBinary | src/rempi/rempi_clock_delta_compression.cpp:336-396 | ids and delays are the moves of the script, one for every id met twice |
| ClockDeltaCompression.Compress | src/rempi/rempi_clock_delta_compression.cpp:465-671 | the recorded moves belong to a script that explains the observed order and leaves a longest increasing subsequence in place |
| EditScripts.ExplainsPairsEntries | src/rempi/rempi_clock_delta_compression.cpp:579-615 | every id that is not ignored occurs exactly once as removed and once as added |
| EditScripts.PendingMeansMetOnce | src/rempi/rempi_clock_delta_compression.cpp:358-396 | an id is pending if and only if exactly one of its entries was met |
| EditScripts.PendingEndsEmpty | src/rempi/rempi_clock_delta_compression.cpp:358-396 | the pending map ends empty |
| EditScripts.DecoderListInvariant | src/rempi/rempi_encoder_cdc.cpp:1344-1351 | after the moves of any prefix of the script the decoder's list is the script read with those ids moved |
| EditScripts.MovesRebuildObservedOrder | src/rempi/rempi_encoder_cdc.cpp:1323-1366 | replaying the moves on 0..n-1 gives the observed order, without leaving the list |
| EditScripts.MoveCount | src/rempi/rempi_clock_delta_compression.cpp:358-396 | the number of moves is n minus the number of ignored ids |
| EditScripts.MoveShiftsByDelay | src/rempi/rempi_encoder_cdc.cpp:1344-1351 | a move succeeds if and only if the id stays in the list, and then shifts it by its delay and leaves the order of the others alone |
| MinimalRecord.RecordIsMinimal | src/rempi/rempi_clock_delta_compression.cpp:188-255 | no list of single-element moves that produces the observed order is shorter than the record |
| IndexDecoder.PrepareDecodeIndices | src/rempi/rempi_encoder_cdc.cpp:1301-1366 | the list loops compute the decoded positions, and fail exactly where an iterator would leave the list |
| IndexDecoder.MovesPermute | src/rempi/rempi_encoder_cdc.cpp:1344-1351 | any applicable moves leave a permutation in the list |
| IndexDecoder.CodecRoundTrip | src/rempi/rempi_encoder_cdc.cpp:1301-1386 | for every script that explains a permutation, decoding its moves succeeds and inverts the permutation |
| IndexDecoder.RecordAndDecode | src/rempi/rempi_clock_delta_compression.cpp:465-671 | compress then decode, for every observed order: the inverse permutation from a shortest list of moves |
| LinearPrediction.CompressSizeT | src/rempi/rempi_compression_util.cpp:118-154 | in place, every element becomes its residual modulo 2^64 |
| LinearPrediction.CompressInt | src/rempi/rempi_compression_util.cpp:118-154 | in place, every element becomes its residual as a wrapped 32-bit int |
| LinearPrediction.DecompressSizeT | src/rempi/rempi_compression_util.cpp:158-170 | in place, the vector becomes its decompression in size_t arithmetic |
| LinearPrediction.ZeroIffOnTheLine | src/rempi/rempi_compression_util.cpp:118-154 | an element is stored as zero if and only if it lies, modulo 2^64, on the line through its two predecessors |
| LinearPrediction.LinesVanish | src/rempi/rempi_compression_util.cpp:118-154 | an arithmetic progression is stored as zeros behind its first two elements |
| LinearPrediction.SizeTRoundTrip | src/rempi/rempi_compression_util.cpp:118-170 | over size_t decompression inverts compression for all vectors |
| LinearPrediction.IntRoundTrip | src/rempi/rempi_encoder_cdc.cpp:1179-1191 | compressed as int, copied to size_t, decompressed there and cast back: every int vector returns |
| LinearPrediction.SmallValuesDoNotOverflow | src/rempi/rempi_compression_util.cpp:144-150 | below 2^29 no step of the int computation overflows, and the stored numbers are the residuals |
| LinearPrediction.OverflowFreeIffBelow | src/rempi/rempi_compression_util.cpp:144-150 | all int vectors with values of at most a given magnitude are free of overflow if and only if it is below 2^29 |
| Messages.Sort | src/rempi/rempi_encoder_cdc.cpp:152-162 | sorting with compare gives a strictly increasing sequence of the same messages when none repeats |
| Messages.SortCounts | src/rempi/rempi_encoder_cdc.cpp:235-238 | sorting keeps the multiset of messages |
| Messages.ClockOrdersPermute | src/rempi/rempi_encoder_cdc.cpp:235-241 | clock orders are a permutation, and point from every observed message to its sorted place |
| EpochTables.FillTable | src/rempi/rempi_encoder_cdc.cpp:189-214 | one added event changes the vectors of its table as add does, and grows the length unless it is merged |
| EpochTables.TableStandsForStream | src/rempi/rempi_encoder_cdc.cpp:178-218 | the table filled from a stream stands for that stream with neighbouring unmatched runs merged |
| EpochTables.MergedIsSameCalls | src/rempi/rempi_encoder_cdc.cpp:189-214 | merging changes no matched event and no number of unmatched tests in front of it, and leaves no two runs side by side |
| EpochTables.InputFormat.Add | src/rempi/rempi_encoder_cdc.cpp:178-218 | the tables of all sets, the total length and the last event follow the stream added so far |
| EpochTables.InputFormat.ExtractChunk | src/rempi/rempi_encoder_cdc.cpp:740-778 | chunks partition the stream contiguously; a chunk is ready exactly if it is not empty and the list is closed, or it is long enough and its last event ends a group; a ready chunk ends some table inside a group exactly if its last event has a next one |
| EpochTables.OnlyLastSetIsOpen | src/rempi/rempi_encoder_cdc.cpp:229-233 | when groups are pushed whole, only the set of the last event can have an open group |
| EpochTables.EpochLine | src/rempi/rempi_encoder_cdc.cpp:239-263 | the loop yields the last clock of every source, and rejects exactly the sets with a real (clock, source) pair twice |
| EpochTables.Format | src/rempi/rempi_encoder_cdc.cpp:220-272 | closing an epoch fails exactly for an open last group or a repeated message, else it numbers the messages and draws the epoch line |
| EpochTables.ClosedEpochIsPermutation | src/rempi/rempi_encoder_cdc.cpp:235-263 | in a closed epoch no message repeats and the clock orders are a permutation |
| EpochLines.LineVectors | src/rempi/rempi_encoder_cdc.cpp:264-271 | the line is written as ranks and clocks in any order of the map, and reads back as the same line |
| RecordLayout.Get64Bytes | src/rempi/rempi_encoder_cdc.cpp:1061-1062 | a stored size_t is read back, and the cursor stands behind it |
| RecordLayout.TakeEpochBack | src/rempi/rempi_encoder_cdc.cpp:1059-1083 | ranks and clocks behind one size are read back |
| RecordLayout.TakeMovesBack | src/rempi/rempi_encoder_cdc.cpp:1168-1198 | ids and delays behind one size are read back through size_t |
| RecordLayout.ParseWritten | src/rempi/rempi_encoder_cdc.cpp:627-721 | one written table is parsed to the same table, with the cursor exactly behind it |
| RecordLayout.ParseAllWritten | src/rempi/rempi_encoder_cdc.cpp:1043-1222 | all written tables of a chunk are parsed back, and the cursor ends exactly behind them |
| RecordLayout.EncodeTables | src/rempi/rempi_encoder_cdc.cpp:627-721 | the queue of a chunk holds the bytes of its tables, one behind the other |
| RecordLayout.DecodeTables | src/rempi/rempi_encoder_cdc.cpp:1043-1222 | the cursor loop returns the tables that the bytes parse to, or reports that it does not end exactly at their end (the check of lines 1276-1278) |
| RecordLayout.Layout | src/rempi/rempi_encoder_cdc.cpp:627-721 | where every number and vector of a written table begins, with the lengths and sizes in front of it, and where the next table begins |
| RecordLayout.LittleEndianAt | src/rempi/rempi_encoder_cdc.cpp:627-721 | the bytes of a number are its digits to the base 256, the lowest one first |
| ReplayOrdering.TestTable.DecodeOrdering | src/rempi/rempi_encoder_cdc.cpp:1390-1937 | one call changes the table, hands out events and reports completion or failure as the step function says |
| ReplayOrdering.TestTable.TakeInWaiting | src/rempi/rempi_encoder_cdc.cpp:1483-1538 | the messages of this epoch move to the ordered list, the others stay, and the reached clocks follow |
| ReplayOrdering.SplitWaiting | src/rempi/rempi_encoder_cdc.cpp:1489-1532 | the loop over waiting messages keeps those beyond the epoch line in order, admits the others in order, and records each source's last admitted clock |
| ReplayOrdering.TestTable.ReplayMatchedEvents | src/rempi/rempi_encoder_cdc.cpp:1543-1937 | solid messages move on and the next group is counted, filled and handed out |
| ReplayOrdering.TestTable.HandOutGroup | src/rempi/rempi_encoder_cdc.cpp:1678-1937 | slots, interim clock and, if complete, the group with its flags and indices |
| ReplayOrdering.CountSolid | src/rempi/rempi_encoder_cdc.cpp:1543-1568 | in the sorted list, how many messages are not above the bound in (clock, source) order, a message equal to the bound included, or all at the epoch line |
| ReplayOrdering.MoveSolid | src/rempi/rempi_encoder_cdc.cpp:1596-1622 | solid messages get consecutive clock orders; fails exactly if one is not larger than the last |
| ReplayOrdering.FillSlots | src/rempi/rempi_encoder_cdc.cpp:1678-1705 | solid messages fill the slots of the group until all are taken |
| ReplayOrdering.ComputeInterim | src/rempi/rempi_encoder_cdc.cpp:1712-1802 | the clock after a receive set of the known slots, in which ordered messages below the bound, one after the other, and then the bound stand in for the missing ones |
| ReplayOrdering.InterimIsReplayed | src/rempi/rempi_encoder_cdc.cpp:1712-1802 | whatever messages stand in like that, the computed clock is the one after receiving them in order |
| ReplayFidelity.AdmitInOrder | src/rempi/rempi_encoder_cdc.cpp:1486-1533 | with arrivals in clock order per source, the reached clocks separate known from unknown messages |
| ReplayFidelity.SolidPrefix | src/rempi/rempi_encoder_cdc.cpp:1537-1568 | ordered messages that are smaller than all still to come are the next ones of the total order |
| ReplayFidelity.SolidifyExtends | src/rempi/rempi_encoder_cdc.cpp:1596-1622 | they extend the solid list with their record-time sort index; the smaller-event error cannot occur |
| ReplayFidelity.SolidCountsUp | src/rempi/rempi_encoder_cdc.cpp:1596-1622 | solid and replayed messages together are the smallest ones, so the next clock order is their number |
| ReplayFidelity.OutCountIsGroup | src/rempi/rempi_encoder_cdc.cpp:1655-1665 | the counted flags give the size of the recorded group |
| ReplayFidelity.SlotsHoldTheGroup | src/rempi/rempi_encoder_cdc.cpp:1678-1705 | a slot is taken only by the message recorded there, and by it as soon as it is solid; no negative index occurs |
| ReplayFidelity.ReplayCall | src/rempi/rempi_encoder_cdc.cpp:1390-1937 | with a sound bound a call does not fail, keeps the invariant that the output is the stream so far, reports completion once, and is never empty-handed when all messages are there |
| ReplayFidelity.InterimClockIsLowerBound | src/rempi/rempi_encoder_cdc.cpp:1712-1802 | the interim clock is at most the local clock after the next receive set |
| ReplayProgress.HeldBackIffAboveBound | src/rempi/rempi_encoder_cdc.cpp:1543-1568 | after any successful call for a group the ordered list holds a message if and only if it was there or arrived within the epoch and is above the bound in (clock, source) order, outside collectives and before all sources reached their line |
| ReplayProgress.GroupComesIffCertain | src/rempi/rempi_encoder_cdc.cpp:1543-1937 | a call hands out the next recorded group if and only if each of its messages was solid before, or arrived and is not above the bound, or arrived in a collective or when all of the epoch had arrived; else it hands out nothing |
| ReplayProgress.InterimIsExact | src/rempi/rempi_encoder_cdc.cpp:1712-1802 | the interim clock after a call for a group is exactly the local clock after receiving that group with the bound in place of each message that is not certain, and stays as it was in a collective |
| ReplayProgress.WaitingRaisesInterim | src/rempi/rempi_encoder_cdc.cpp:1740-1758 | a call that hands out nothing leaves an interim clock beyond the bound and beyond the local clock |
| ReplayProgress.OtherCallsKeep | src/rempi/rempi_encoder_cdc.cpp:1400-1437 | a call that is not for a group changes neither the interim clock nor where any message is |
| ReplayProgress.SolidifyIff | src/rempi/rempi_encoder_cdc.cpp:1596-1622 | messages move on if and only if they increase strictly, also behind the last solid one, and are then numbered one after the other |
| ReplayProgress.FillFailsIffMisplaced | src/rempi/rempi_encoder_cdc.cpp:1678-1705 | filling the slots fails if and only if an entry without a place, or with a place behind the replayed ones, is met before the group is full, and with the error for that entry |
| ReplayRuns.ReplayIsFaithful | src/rempi/rempi_encoder_cdc.cpp:1390-1937 | one epoch, for every interleaving: no failure, the output is a prefix of the stream, completion is reported exactly when all of it was handed out, and only once |
| ReplayRuns.ReplayCompletes | src/rempi/rempi_encoder_cdc.cpp:1390-1937 | once the messages are there, as many calls as the stream has items hand out the whole stream |
| ReplayRuns.ArrivedMeansOnePlace | src/rempi/rempi_encoder_cdc.cpp:1486-1533 | every arrived message of the epoch is waiting, ordered, solid or replayed, in exactly one place |
| ReplayRuns.LeftForNextEpoch | src/rempi/rempi_encoder_cdc.cpp:1489-1532 | when the epoch is done, exactly the arrived messages beyond its line are left waiting, in the order of arrival |
| EpochReplay.StepFinishes | src/rempi/rempi_encoder_cdc.cpp:1401-1412 | a call returns true exactly when it completes its table, and does nothing afterwards |
| EpochReplay.EpochReplayer.Insert | src/rempi/rempi_encoder_cdc.cpp:2138-2177 | the finished count is the number of completed tables, and the epoch is reported finished exactly when the last one completes |
| EpochCuts.LineSeparatesIffCutInOrder | src/rempi/rempi_encoder_cdc.cpp:110-120 | the epoch line tells this epoch's messages from later ones if and only if each source was cut in clock order |
| EpochRuns.EpochCall | src/rempi/rempi_encoder_cdc.cpp:1390-1937 | a call in an epoch cut in clock order does not fail, continues the joined stream, and keeps what waits for later epochs in order |
| EpochRuns.EpochEnds | src/rempi/rempi_encoder_cdc.cpp:2138-2160 | a finished table has handed out its whole stream, and what is left waiting when the next table begins are exactly the early messages, each after those its source sent before |
| ChunkOpening.FirstChunkOpens | src/rempi/rempi_encoder_cdc.cpp:1227-1271 | the first chunk opens unless it has more than 1024 sources, and then every set of it knows every source of it |
| ChunkOpening.OpensIff | src/rempi/rempi_encoder_cdc.cpp:1246-1271 | any chunk opens if and only if it has no more sets than are known, at most 1024 sources, and at each of its known sets as many sources as sets are known by then; known bounds stay, and new sets get those of the chunk |
| ChunkOpening.LaterChunkOpensIff | src/rempi/rempi_encoder_cdc.cpp:1246-1271 | a later chunk of known sets opens if and only if it has as many sources as sets are known, and then the known bounds stay |
| LookAhead.LocalRank.OpenChunk | src/rempi/rempi_encoder_cdc.cpp:1227-1271 | the loop over the tables of a chunk enters new sets, compares sizes for known ones, and fails as the opening function says |
| ChunkRuns.CallKeeps | src/rempi/rempi_encoder_cdc.cpp:2138-2177 | a call in a chunk cut in clock order continues the stream of its set, leaves the other sets alone, and goes to the next chunk exactly if it finishes the last table |
| ChunkRuns.ChunkEnds | src/rempi/rempi_encoder_cdc.cpp:874-907 | if the next chunk opens, the table of every set begins with its early messages waiting in order, and the set that was called is asked for again |
| ChunkRuns.CallStaysGood | src/rempi/rempi_encoder_cdc.cpp:851-927 | in a replayable record a call never fails, also where it opens the next chunk, and changes no interim clock but its own |
| ChunkRuns.ReplayableMeansFaithful | src/rempi/rempi_encoder_cdc.cpp:851-927 | over all chunks and sets of a replayable record, in every order of calls and arrivals: no call fails, every chunk opens, and every set is handed out a prefix of its joined recorded streams |
| ChunkSafety.CutsInOrderNeverMislead | src/rempi/rempi_encoder_cdc.cpp:851-927 | whatever the chunks and the order of the calls, with all cuts in clock order every set is handed out a prefix of its recorded streams until the run stops, if it does: because a chunk is refused or a set or source is not found, never in the decoder |
| ChunkRuns.AllChunksComplete | src/rempi/rempi_encoder_cdc.cpp:851-927 | once all messages are there, as many calls for unfinished sets as there are recorded items hand out all streams of all chunks |
| ChunkRuns.SomeCallIsUseful | src/rempi/rempi_encoder_cdc.cpp:851-927 | until everything is handed out, some set that may be called is unfinished, so such calls are always possible |
| OutOfOrderCuts.SameStep | src/rempi/rempi_encoder_cdc.cpp:1390-1937 | with everything there, a table whose line lets in more messages hands out what a table recorded with all of them would, up to its own number of events |
| ChunkFaithfulness.ChunkReadsSmallest | src/rempi/rempi_encoder_cdc.cpp:110-120 | the first chunk in which a set has a bad cut, everything having arrived, hands out the smallest messages its line lets in, in the recorded permutation, flags and indices; only opening the next chunk can fail |
| OutOfOrderCuts.MisreadIffOutOfOrder | src/rempi/rempi_encoder_cdc.cpp:110-120 | these are the recorded events if and only if the cut was made in clock order for every source |
| OutOfOrderCuts.OlderMessageIsReadInstead | src/rempi/rempi_encoder_cdc.cpp:110-120 | the smallest case: an older message recorded in the next epoch is read in place of the one that was recorded |
| ChunkFaithfulness.UnfitChunkStops | src/rempi/rempi_encoder_cdc.cpp:1246-1271 | the first later chunk that lacks a set, has a new set, another number of sources than there are sets, or a new source stops some possible run: it is refused, or a set or source is not found |
| ChunkFaithfulness.FaithfulIffReplayable | src/rempi/rempi_encoder_cdc.cpp:851-927 | all possible runs over all chunks and sets are faithful if and only if every chunk fits and every set was cut in clock order for every source at every chunk |
| ChunkFaithfulness.OneSetFitsIff | src/rempi/rempi_encoder_cdc.cpp:1262-1267 | with one set a later chunk fits if and only if it has one source, and the first chunk this one, too |
| ChunkFaithfulness.SecondSenderStops | src/rempi/rempi_encoder_cdc.cpp:1262-1267 | a record of one set with all cuts in clock order whose second chunk has a second sender: some possible run stops, and not in the decoder |
| ChunkFaithfulness.SameSenderGoesOn | src/rempi/rempi_encoder_cdc.cpp:1246-1271 | the condition can be met: with the same sender in both chunks the record is replayable |
| DecodedTables.SetFlags | src/rempi/rempi_encoder_cdc.cpp:1102-1108 | a flag is set exactly for the listed events |
| DecodedTables.ClosedTableIsValid | src/rempi/rempi_recorder.cpp:665-686 | a stream of whole groups gives a table without unmatched runs inside groups and without repeated messages |
| DecodedTables.DecodedTableDescribes | src/rempi/rempi_encoder_cdc.cpp:1016-1221 | with inverted positions and the epoch line, the decoded table describes the recording |
| EndToEnd.MovesStayInList | src/rempi/rempi_encoder_cdc.cpp:1344-1351 | ids and delays are bounded by the length of the list, so they fit an int |
| EndToEnd.StoreTable | src/rempi/rempi_encoder_cdc.cpp:220-272 | formatting and compressing a stream gives vectors that stand for its table |
| EndToEnd.LoadedReproduces | src/rempi/rempi_encoder_cdc.cpp:1016-1221 | what decode builds from them describes the recording of that stream |
| EndToEnd.RecordAndReload | src/rempi/rempi_encoder_cdc.cpp:627-1222 | the streams of all sets of a chunk to bytes and back: the parse ends exactly at the end of the bytes, and every set comes back, in order, as a table that reproduces its stream |
| EndToEnd.ReloadedReplayIsFaithful | src/rempi/rempi_encoder_cdc.cpp:1390-1937 | replaying one reloaded table gives a prefix of the merged stream under every interleaving, and in the end all of it |
| EndToEnd.ReloadedRecordIsFaithful | src/rempi/rempi_encoder_cdc.cpp:851-927 | replaying the reloaded tables of all chunks and sets gives prefixes of the merged streams of each set, one behind the other, in every possible run, if and only if the record is replayable |
| Clocks.SyncAllAdvances | src/rempi/rempi_clock.cpp:70-105 | every received message makes the clock tick, beyond its own clock |
| Clocks.SyncAllIsLargest | src/rempi/rempi_clock.cpp:70-105 | the clock after a receive set is at least the old clock plus the number of messages and at least the clock of each message plus the number of messages from it on, and equal to one of these |
| LookAhead.ComputeLookAheadRecvClock | src/rempi/rempi_encoder_cdc.cpp:418-479 | for a known set: an error exactly if a source of the epoch is not known, else the lexicographic minimum of the bounds outside collectives, the collective clock if there is none, and (0, 0) without sources |
| LookAhead.LocalRank.ReplayIsend | src/rempi/rempi_recorder_cdc.cpp:251-287 | the send is counted, the message carries the clock before the tick, and the clock after it is published |
| LookAhead.LocalRank.SyncAllClocks | src/rempi/rempi_clock.cpp:81-105 | the local clock after a receive set is that largest one, and nothing else changes |
| LookAhead.LocalRank.UpdateSendClock | src/rempi/rempi_encoder_cdc.cpp:1977-2001 | the published clock only grows |
| LookAhead.LocalRank.RecordRecv | src/rempi/rempi_cp.cpp:398-408 | the receive count and the largest received clock of the source follow |
| LookAhead.LocalRank.HowTo | src/rempi/rempi_encoder_cdc.cpp:484-541 | an error exactly for an unknown source whose bound is looked up; else the last-received rule exactly with messages received or on their way, a largest clock and a bound at most one above it, the look-ahead rule exactly for a source with neither, none for probed sources |
| LookAhead.LocalRank.UpdateLocalLookAheadRecvClock | src/rempi/rempi_encoder_cdc.cpp:558-617 | over all matching sets: it throws exactly if some set does not know a source that is looked up, else every bound catches up as UpdateCatchesUp says, nothing else changes, and the flag is that of the visits in their order |
| LookAhead.UpdateCatchesUp | src/rempi/rempi_encoder_cdc.cpp:484-617 | after an update the bound of every visited source that was not probed is the larger of the old one and the largest received clock, with messages received or on their way, and otherwise of the old one and the gathered clock, or the collective clock; all other bounds stay |
| LookAhead.ThirdRuleIff | src/rempi/rempi_encoder_cdc.cpp:484-541 | the look-ahead rule is applied if and only if the source was neither probed nor received from, and no more messages were counted than received |
| LookAhead.ThrowsIffUnknown | src/rempi/rempi_encoder_cdc.cpp:558-617 | an update stops with an error if and only if some set lacks a visited source that was not probed and that has received a clock, unless nothing is received or on its way |
| LookAhead.PublishedIsLarger | src/rempi/rempi_encoder_cdc.cpp:1977-2001 | publishing sets the published clock to the larger of the old and the new one |
| LookAhead.ReportedIff | src/rempi/rempi_encoder_cdc.cpp:577-603 | the flag is returned if and only if some bound grew and the look-ahead rule was not applied to any bound visited later |
| LookAhead.UnreportedIff | src/rempi/rempi_encoder_cdc.cpp:577-603 | some bound grew without a report if and only if the look-ahead rule is applied behind a growth and nothing grows from there on |
| LookAhead.ReportedMeansGrown | src/rempi/rempi_encoder_cdc.cpp:588-603 | if the flag is returned, some bound has grown |
| LookAhead.GrownMayGoUnreported | src/rempi/rempi_encoder_cdc.cpp:588-603 | a state of two sources in which a bound grows and the second source clears the flag |
| LookAheadProtocol.SentIncreases | src/rempi/rempi_clock.cpp:114-128 | messages from one rank to another have increasing clocks |
| LookAheadProtocol.ClockAtIsLargest | src/rempi/rempi_clock.cpp:70-128 | the clock of a rank in front of any operation is the largest of the initial clock and all received ones, each counted up by one for every message sent or received from there on |
| LookAheadProtocol.SnapshotIsSound | src/rempi/rempi_cp.cpp:340-369 | whatever is sent beyond the published count has at least the published clock, also between counting and leaving |
| LookAheadProtocol.UpdatedBoundIsSound | src/rempi/rempi_encoder_cdc.cpp:484-617 | each of the three rules keeps a bound below all messages not ingested yet, whatever the probed and received sets are |
| LookAheadProtocol.UpdateKeeps | src/rempi/rempi_encoder_cdc.cpp:558-617 | so does the update of the bounds of all matching sets, which share the counts |
| LookAheadProtocol.PublishedIsSound | src/rempi/rempi_encoder_cdc.cpp:1977-2001 | where the invariant holds, messages left with their recorded clocks and no later send is below the published clock |
| LookAheadProtocol.StoredBoundIsSound | src/rempi/rempi_cp.cpp:371-396 | where the invariant holds, a message not ingested has at least the stored bound of every matching set on its source |
| LookAheadProtocol.LookAheadIsSound | src/rempi/rempi_encoder_cdc.cpp:418-479 | where the invariant holds, the computed look-ahead clock is a sound bound for the messages of the set in the epoch |
| Applications.NextIsGroup | src/rempi/rempi_recorder_cdc.cpp:380-403 | whatever continues the output of a set by one delivery is what the next recorded receive for that set got |
| Applications.CallDelivers | src/rempi/rempi_encoder_cdc.cpp:1390-1937 | a call hands out nothing, one unmatched run or one whole group, and its interim clock is the old one or between the local clock and the clock after the next delivery |
| Applications.InterimStays | src/rempi/rempi_recorder_cdc.cpp:440-477 | such an interim clock is below all sends behind the next receive for the set, however far the application is |
| JointReplay.DecodeKeeps | src/rempi/rempi_encoder_cdc.cpp:2138-2177 | a decoder call for any set, with the clock the rank computes from its own bounds, does not fail, decodes nothing or what the application is to get next from the set, opens the next chunk where one is due, and keeps the interim clock below all sends behind it |
| JointReplay.DeliverKeeps | src/rempi/rempi_recorder_cdc.cpp:440-477 | a receive call gives the application what it got when recorded, and the clock after it is the recorded one |
| JointReplay.IngestKeeps | src/rempi/rempi_cp.cpp:398-408 | an ingested message is new to the decoder of its set and comes after all that its source sent to the set before |
| JointReplay.UpdateKeeps | src/rempi/rempi_encoder_cdc.cpp:558-617 | the update of all bounds finds every source of the current chunk in every set, and keeps the bounds sound |
| JointReplay.PublishInterimKeeps | src/rempi/rempi_encoder_cdc.cpp:1977-2001 | the decoder's own interim clock for a set may be published whenever its rank is blocked in a receive for the set |
| JointReplay.JointStepKeeps | src/rempi/rempi_recorder_cdc.cpp:251-477 | every step of the whole system keeps the invariant of decoders, applications and clocks |
| JointReplay.JointReplayIsFaithful | src/rempi/rempi_recorder_cdc.cpp:251-477 | along every run of the whole system no chunk is refused, no lookup and no decoder fails, every application has done and got a prefix of what was recorded, the output for every set is a prefix of its stream, and the clock is the recorded one |
| JointReplay.JointClocksAreSound | src/rempi/rempi_cp.cpp:340-408 | along every run of the whole system messages leave with their recorded clocks, no later send is below the published clock, and nothing not ingested is below the reader's bound on its source in any set |
| JointReplay.JointBoundsAreSound | src/rempi/rempi_encoder_cdc.cpp:418-479 | along every run, the clock computed for a call is a sound bound for the table of the called set |
| JointReplay.JointInterimIsSound | src/rempi/rempi_recorder_cdc.cpp:440-477 | along every run, the interim clock of a blocked rank is below all its later sends |
| JointProgress.ReaderCatchesUp | src/rempi/rempi_encoder_cdc.cpp:558-617 | along every run, a rank that has ingested all that a source counted has, after a snapshot and an update, bounds of at least the published clock of that source in all matching sets |
| JointProgress.DecodeRaises | src/rempi/rempi_encoder_cdc.cpp:1712-1802 | in the joint system, a call that hands out nothing leaves an interim clock beyond the bound that the rank computed and beyond its local clock |
| JointProgress.WaitingRoundRises | src/rempi/rempi_recorder_cdc.cpp:440-477 | along every run, if all bounds of a set are at least some clock and a call for it leaves the application waiting, then the rank publishes more than that clock and more than its local clock |
| JointProgress.SenderPublishes | src/rempi/rempi_recorder_cdc.cpp:251-287 | after a send the rank has published its ticked clock |
| JointReplay.TwoChunksAreARecordedRun | src/rempi/rempi_recorder_cdc.cpp:251-477 | what is assumed of a recorded run can be met, also with two chunks: one rank sends twice, another receives and records a chunk for each message |
| RemoteIndexing.ReceivesMatchIffDistinct | src/rempi/rempi_cp.cpp:185-210 | every rank posts as many receives as messages are sent to it if and only if no list names a rank twice |
| RemoteIndexing.WindowHoldsReaders | src/rempi/rempi_cp.cpp:198-213 | in whatever order the senders' ranks were gathered, the sorted list holds exactly the ranks that receive from this one, each once |
| RemoteIndexing.IndexMap | src/rempi/rempi_cp.cpp:312-320 | the loop maps every listed rank, and no other, to a position where it is listed |
| RemoteIndexing.SlotsAgree | src/rempi/rempi_cp.cpp:215-229 | the slot a rank reads is the one its source writes for it, lies in the window, and is no other rank's |
| EventLists.RecordingList.Push | src/rempi/rempi_event_list.cpp:66-104 | the runs stand for one more event, merged if and only if all inputs but the count agree: no two neighbouring tests agree in them |
| EventLists.RecordingList.PushAll | src/rempi/rempi_event_list.cpp:106-128 | the last run becomes visible and the list is closed |
| EventLists.CompactIsShortest | src/rempi/rempi_event_list.cpp:66-104 | no list of runs for the same events is shorter than one whose neighbouring tests differ |
| EventLists.CompactIsUnique | src/rempi/rempi_event_list.cpp:66-104 | there is exactly one such list for any events |
| EventLists.Record | src/rempi/rempi_event_list.cpp:66-128 | recording a stream writes its runs, and no other list of runs for it takes fewer ints |
| EventLists.Encode | src/rempi/rempi_encoder_basic.cpp:143-165 | the buffer holds the inputs of all events, eight ints each |
| EventLists.IntsLie | src/rempi/rempi_encoder_basic.cpp:143-165 | the ints of the i-th event are its count, type, flag, rank, with-next flag, index, message id and group id, from 8i on |
| EventLists.ReadRecord | src/rempi/rempi_encoder_basic.cpp:274-316 | the loop returns the events the ints stand for, or fails on an unknown type |
| EventLists.ReadBack | src/rempi/rempi_encoder_basic.cpp:274-316 | runs come back from their ints |
| EventLists.ReadsIffKnown | src/rempi/rempi_encoder_basic.cpp:274-316 | ints are read if and only if they are whole events of known types, and then give those events with the inputs that their type keeps |
| EventLists.ReplayingList.EnqueueReplay | src/rempi/rempi_event_list.cpp:358-385 | the first event makes the queue, and every event's copies join the pending sequence |
| EventLists.ReplayingList.DequeueReplay | src/rempi/rempi_event_list.cpp:153-244 | one event of the pending sequence is handed out; with nothing left the answer is finish exactly if the list is closed and the queue exists |
| EventLists.RecordAndReplay | src/rempi/rempi_event_list.cpp:66-385 | basic mode end to end returns the same events, and finishes if and only if there was one |
| MatchingSets.MessageSets.Change | src/rempi/rempi_request_mg.cpp:1022-1039 | every message of the old set, and no other, moves to the new set |
| MatchingSets.MessageSets.Assign | src/rempi/rempi_request_mg.cpp:1041-1066 | the messages of a call are assigned one by one, with relabelling or failure on a conflict |
| MatchingSets.CallsShareOneSet | src/rempi/rempi_request_mg.cpp:1068-1096 | in every order of the calls, all messages of one call end in one set, and messages of one set stay together |
| MatchingSets.SucceedsIffConsistent | src/rempi/rempi_request_mg.cpp:1022-1096 | outside REP mode the assignment succeeds if and only if no message is used by calls of different sets, and then each message has the set of its calls |
| MatchingSets.OnlyConnectedMerge | src/rempi/rempi_request_mg.cpp:1022-1096 | only messages connected by calls and their sets end in one set, since every colouring that the calls respect is kept, and exactly the messages of the calls are assigned |
| MatchingSets.RepNeverFails | src/rempi/rempi_request_mg.cpp:1022-1039 | in REP mode the assignment never fails |

## Left out

- ClockDeltaCompression.UpdateStart: the source reads one flag past the end once every column is matched; the loop is bounded by the number of columns.
- EpochTables.InputFormat.ExtractChunk: at shutdown the source samples emptiness before closure; what a push in between leaves in the list is not followed further.
- LookAheadProtocol.PublishedIsSound: no collective steps, here and in JointReplay. The collective clock 3 is kept in all functions of a single rank and in the decoder, but the protocol has no barrier in which ranks publish it.
- ReplayRuns.ReplayIsFaithful: one epoch of one matching set; all chunks and sets are joined in ChunkRuns.ReplayableMeansFaithful.
- EndToEnd.RecordAndReload: the tables of one chunk; whether the chunk can be opened is part of EndToEnd.ReloadedRecordIsFaithful.
- ChunkFaithfulness.FaithfulIffReplayable: the sets may be called in any order; which of these orders an application takes is not part of the record, so a record that is not replayable may be faithful for one application. That such a run is never misled, whether it stops or not, is ChunkSafety.CutsInOrderNeverMislead.
- JointReplay.JointReplayIsFaithful: one unmatched run is one delivery; records that are not replayable are not followed in the joint system.
- ReplayOrdering.TestTable.DecodeOrdering: events are values, so an event's stored clock order is part of the solid list instead of a field that the lists share; debugging output and unused counters are dropped.
- ReplayRuns.ReplayCompletes: completion once the messages are there; how a round of the protocol raises clocks and bounds before is stated in JointProgress, but not that finitely many rounds end every wait, because the collective steps by which a rank that has finished lets the others go on are not part of the protocol.
- Clocks, counts and positions of the decoder are unbounded integers; event clocks are ints in the source, so runs past 2^31 ticks are outside the model. Widths are exact in the linear prediction and the record layout, for little-endian memory with 4-byte int and 8-byte size_t.
- zlib compression, record files, separators and footers: a chunk is the sequence of its bytes.
- MPI itself: receive requests, buffers, probing and one-sided windows are abstracted to channels in order and atomic snapshots; any probed and received sets are allowed.
- RemoteIndexing.SlotsAgree: the exchange is the relation between what all ranks hold before and after it; its requests and waits are not steps.
- Progress in a separate thread: decoder calls may happen at any time in JointReplay, but steps do not overlap, and a thread that calls all sets in turn, instead of one set again, is not modelled where a chunk has just been opened.
- REP mode of the encoder, and the experimental and unused compressors.
- Memory management, statistics and debugging code.
