/**
  The bytes of one chunk of the record: for every table its identity, epoch line, flags, indices,
  unmatched runs and moves, each vector behind its size, as the recorder queues them for writing.
 */
module RecordLayout {
  import opened EditScripts
  import opened LinearPrediction

  type byte = x: int | 0 <= x < 256

  /** The vectors of one table in the widths in which they are stored. */
  datatype Stored = Stored(
    setId: i32,
    count: i32,
    ranks: seq<u64>,
    clocks: seq<u64>,
    withPrevious: seq<u64>,
    matchedIndex: seq<u64>,
    unmatchedIds: seq<u64>,
    unmatchedCounts: seq<u64>,
    ids: seq<i32>,
    delays: seq<i32>)

  /** A parsed value and what follows it. */
  datatype Parsed<+T> = Parsed(value: T, rest: seq<byte>) | Broken

  // ----- numbers -----

  function LittleEndian(v: nat, k: nat): (bs: seq<byte>)
    ensures |bs| == k
  {
    if k == 0 then [] else [v % 256] + LittleEndian(v / 256, k - 1)
  }

  function Value(bs: seq<byte>): nat {
    if bs == [] then 0 else bs[0] + 256 * Value(bs[1..])
  }

  function Pow256(k: nat): nat {
    if k == 0 then 1 else 256 * Pow256(k - 1)
  }

  lemma {:induction false} ValueOfLittleEndian(v: nat, k: nat)
    requires v < Pow256(k)
    ensures Value(LittleEndian(v, k)) == v
  {
    if k > 0 {
      ValueOfLittleEndian(v / 256, k - 1);
      assert LittleEndian(v, k)[1..] == LittleEndian(v / 256, k - 1);
    }
  }

  /** The i-th byte is the i-th digit to the base 256, the lowest one first. */
  lemma {:induction false} LittleEndianAt(v: nat, k: nat, i: nat)
    requires i < k
    ensures Pow256(i) > 0 && LittleEndian(v, k)[i] == v / Pow256(i) % 256
  {
    PowPositive(i);
    if i > 0 {
      LittleEndianAt(v / 256, k - 1, i - 1);
      DivideTwice(v, Pow256(i - 1));
    }
  }

  lemma {:induction false} PowPositive(k: nat)
    ensures Pow256(k) > 0
  {
    if k > 0 {
      PowPositive(k - 1);
    }
  }

  lemma DivideTwice(v: nat, b: nat)
    requires b > 0
    ensures v / 256 / b == v / (256 * b)
  {
    var q := v / 256;
    var p, s := q / b, q % b;
    assert q == b * p + s;
    assert v == (256 * b) * p + (256 * s + v % 256);
    QuotientIs(v, 256 * b, p, 256 * s + v % 256);
  }

  lemma QuotientIs(v: nat, m: nat, p: nat, r: nat)
    requires m > 0 && v == m * p + r && r < m
    ensures v / m == p
  {
    var d := v / m - p;
    assert v == m * (v / m) + v % m;
    assert m * d == r - v % m;
  }

  lemma PowerOfWidths()
    ensures Pow256(4) == TWO_32 && Pow256(8) == TWO_64
  {
    assert Pow256(1) == 256 && Pow256(2) == 0x1_0000 && Pow256(3) == 0x100_0000;
    assert Pow256(4) == TWO_32 && Pow256(5) == 0x100_0000_0000 && Pow256(6) == 0x1_0000_0000_0000;
    assert Pow256(7) == 0x100_0000_0000_0000;
  }

  function Bytes64(x: u64): (bs: seq<byte>)
    ensures |bs| == 8
  {
    LittleEndian(x, 8)
  }

  function Bytes32(x: i32): (bs: seq<byte>)
    ensures |bs| == 4
  {
    LittleEndian(x % TWO_32, 4)
  }

  function Get64(bs: seq<byte>): (x: u64)
    requires |bs| >= 8
  {
    ToSizeT(Value(bs[..8]))
  }

  function Get32(bs: seq<byte>): (x: i32)
    requires |bs| >= 4
  {
    ToInt(Value(bs[..4]))
  }

  lemma Get64Bytes(x: u64, rest: seq<byte>)
    ensures Get64(Bytes64(x) + rest) == x && (Bytes64(x) + rest)[8..] == rest
  {
    PowerOfWidths();
    ValueOfLittleEndian(x, 8);
    assert (Bytes64(x) + rest)[..8] == Bytes64(x);
  }

  lemma Get32Bytes(x: i32, rest: seq<byte>)
    ensures Get32(Bytes32(x) + rest) == x && (Bytes32(x) + rest)[4..] == rest
  {
    PowerOfWidths();
    ValueOfLittleEndian(x % TWO_32, 4);
    assert (Bytes32(x) + rest)[..4] == Bytes32(x);
    ModBack(x);
  }

  lemma ModBack(x: i32)
    ensures ToInt(x % TWO_32) == x
  {
    assert x % TWO_32 == if x >= 0 then x else x + TWO_32;
  }

  // ----- vectors -----

  function Words64(v: seq<u64>): (bs: seq<byte>)
    ensures |bs| == 8 * |v|
  {
    if v == [] then [] else Bytes64(v[0]) + Words64(v[1..])
  }

  function Words32(v: seq<i32>): (bs: seq<byte>)
    ensures |bs| == 4 * |v|
  {
    if v == [] then [] else Bytes32(v[0]) + Words32(v[1..])
  }

  /** rempi_copy_vec: n numbers from the front. */
  function Read64(bs: seq<byte>, n: nat): (v: seq<u64>)
    requires |bs| >= 8 * n
    ensures |v| == n
  {
    if n == 0 then [] else [Get64(bs)] + Read64(bs[8..], n - 1)
  }

  function Read32(bs: seq<byte>, n: nat): (v: seq<i32>)
    requires |bs| >= 4 * n
    ensures |v| == n
  {
    if n == 0 then [] else [Get32(bs)] + Read32(bs[4..], n - 1)
  }

  lemma {:induction false} Read64Words(v: seq<u64>, rest: seq<byte>)
    ensures Read64(Words64(v) + rest, |v|) == v && (Words64(v) + rest)[8 * |v|..] == rest
    decreases |v|
  {
    if v != [] {
      var tail := Words64(v[1..]) + rest;
      assert Words64(v) + rest == Bytes64(v[0]) + tail;
      Get64Bytes(v[0], tail);
      Read64Words(v[1..], rest);
    }
  }

  lemma {:induction false} Read32Words(v: seq<i32>, rest: seq<byte>)
    ensures Read32(Words32(v) + rest, |v|) == v && (Words32(v) + rest)[4 * |v|..] == rest
    decreases |v|
  {
    if v != [] {
      var tail := Words32(v[1..]) + rest;
      assert Words32(v) + rest == Bytes32(v[0]) + tail;
      Get32Bytes(v[0], tail);
      Read32Words(v[1..], rest);
    }
  }

  /** A vector fits the memory of the recorder. */
  predicate Fits<T>(v: seq<T>) {
    8 * |v| < TWO_64
  }

  // ----- the sections of a table -----

  lemma SplitBytes(size: seq<byte>, first: seq<byte>, second: seq<byte>, rest: seq<byte>)
    ensures var bs := size + first + second + rest;
      && bs == size + (first + (second + rest)) && bs[|size|..] == first + (second + rest)
      && bs[|size| + |first|..] == second + rest && bs[|size| + |first| + |second|..] == rest
  {
  }

  function Section64(v: seq<u64>): seq<byte>
    requires Fits(v)
  {
    Bytes64(8 * |v|) + Words64(v)
  }

  function TakeSection64(bs: seq<byte>): (p: Parsed<seq<u64>>)
    ensures p.Parsed? ==> |p.rest| < |bs|
  {
    if |bs| < 8 then Broken
    else
      var size := Get64(bs);
      if |bs| < 8 + size then Broken
      else Parsed(Read64(bs[8..], size / 8), bs[8 + size..])
  }

  lemma TakeSection64Back(v: seq<u64>, rest: seq<byte>)
    requires Fits(v)
    ensures TakeSection64(Section64(v) + rest) == Parsed(v, rest)
  {
    var bs := Section64(v) + rest;
    assert bs == Bytes64(8 * |v|) + (Words64(v) + rest);
    Get64Bytes(8 * |v|, Words64(v) + rest);
    Read64Words(v, rest);
    assert bs[8 + 8 * |v|..] == bs[8..][8 * |v|..];
  }

  function Head(t: Stored): seq<byte> {
    Bytes32(t.setId) + Bytes32(t.count)
  }

  function TakeHead(bs: seq<byte>): (p: Parsed<(i32, i32)>)
    ensures p.Parsed? ==> |p.rest| < |bs|
  {
    if |bs| < 8 then Broken else Parsed((Get32(bs), Get32(bs[4..])), bs[8..])
  }

  lemma TakeHeadBack(t: Stored, rest: seq<byte>)
    ensures TakeHead(Head(t) + rest) == Parsed((t.setId, t.count), rest)
  {
    var bs := Head(t) + rest;
    assert bs == Bytes32(t.setId) + (Bytes32(t.count) + rest);
    Get32Bytes(t.setId, Bytes32(t.count) + rest);
    Get32Bytes(t.count, rest);
    assert bs[8..] == bs[4..][4..];
  }

  /** Ranks and clocks of the epoch line share one size. */
  function EpochSection(t: Stored): seq<byte>
    requires Fits(t.ranks)
  {
    Bytes64(8 * |t.ranks|) + Words64(t.ranks) + Words64(t.clocks)
  }

  function TakeEpoch(bs: seq<byte>): (p: Parsed<(seq<u64>, seq<u64>)>)
    ensures p.Parsed? ==> |p.rest| < |bs|
  {
    if |bs| < 8 then Broken
    else
      var size := Get64(bs);
      if |bs| < 8 + size + size then Broken
      else Parsed((Read64(bs[8..], size / 8), Read64(bs[8 + size..], size / 8)), bs[8 + size + size..])
  }

  lemma TakeEpochBack(t: Stored, rest: seq<byte>)
    requires Fits(t.ranks) && |t.ranks| == |t.clocks|
    ensures TakeEpoch(EpochSection(t) + rest) == Parsed((t.ranks, t.clocks), rest)
  {
    hide Words64, Read64, Bytes64, Get64;
    SplitBytes(Bytes64(8 * |t.ranks|), Words64(t.ranks), Words64(t.clocks), rest);
    Get64Bytes(8 * |t.ranks|, Words64(t.ranks) + (Words64(t.clocks) + rest));
    Read64Words(t.ranks, Words64(t.clocks) + rest);
    Read64Words(t.clocks, rest);
  }

  /** A length, which the parser only keeps, in front of a sized vector. */
  function CountedSection(v: seq<u64>): seq<byte>
    requires Fits(v)
  {
    Bytes64(|v|) + Section64(v)
  }

  function TakeCounted(bs: seq<byte>): (p: Parsed<seq<u64>>)
    ensures p.Parsed? ==> |p.rest| < |bs|
  {
    if |bs| < 8 then Broken else TakeSection64(bs[8..])
  }

  lemma TakeCountedBack(v: seq<u64>, rest: seq<byte>)
    requires Fits(v)
    ensures TakeCounted(CountedSection(v) + rest) == Parsed(v, rest)
  {
    var bs := CountedSection(v) + rest;
    assert bs == Bytes64(|v|) + (Section64(v) + rest);
    Get64Bytes(|v|, Section64(v) + rest);
    TakeSection64Back(v, rest);
  }

  /** Ids and delays behind their common size in bytes. */
  function MovesSection(t: Stored): seq<byte>
    requires Fits(t.ids)
  {
    Bytes64(8 * |t.ids|) + Words32(CompressedInt(t.ids)) + Words32(CompressedInt(t.delays))
  }

  function TakeMoves(bs: seq<byte>): (p: Parsed<(seq<i32>, seq<i32>)>)
    ensures p.Parsed? ==> |p.rest| < |bs|
  {
    if |bs| < 8 then Broken
    else
      var size := Get64(bs);
      if |bs| < 8 + size then Broken
      else
        var n := size / 4 / 2;
        Parsed((Restored(Read32(bs[8..], n)), Restored(Read32(bs[8 + 4 * n..], n))), bs[8 + size..])
  }

  /** rempi_copy_vec_int into size_t, decompression there, and the casts back to int. */
  function Restored(v: seq<i32>): seq<i32> {
    Truncated(Decompressed(SignExtended(v)))
  }

  lemma TakeMovesBack(t: Stored, rest: seq<byte>)
    requires Fits(t.ids) && |t.ids| == |t.delays|
    ensures TakeMoves(MovesSection(t) + rest) == Parsed((t.ids, t.delays), rest)
  {
    hide Words32, Read32, Bytes64, Get64, Restored, CompressedInt;
    var ids, delays := CompressedInt(t.ids), CompressedInt(t.delays);
    SplitBytes(Bytes64(8 * |t.ids|), Words32(ids), Words32(delays), rest);
    Get64Bytes(8 * |t.ids|, Words32(ids) + (Words32(delays) + rest));
    MovesRestored(t.ids);
    MovesRestored(t.delays);
    Read32Words(ids, Words32(delays) + rest);
    Read32Words(delays, rest);
    MovesTaken(MovesSection(t) + rest, ids, delays, rest);
  }

  /** What is taken from bytes that hold a size and two vectors behind it. */
  lemma MovesTaken(bs: seq<byte>, ids: seq<i32>, delays: seq<i32>, rest: seq<byte>)
    requires |bs| >= 8 && Get64(bs) == 8 * |ids| && |ids| == |delays| && |bs| >= 8 + 8 * |ids|
    requires Read32(bs[8..], |ids|) == ids && Read32(bs[8 + 4 * |ids|..], |ids|) == delays && bs[8 + 8 * |ids|..] == rest
    ensures TakeMoves(bs) == Parsed((Restored(ids), Restored(delays)), rest)
  {
    hide Read32, Get64, Restored;
    assert 8 * |ids| / 4 / 2 == |ids|;
  }

  lemma MovesRestored(v: seq<i32>)
    ensures |CompressedInt(v)| == |v| && Restored(CompressedInt(v)) == v
  {
    IntRoundTrip(v);
  }

  // ----- tables -----

  predicate Storable(t: Stored) {
    && |t.ranks| == |t.clocks| && |t.ids| == |t.delays|
    && Fits(t.ranks) && Fits(t.withPrevious) && Fits(t.matchedIndex)
    && Fits(t.unmatchedIds) && Fits(t.unmatchedCounts) && Fits(t.ids)
  }

  /** What compress_non_matched_events and compress_matched_events queue, in front of the rest. */
  function Write(t: Stored, rest: seq<byte>): seq<byte>
    requires Storable(t)
  {
    Head(t) + (EpochSection(t) + (CountedSection(CompressedSizeT(t.withPrevious)) + (CountedSection(t.matchedIndex)
    + (Section64(CompressedSizeT(t.unmatchedIds)) + (Section64(t.unmatchedCounts) + (MovesSection(t) + rest))))))
  }

  function WriteAll(ts: seq<Stored>): seq<byte>
    requires forall i :: 0 <= i < |ts| ==> Storable(ts[i])
  {
    if ts == [] then [] else Write(ts[0], WriteAll(ts[1..]))
  }

  function Parse(bs: seq<byte>): (p: Parsed<Stored>)
    ensures p.Parsed? ==> |p.rest| < |bs|
  {
    match TakeHead(bs)
    case Broken => Broken
    case Parsed(head, bs1) =>
      match TakeEpoch(bs1)
      case Broken => Broken
      case Parsed(epoch, bs2) => ParseVectors(bs2, Stored(head.0, head.1, epoch.0, epoch.1, [], [], [], [], [], []))
  }

  function ParseVectors(bs: seq<byte>, t: Stored): (p: Parsed<Stored>)
    ensures p.Parsed? ==> |p.rest| < |bs|
  {
    match TakeCounted(bs)
    case Broken => Broken
    case Parsed(withPrevious, bs1) =>
      match TakeCounted(bs1)
      case Broken => Broken
      case Parsed(matchedIndex, bs2) =>
        ParseRuns(bs2, t.(withPrevious := Decompressed(withPrevious), matchedIndex := matchedIndex))
  }

  function ParseRuns(bs: seq<byte>, t: Stored): (p: Parsed<Stored>)
    ensures p.Parsed? ==> |p.rest| < |bs|
  {
    match TakeSection64(bs)
    case Broken => Broken
    case Parsed(ids, bs1) =>
      match TakeSection64(bs1)
      case Broken => Broken
      case Parsed(counts, bs2) =>
        match TakeMoves(bs2)
        case Broken => Broken
        case Parsed(moves, rest) =>
          Parsed(t.(unmatchedIds := Decompressed(ids), unmatchedCounts := counts, ids := moves.0, delays := moves.1), rest)
  }

  /** One table comes back, and the parser stands exactly behind it. */
  lemma ParseWritten(t: Stored, rest: seq<byte>)
    requires Storable(t)
    ensures Parse(Write(t, rest)) == Parsed(t, rest)
  {
    var moves := MovesSection(t) + rest;
    var counts := Section64(t.unmatchedCounts) + moves;
    var ids := Section64(CompressedSizeT(t.unmatchedIds)) + counts;
    var index := CountedSection(t.matchedIndex) + ids;
    var flags := CountedSection(CompressedSizeT(t.withPrevious)) + index;
    var epoch := EpochSection(t) + flags;
    TakeHeadBack(t, epoch);
    TakeEpochBack(t, flags);
    TakeCountedBack(CompressedSizeT(t.withPrevious), index);
    TakeCountedBack(t.matchedIndex, ids);
    TakeSection64Back(CompressedSizeT(t.unmatchedIds), counts);
    TakeSection64Back(t.unmatchedCounts, moves);
    TakeMovesBack(t, rest);
    SizeTRoundTrip(t.withPrevious);
    SizeTRoundTrip(t.unmatchedIds);
  }

  // ----- where everything lies -----

  /** Behind its size in bytes, at offset o. */
  ghost predicate SizedAt(bs: seq<byte>, o: nat, v: seq<u64>) {
    o + 8 + 8 * |v| <= |bs| && Get64(bs[o..]) == 8 * |v| && Read64(bs[o + 8..], |v|) == v
  }

  /** Its length, then its size in bytes, then the vector. */
  ghost predicate CountedAt(bs: seq<byte>, o: nat, v: seq<u64>) {
    o + 8 <= |bs| && Get64(bs[o..]) == |v| && SizedAt(bs, o + 8, v)
  }

  lemma SectionLies(bs: seq<byte>, o: nat, v: seq<u64>, tail: seq<byte>)
    requires Fits(v) && o <= |bs| && bs[o..] == Section64(v) + tail
    ensures SizedAt(bs, o, v) && o + 8 + 8 * |v| <= |bs| && bs[o + 8 + 8 * |v|..] == tail
  {
    hide Words64, Read64, Bytes64, Get64;
    assert bs[o..] == Bytes64(8 * |v|) + (Words64(v) + tail);
    Get64Bytes(8 * |v|, Words64(v) + tail);
    Read64Words(v, tail);
    assert bs[o + 8..] == bs[o..][8..] && bs[o + 8 + 8 * |v|..] == bs[o + 8..][8 * |v|..];
  }

  lemma CountedLies(bs: seq<byte>, o: nat, v: seq<u64>, tail: seq<byte>)
    requires Fits(v) && o <= |bs| && bs[o..] == CountedSection(v) + tail
    ensures CountedAt(bs, o, v) && o + 16 + 8 * |v| <= |bs| && bs[o + 16 + 8 * |v|..] == tail
  {
    hide Section64, Bytes64, Get64, SizedAt;
    assert bs[o..] == Bytes64(|v|) + (Section64(v) + tail);
    Get64Bytes(|v|, Section64(v) + tail);
    assert bs[o + 8..] == bs[o..][8..];
    SectionLies(bs, o + 8, v, tail);
  }

  /** Head and epoch line: identity, number of events, the common size, ranks and clocks. */
  ghost predicate FrontAt(bs: seq<byte>, t: Stored) {
    var n := |t.ranks|;
    && 16 + 16 * n <= |bs| && |t.clocks| == n && Get32(bs) == t.setId && Get32(bs[4..]) == t.count
    && Get64(bs[8..]) == 8 * n && Read64(bs[16..], n) == t.ranks && Read64(bs[16 + 8 * n..], n) == t.clocks
  }

  lemma FrontLies(bs: seq<byte>, t: Stored, tail: seq<byte>)
    requires Fits(t.ranks) && |t.ranks| == |t.clocks| && bs == Head(t) + (EpochSection(t) + tail)
    ensures FrontAt(bs, t) && 16 + 16 * |t.ranks| <= |bs| && bs[16 + 16 * |t.ranks|..] == tail
  {
    hide Words64, Read64, Bytes64, Get64, Bytes32, Get32;
    var n, rest := |t.ranks|, EpochSection(t) + tail;
    assert bs == Bytes32(t.setId) + (Bytes32(t.count) + rest);
    Get32Bytes(t.setId, Bytes32(t.count) + rest);
    Get32Bytes(t.count, rest);
    SplitBytes(Bytes64(8 * n), Words64(t.ranks), Words64(t.clocks), tail);
    Get64Bytes(8 * n, Words64(t.ranks) + (Words64(t.clocks) + tail));
    Read64Words(t.ranks, Words64(t.clocks) + tail);
    Read64Words(t.clocks, tail);
    assert bs[8..] == rest && bs[16..] == rest[8..] && bs[16 + 8 * n..] == rest[8 + 8 * n..] && bs[16 + 16 * n..] == rest[8 + 8 * n + 8 * n..];
  }

  /** The compressed moves behind their common size. */
  ghost predicate MovesAt(bs: seq<byte>, o: nat, ids: seq<i32>, delays: seq<i32>) {
    && o + 8 + 4 * |ids| + 4 * |delays| <= |bs| && Get64(bs[o..]) == 4 * |ids| + 4 * |delays|
    && Read32(bs[o + 8..], |ids|) == ids && Read32(bs[o + 8 + 4 * |ids|..], |delays|) == delays
  }

  lemma MovesLie(bs: seq<byte>, o: nat, t: Stored, tail: seq<byte>)
    requires Fits(t.ids) && |t.ids| == |t.delays| && o <= |bs| && bs[o..] == MovesSection(t) + tail
    ensures MovesAt(bs, o, CompressedInt(t.ids), CompressedInt(t.delays)) && o + 8 + 8 * |t.ids| <= |bs| && bs[o + 8 + 8 * |t.ids|..] == tail
  {
    hide Words32, Read32, Bytes64, Get64, CompressedInt;
    MovesRestored(t.ids);
    MovesRestored(t.delays);
    var ids, delays := CompressedInt(t.ids), CompressedInt(t.delays);
    SplitBytes(Bytes64(8 * |ids|), Words32(ids), Words32(delays), tail);
    Get64Bytes(8 * |ids|, Words32(ids) + (Words32(delays) + tail));
    Read32Words(ids, Words32(delays) + tail);
    Read32Words(delays, tail);
    var rest := bs[o..];
    assert bs[o + 8..] == rest[8..] && bs[o + 8 + 4 * |ids|..] == rest[8 + 4 * |ids|..];
    assert bs[o + 8 + 8 * |ids|..] == rest[8 + 4 * |ids| + 4 * |delays|..];
  }

  /** The offsets of a table's parts: every number and vector, each length and size in front of it, and where the next table begins. */
  lemma Layout(t: Stored, rest: seq<byte>)
    requires Storable(t)
    ensures var bs := Write(t, rest);
      var flags := 16 + 16 * |t.ranks|;
      var index := flags + 16 + 8 * |t.withPrevious|;
      var ids := index + 16 + 8 * |t.matchedIndex|;
      var counts := ids + 8 + 8 * |t.unmatchedIds|;
      var moves := counts + 8 + 8 * |t.unmatchedCounts|;
      && FrontAt(bs, t) && CountedAt(bs, flags, CompressedSizeT(t.withPrevious)) && CountedAt(bs, index, t.matchedIndex)
      && SizedAt(bs, ids, CompressedSizeT(t.unmatchedIds)) && SizedAt(bs, counts, t.unmatchedCounts)
      && MovesAt(bs, moves, CompressedInt(t.ids), CompressedInt(t.delays))
      && moves + 8 + 8 * |t.ids| <= |bs| && bs[moves + 8 + 8 * |t.ids|..] == rest
  {
    hide *;
    SameSizes(t);
    WriteIs(t, rest);
    var bs, last := Write(t, rest), MovesSection(t) + rest;
    var tail4 := Section64(t.unmatchedCounts) + last;
    var tail3 := Section64(CompressedSizeT(t.unmatchedIds)) + tail4;
    var tail2 := CountedSection(t.matchedIndex) + tail3;
    var tail1 := CountedSection(CompressedSizeT(t.withPrevious)) + tail2;
    FrontLies(bs, t, tail1);
    var flags := 16 + 16 * |t.ranks|;
    CountedLies(bs, flags, CompressedSizeT(t.withPrevious), tail2);
    var index := flags + 16 + 8 * |t.withPrevious|;
    CountedLies(bs, index, t.matchedIndex, tail3);
    var ids := index + 16 + 8 * |t.matchedIndex|;
    SectionLies(bs, ids, CompressedSizeT(t.unmatchedIds), tail4);
    var counts := ids + 8 + 8 * |t.unmatchedIds|;
    SectionLies(bs, counts, t.unmatchedCounts, last);
    MovesLie(bs, counts + 8 + 8 * |t.unmatchedCounts|, t, rest);
  }

  lemma SameSizes(t: Stored)
    requires Storable(t)
    ensures |CompressedSizeT(t.withPrevious)| == |t.withPrevious| && |CompressedSizeT(t.unmatchedIds)| == |t.unmatchedIds|
    ensures |t.ranks| == |t.clocks| && |t.ids| == |t.delays| && Fits(t.ranks) && Fits(t.matchedIndex) && Fits(t.unmatchedCounts) && Fits(t.ids)
    ensures Fits(CompressedSizeT(t.withPrevious)) && Fits(CompressedSizeT(t.unmatchedIds))
  {
  }

  lemma WriteIs(t: Stored, rest: seq<byte>)
    requires Storable(t) && Fits(CompressedSizeT(t.withPrevious)) && Fits(CompressedSizeT(t.unmatchedIds))
    ensures Write(t, rest) == Head(t) + (EpochSection(t) + (CountedSection(CompressedSizeT(t.withPrevious)) + (CountedSection(t.matchedIndex)
      + (Section64(CompressedSizeT(t.unmatchedIds)) + (Section64(t.unmatchedCounts) + (MovesSection(t) + rest))))))
  {
    hide Head, EpochSection, CountedSection, Section64, MovesSection, CompressedSizeT;
  }

  function ParseAll(bs: seq<byte>): Option<seq<Stored>>
    decreases |bs|
  {
    if bs == [] then Some([])
    else
      match Parse(bs)
      case Broken => None
      case Parsed(t, rest) =>
        match ParseAll(rest)
        case None => None
        case Some(ts) => Some([t] + ts)
  }

  /** Round trip of a whole chunk. */
  lemma {:induction false} ParseAllWritten(ts: seq<Stored>)
    requires forall i :: 0 <= i < |ts| ==> Storable(ts[i])
    ensures ParseAll(WriteAll(ts)) == Some(ts)
    decreases |ts|
  {
    hide Parse, Write, Storable;
    if ts != [] {
      ParseWritten(ts[0], WriteAll(ts[1..]));
      ParseAllWritten(ts[1..]);
      assert ts == [ts[0]] + ts[1..];
    }
  }

  // ----- the loops -----

  lemma WriteOneMore(ts: seq<Stored>, i: nat, bytes: seq<byte>)
    requires i < |ts| && forall i :: 0 <= i < |ts| ==> Storable(ts[i])
    ensures bytes + WriteAll(ts[i..]) == bytes + Write(ts[i], []) + WriteAll(ts[i + 1..])
  {
    WriteSplits(ts[i], WriteAll(ts[i + 1..]));
    hide Write, Storable;
    assert ts[i..][1..] == ts[i + 1..];
  }

  /** The tables of a chunk, queued one behind the other. */
  method EncodeTables(ts: seq<Stored>) returns (bytes: seq<byte>)
    requires forall i :: 0 <= i < |ts| ==> Storable(ts[i])
    ensures bytes == WriteAll(ts)
  {
    hide Write, Storable;
    bytes := [];
    for i := 0 to |ts|
      invariant bytes + WriteAll(ts[i..]) == WriteAll(ts)
    {
      WriteOneMore(ts, i, bytes);
      bytes := bytes + Write(ts[i], []);
    }
  }

  lemma WriteSplits(t: Stored, rest: seq<byte>)
    requires Storable(t)
    ensures Write(t, rest) == Write(t, []) + rest
  {
  }

  /**
    decode: tables while the cursor is before the end.  `consistent` is false where the source reads
    past the end or reports an inconsistent size.
   */
  method DecodeTables(bytes: seq<byte>) returns (tables: seq<Stored>, consistent: bool)
    ensures match ParseAll(bytes)
            case Some(ts) => consistent && tables == ts
            case None => !consistent
  {
    hide Parse;
    tables, consistent := [], true;
    assert bytes[0..] == bytes && (ParseAll(bytes).Some? ==> tables + ParseAll(bytes).value == ParseAll(bytes).value);
    var cursor := 0;
    while cursor < |bytes|
      invariant cursor <= |bytes|
      invariant match ParseAll(bytes[cursor..])
                case Some(ts) => ParseAll(bytes) == Some(tables + ts)
                case None => ParseAll(bytes) == None
    {
      match Parse(bytes[cursor..])
      case Broken =>
        return tables, false;
      case Parsed(t, rest) =>
        var next := |bytes| - |rest|;
        SuffixOfParse(bytes[cursor..]);
        ParseOneMore(bytes, cursor, next, tables, t);
        tables, cursor := tables + [t], next;
    }
  }

  lemma ParseOneMore(bytes: seq<byte>, cursor: nat, next: nat, tables: seq<Stored>, t: Stored)
    requires cursor < next <= |bytes| && Parse(bytes[cursor..]) == Parsed(t, bytes[next..])
    requires match ParseAll(bytes[cursor..])
             case Some(ts) => ParseAll(bytes) == Some(tables + ts)
             case None => ParseAll(bytes) == None
    ensures match ParseAll(bytes[next..])
            case Some(ts) => ParseAll(bytes) == Some(tables + [t] + ts)
            case None => ParseAll(bytes) == None
  {
    hide Parse;
    match ParseAll(bytes[next..])
    case None =>
    case Some(ts) =>
      assert tables + ([t] + ts) == tables + [t] + ts;
  }

  /** The parser only moves forward: what it leaves is a suffix of what it got. */
  ghost predicate IsSuffix(rest: seq<byte>, bs: seq<byte>) {
    |rest| <= |bs| && rest == bs[|bs| - |rest|..]
  }

  lemma SuffixOfParse(bs: seq<byte>)
    ensures Parse(bs).Parsed? ==> IsSuffix(Parse(bs).rest, bs)
  {
    hide Get64, Read64, Read32, Restored, Decompressed;
  }
}
