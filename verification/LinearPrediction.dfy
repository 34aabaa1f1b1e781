/**
  Linear prediction: every element is replaced by its difference from the line through its two
  predecessors.  The same template runs over size_t and over int, and the replayer always
  decompresses in size_t; ids and delays then go back to int by truncation.
 */
module LinearPrediction {

  const TWO_31 := 0x8000_0000
  const TWO_32 := 0x1_0000_0000
  const TWO_64 := 0x1_0000_0000_0000_0000

  type u64 = x: int | 0 <= x < 0x1_0000_0000_0000_0000
  type i32 = x: int | -0x8000_0000 <= x < 0x8000_0000

  /** Conversion to int: the low 32 bits as a signed number. */
  function ToInt(x: int): i32 {
    (x + TWO_31) % TWO_32 - TWO_31
  }

  /** Conversion to size_t: sign extension of a negative int. */
  function ToSizeT(x: int): u64 {
    x % TWO_64
  }

  /** v[i], or 0 before the first element. */
  function At(v: seq<int>, i: int): int
    requires i < |v|
  {
    if i < 0 then 0 else v[i]
  }

  function Residual(v: seq<int>, i: nat): int
    requires i < |v|
  {
    v[i] - 2 * At(v, i - 1) + At(v, i - 2)
  }

  function CompressedSizeT(v: seq<u64>): seq<u64> {
    seq(|v|, i requires 0 <= i < |v| => ToSizeT(Residual(v, i)))
  }

  function CompressedInt(v: seq<i32>): seq<i32> {
    seq(|v|, i requires 0 <= i < |v| => ToInt(Residual(v, i)))
  }

  function Decompressed(r: seq<u64>): (v: seq<u64>)
    ensures |v| == |r|
  {
    if r == [] then []
    else
      var n := |r| - 1;
      var front := Decompressed(r[..n]);
      front + [ToSizeT(r[n] + 2 * At(front, n - 1) - At(front, n - 2))]
  }

  // ----- the loops -----

  method CompressSizeT(vec: array<u64>)
    modifies vec
    ensures vec[..] == CompressedSizeT(old(vec[..]))
  {
    hide ToSizeT;
    var t0: u64, t1: u64, t2: u64 := 0, 0, 0;
    ghost var was := vec[..];
    for i := 0 to vec.Length
      invariant vec[i..] == was[i..]
      invariant vec[..i] == CompressedSizeT(was)[..i]
      invariant t1 == At(was, i - 1) && t2 == At(was, i - 2)
    {
      t0 := vec[i];
      vec[i] := ToSizeT(t0 - 2 * t1 + t2);
      t2 := t1;
      t1 := t0;
    }
    assert vec[..vec.Length] == vec[..] && CompressedSizeT(was)[..vec.Length] == CompressedSizeT(was);
  }

  method CompressInt(vec: array<i32>)
    modifies vec
    ensures vec[..] == CompressedInt(old(vec[..]))
  {
    hide ToInt;
    var t0: i32, t1: i32, t2: i32 := 0, 0, 0;
    ghost var was := vec[..];
    for i := 0 to vec.Length
      invariant vec[i..] == was[i..]
      invariant vec[..i] == CompressedInt(was)[..i]
      invariant t1 == At(was, i - 1) && t2 == At(was, i - 2)
    {
      t0 := vec[i];
      vec[i] := ToInt(t0 - 2 * t1 + t2);
      t2 := t1;
      t1 := t0;
    }
    assert vec[..vec.Length] == vec[..] && CompressedInt(was)[..vec.Length] == CompressedInt(was);
  }

  method DecompressSizeT(vec: array<u64>)
    modifies vec
    ensures vec[..] == Decompressed(old(vec[..]))
  {
    var t0: u64, t1: u64, t2: u64 := 0, 0, 0;
    ghost var was := vec[..];
    for i := 0 to vec.Length
      invariant vec[i..] == was[i..]
      invariant vec[..i] == Decompressed(was[..i])
      invariant t1 == At(Decompressed(was[..i]), i - 1) && t2 == At(Decompressed(was[..i]), i - 2)
    {
      assert was[..i + 1][..i] == was[..i];
      t0 := vec[i];
      vec[i] := ToSizeT(t0 + 2 * t1 - t2);
      t2 := t1;
      t1 := vec[i];
    }
    assert was[..vec.Length] == was && vec[..vec.Length] == vec[..];
  }

  // ----- the inverse -----

  ghost predicate Congruent(a: int, b: int, m: int)
    requires m > 0
  {
    exists k :: Apart(a, b, m, k)
  }

  ghost predicate Apart(a: int, b: int, m: int, k: int) {
    a - b == k * m
  }

  lemma CongruentCombine(a: int, a': int, b: int, b': int, c: int, c': int, m: int)
    requires m > 0 && Congruent(a, a', m) && Congruent(b, b', m) && Congruent(c, c', m)
    ensures Congruent(a + 2 * b - c, a' + 2 * b' - c', m)
  {
    var i :| Apart(a, a', m, i);
    var j :| Apart(b, b', m, j);
    var k :| Apart(c, c', m, k);
    assert i * m + 2 * (j * m) - k * m == (i + 2 * j - k) * m;
    assert Apart(a + 2 * b - c, a' + 2 * b' - c', m, i + 2 * j - k);
  }

  lemma CongruentTransitive(a: int, b: int, c: int, m: int)
    requires m > 0 && Congruent(a, b, m) && Congruent(b, c, m)
    ensures Congruent(a, c, m)
  {
    var i :| Apart(a, b, m, i);
    var j :| Apart(b, c, m, j);
    assert i * m + j * m == (i + j) * m;
    assert Apart(a, c, m, i + j);
  }

  lemma ConversionsCongruent(x: int)
    ensures Congruent(ToSizeT(x), x, TWO_64) && Congruent(ToSizeT(x), x, TWO_32)
    ensures Congruent(ToInt(x), x, TWO_32)
  {
    assert Apart(ToSizeT(x), x, TWO_64, -(x / TWO_64));
    assert Apart(ToSizeT(x), x, TWO_32, -(x / TWO_64) * TWO_32);
    assert Apart(ToInt(x), x, TWO_32, -((x + TWO_31) / TWO_32));
  }

  /** Modulo m, decompression undoes prediction whatever representatives the residuals have. */
  lemma {:induction false} DecompressedCongruent(r: seq<u64>, v: seq<int>, m: int)
    requires m == TWO_32 || m == TWO_64
    requires |r| == |v| && forall i :: 0 <= i < |v| ==> Congruent(r[i], Residual(v, i), m)
    ensures forall i :: 0 <= i < |v| ==> Congruent(Decompressed(r)[i], v[i], m)
  {
    if r != [] {
      var n := |r| - 1;
      var front, d := Decompressed(r[..n]), Decompressed(r);
      forall i | 0 <= i < n ensures Congruent(r[..n][i], Residual(v[..n], i), m) {
        assert Residual(v[..n], i) == Residual(v, i);
      }
      DecompressedCongruent(r[..n], v[..n], m);
      assert Apart(0, 0, m, 0);
      assert n >= 1 ==> Congruent(front[n - 1], v[..n][n - 1], m);
      assert n >= 2 ==> Congruent(front[n - 2], v[..n][n - 2], m);
      var sum := r[n] + 2 * At(front, n - 1) - At(front, n - 2);
      CongruentCombine(r[n], Residual(v, n), At(front, n - 1), At(v, n - 1), At(front, n - 2), At(v, n - 2), m);
      assert Residual(v, n) + 2 * At(v, n - 1) - At(v, n - 2) == v[n];
      ConversionsCongruent(sum);
      CongruentTransitive(d[n], sum, v[n], m);
      forall i | 0 <= i < |v| ensures Congruent(d[i], v[i], m) {
        if i < n {
          assert d[i] == front[i] && v[..n][i] == v[i];
        }
      }
    }
  }

  lemma CongruentEqual(a: int, b: int, m: int)
    requires m > 0 && Congruent(a, b, m) && -m < a - b < m
    ensures a == b
  {
    var k :| Apart(a, b, m, k);
    MultipleBound(k, m);
  }

  lemma MultipleBound(k: int, m: int)
    requires m > 0
    ensures k >= 1 ==> k * m >= m
    ensures k <= -1 ==> k * m <= -m
  {
  }

  /** Over size_t the pair is an inverse on every vector, with no bound on the values. */
  lemma SizeTRoundTrip(v: seq<u64>)
    ensures Decompressed(CompressedSizeT(v)) == v
  {
    var r := CompressedSizeT(v);
    forall i | 0 <= i < |v| ensures Congruent(r[i], Residual(v, i), TWO_64) {
      ConversionsCongruent(Residual(v, i));
    }
    DecompressedCongruent(r, v, TWO_64);
    forall i | 0 <= i < |v| ensures Decompressed(r)[i] == v[i] {
      CongruentEqual(Decompressed(r)[i], v[i], TWO_64);
    }
  }

  function SignExtended(v: seq<i32>): seq<u64> {
    seq(|v|, i requires 0 <= i < |v| => ToSizeT(v[i]))
  }

  function Truncated(v: seq<u64>): seq<i32> {
    seq(|v|, i requires 0 <= i < |v| => ToInt(v[i]))
  }

  /** An int stored as size_t and cast back is unchanged. */
  lemma IntThroughSizeT(v: seq<i32>)
    ensures |SignExtended(v)| == |v| && Truncated(SignExtended(v)) == v
  {
    forall i | 0 <= i < |v| ensures ToInt(ToSizeT(v[i])) == v[i] {
      ConversionsCongruent(v[i]);
      ConversionsCongruent(ToSizeT(v[i]));
      CongruentTransitive(ToInt(ToSizeT(v[i])), ToSizeT(v[i]), v[i], TWO_32);
      CongruentEqual(ToInt(ToSizeT(v[i])), v[i], TWO_32);
    }
  }

  /**
    Across widths: compressed over int, copied to size_t, decompressed over size_t, truncated to
    int.  Every vector comes back, even where the int computation wraps around.
   */
  lemma IntRoundTrip(v: seq<i32>)
    ensures Truncated(Decompressed(SignExtended(CompressedInt(v)))) == v
  {
    var c := CompressedInt(v);
    var r := SignExtended(c);
    forall i | 0 <= i < |v| ensures Congruent(r[i], Residual(v, i), TWO_32) {
      ConversionsCongruent(Residual(v, i));
      ConversionsCongruent(c[i]);
      CongruentTransitive(r[i], c[i], Residual(v, i), TWO_32);
    }
    DecompressedCongruent(r, v, TWO_32);
    var d := Decompressed(r);
    forall i | 0 <= i < |v| ensures ToInt(d[i]) == v[i] {
      ConversionsCongruent(d[i]);
      CongruentTransitive(ToInt(d[i]), d[i], v[i], TWO_32);
      CongruentEqual(ToInt(d[i]), v[i], TWO_32);
    }
  }

  // ----- overflow of the int computation -----

  predicate FitsInt(x: int) {
    -TWO_31 <= x < TWO_31
  }

  /** No operation of t0 - 2 * t1 + t2, from left to right, leaves the range of int. */
  predicate StepFits(v: seq<i32>, i: nat)
    requires i < |v|
  {
    FitsInt(2 * At(v, i - 1)) && FitsInt(v[i] - 2 * At(v, i - 1)) && FitsInt(Residual(v, i))
  }

  ghost predicate NoOverflow(v: seq<i32>) {
    forall i :: 0 <= i < |v| ==> StepFits(v, i)
  }

  /** At 2^29 the third element of this vector overflows. */
  lemma LargerValuesOverflow()
    ensures !NoOverflow([0x2000_0000, -0x2000_0000, 0x2000_0000])
  {
    var v: seq<i32> := [0x2000_0000, -0x2000_0000, 0x2000_0000];
    assert Residual(v, 2) == TWO_31 && !StepFits(v, 2);
  }

  /** Below 2^29 nothing overflows, so the stored numbers are the residuals themselves. */
  lemma SmallValuesDoNotOverflow(v: seq<i32>)
    requires forall i :: 0 <= i < |v| ==> -0x2000_0000 < v[i] < 0x2000_0000
    ensures NoOverflow(v)
    ensures forall i :: 0 <= i < |v| ==> CompressedInt(v)[i] == Residual(v, i)
  {
    forall i | 0 <= i < |v| ensures StepFits(v, i) && CompressedInt(v)[i] == Residual(v, i) {
      assert -0x2000_0000 < At(v, i - 1) < 0x2000_0000 && -0x2000_0000 < At(v, i - 2) < 0x2000_0000;
    }
  }

  ghost predicate Within(v: seq<i32>, bound: nat) {
    forall i :: 0 <= i < |v| ==> -v[i] <= bound && v[i] <= bound
  }

  /** The exact bound: all vectors with values of at most this magnitude are safe just below 2^29. */
  lemma OverflowFreeIffBelow(bound: nat)
    ensures (forall v: seq<i32> :: Within(v, bound) ==> NoOverflow(v)) <==> bound < 0x2000_0000
  {
    if bound < 0x2000_0000 {
      forall v: seq<i32> | Within(v, bound) ensures NoOverflow(v) {
        SmallValuesDoNotOverflow(v);
      }
    } else {
      LargerValuesOverflow();
      var v: seq<i32> := [0x2000_0000, -0x2000_0000, 0x2000_0000];
      assert Within(v, bound);
    }
  }

  /** An element is stored as zero exactly if it lies on the line through its two predecessors. */
  lemma ZeroIffOnTheLine(v: seq<u64>, i: nat)
    requires 2 <= i < |v|
    ensures CompressedSizeT(v)[i] == 0 <==> (At(v, i) + At(v, i - 2)) % TWO_64 == 2 * At(v, i - 1) % TWO_64
  {
    SameModulo(At(v, i) + At(v, i - 2), 2 * At(v, i - 1));
  }

  lemma SameModulo(a: int, b: int)
    ensures (a - b) % TWO_64 == 0 <==> a % TWO_64 == b % TWO_64
  {
    var p, q := a / TWO_64, b / TWO_64;
    assert a == p * TWO_64 + a % TWO_64 && b == q * TWO_64 + b % TWO_64;
    var d := a % TWO_64 - b % TWO_64;
    assert a - b == (p - q) * TWO_64 + d;
  }

  /** What the prediction is for: behind its first two elements an arithmetic progression is stored as zeros. */
  lemma LinesVanish(v: seq<u64>, first: int, step: int, i: nat)
    requires forall k :: 0 <= k < |v| ==> v[k] == first + k * step
    requires 2 <= i < |v|
    ensures CompressedSizeT(v)[i] == 0
  {
    assert At(v, i) + At(v, i - 2) == 2 * At(v, i - 1);
    ZeroIffOnTheLine(v, i);
  }
}
