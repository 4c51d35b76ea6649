/**
 * The fixed-point layer-norm golden model
 * (missalinious/transformer/layernorm/layernorm_fixed.py).
 *
 * Mean and variance are floor divisions by `LEN`; the inverse standard
 * deviation comes from a sixteen-entry table indexed by the variance shifted
 * right by 16 and then by 12 (clamped to `[1, 16]`), and each output is the
 * deviation from the mean times that factor, shifted right by 16.
 */
module LayerNormFixed {
  import opened FixedPoint

  /** The script's module-level results: `mean`, `var`, `inv_std`, `y`. */
  datatype LayerNormOut = LayerNormOut(mean: int, variance: int, invStd: int, y: seq<int>)

  /**
   * `1 / sqrt(k)` in Q0.16 (saturated at 65535 for `k = 1`); the script's
   * dictionary has the keys 1 to 16, so key `k` sits at position `k - 1`.
   */
  const RsqrtTable: seq<int> := [
    65535, 46340, 37837, 32768,
    29309, 26755, 24606, 23170,
    21845, 20724, 19727, 18868,
    18096, 17476, 16861, 16384]

  /** The table index `max(1, min(16, v >> 12))`. */
  function RsqrtIndex(v: int): (k: int)
    ensures 1 <= k <= 16
  {
    Clamp(Shr(v, 12), 1, 16)
  }

  /** `rsqrt_lut`: the clamped index always has a table entry, so the lookup never fails. */
  function RsqrtLut(v: int): (r: int)
    ensures 16384 <= r <= 65535
  {
    RsqrtTable[RsqrtIndex(v) - 1]
  }

  /** The table shrinks as its index grows. */
  lemma RsqrtTableAntitone(a: int, b: int)
    requires 1 <= a <= b <= 16
    ensures RsqrtTable[a - 1] >= RsqrtTable[b - 1]
  {
  }

  /** `rsqrt_lut` is monotone non-increasing. */
  lemma RsqrtLutAntitone(v: int, w: int)
    requires v <= w
    ensures RsqrtLut(v) >= RsqrtLut(w)
  {
    ShrMonotone(v, w, 12);
    RsqrtTableAntitone(RsqrtIndex(v), RsqrtIndex(w));
  }

  /** `inv_std = rsqrt_lut(var >> 16)` looks up the variance shifted right by 28 in all. */
  lemma InvStdIndex(variance: int)
    ensures RsqrtLut(Shr(variance, 16)) == RsqrtTable[Clamp(Shr(variance, 28), 1, 16) - 1]
  {
    ShrShr(variance, 16, 12);
  }

  /** `diff * diff` for every entry. */
  function Squares(d: seq<int>): (q: seq<int>)
    ensures |q| == |d|
    ensures AllNonNeg(q)
  {
    seq(|d|, i requires 0 <= i < |d| => d[i] * d[i])
  }

  /**
   * The whole script from `x` onwards, dividing by a positive `len`
   * (the script's `LEN`, which equals `|x|` there).
   */
  function LayerNorm(x: seq<int>, len: int): (r: LayerNormOut)
    requires len > 0
    ensures r.variance >= 0
    ensures r.invStd == RsqrtTable[Clamp(Shr(r.variance, 28), 1, 16) - 1]
    ensures |r.y| == |x|
  {
    FromDeviations(Sum(x) / len, Deviations(x, len), len)
  }

  /** `diff = x - mean` with `mean = sum(x) // len`. */
  function Deviations(x: seq<int>, len: int): (d: seq<int>)
    requires len > 0
    ensures |d| == |x|
  {
    Shift(x, -(Sum(x) / len))
  }

  /** `mean` and `var` are the floor quotients of the sum and of the sum of squared deviations by `len`. */
  lemma {:induction false} MeanAndVariance(x: seq<int>, len: int)
    requires len > 0
    ensures var r := LayerNorm(x, len);
      r.mean * len <= Sum(x) < r.mean * len + len &&
      r.variance * len <= Sum(Squares(Deviations(x, len))) < r.variance * len + len
  {
    var diff := Deviations(x, len);
    assert LayerNorm(x, len).mean == Sum(x) / len;
    assert LayerNorm(x, len).variance == Sum(Squares(diff)) / len;
    DivFloor(Sum(x), len);
    DivFloor(Sum(Squares(diff)), len);
  }

  /** `var`, `inv_std` and `y` from the deviations `diff = x - mean`. */
  function FromDeviations(mean: int, diff: seq<int>, len: int): (r: LayerNormOut)
    requires len > 0
    ensures r.mean == mean && |r.y| == |diff|
    ensures r.variance >= 0
    ensures r.invStd == RsqrtTable[Clamp(Shr(r.variance, 28), 1, 16) - 1]
  {
    var variance := Sum(Squares(diff)) / len;
    SumNonNeg(Squares(diff));
    InvStdIndex(variance);
    var invStd := RsqrtLut(Shr(variance, 16));
    LayerNormOut(mean, variance, invStd, MulShr(diff, invStd, 16))
  }

  /** The output is non-negative exactly when the input is at least the mean. */
  lemma {:induction false} SignPreserved(x: seq<int>, len: int, i: int)
    requires len > 0 && 0 <= i < |x|
    ensures LayerNorm(x, len).y[i] >= 0 <==> x[i] >= LayerNorm(x, len).mean
  {
    var r := LayerNorm(x, len);
    var d := x[i] - r.mean;
    assert r.y[i] == Shr(d * r.invStd, 16);
    ShrSign(d * r.invStd, 16);
    if d >= 0 {
      MulMonotone(0, d, r.invStd);
    } else {
      MulMonotone(d, -1, r.invStd);
    }
  }

  /** The output is no larger in magnitude than the deviation from the mean. */
  lemma {:induction false} MagnitudeBound(x: seq<int>, len: int, i: int)
    requires len > 0 && 0 <= i < |x|
    ensures var r := LayerNorm(x, len);
      -(x[i] - r.mean) <= r.y[i] <= x[i] - r.mean || x[i] - r.mean <= r.y[i] <= -(x[i] - r.mean)
  {
    var r := LayerNorm(x, len);
    assert r.y[i] == Shr((x[i] - r.mean) * r.invStd, 16);
    ScaleTowardZero(x[i] - r.mean, r.invStd);
  }

  /** `(d * s) >> 16` lies between 0 and `d` for a factor `s` of at most 2^16. */
  lemma ScaleTowardZero(d: int, s: int)
    requires 0 <= s <= 65536
    ensures d >= 0 ==> 0 <= Shr(d * s, 16) <= d
    ensures d < 0 ==> d <= Shr(d * s, 16) <= 0
  {
    var p := d * s;
    Pow2Constants();
    ShrUnique(d * 65536, 16, d);
    ShrUnique(0, 16, 0);
    if d >= 0 {
      MulMonotone(0, d, s);
      MulMonotone(s, 65536, d);
      ShrMonotone(0, p, 16);
      ShrMonotone(p, d * 65536, 16);
    } else {
      MulMonotone(d, 0, s);
      MulMonotone(d, 0, 65536 - s);
      MulDistrib(65536, -s, d);
      ShrMonotone(p, 0, 16);
      ShrMonotone(d * 65536, p, 16);
    }
  }

  /** Adding `c` to every entry raises the floor mean by exactly `c` and leaves the deviations from it unchanged. */
  lemma {:induction false} DeviationsInvariant(x: seq<int>, c: int)
    requires |x| > 0
    ensures Sum(Shift(x, c)) / |x| == Sum(x) / |x| + c
    ensures Deviations(Shift(x, c), |x|) == Deviations(x, |x|)
  {
    var n, m := |x|, Sum(x) / |x|;
    SumShift(x, c);
    FloorMeanShift(Sum(x), n, c, Sum(Shift(x, c)));
    ShiftShift(x, c, -(m + c));
    assert c + -(m + c) == -m;
  }

  /** `t // n == s // n + c` for a positive `n` and `t == s + n * c`. */
  lemma FloorMeanShift(s: int, n: int, c: int, t: int)
    requires n > 0 && t == s + n * c
    ensures t / n == s / n + c
  {
    var m := s / n;
    DivFloor(s, n);
    MulDistrib(m, c, n);
    DivUnique(t, n, m + c, s - m * n);
  }

  /** Adding `c` to every input raises the mean by `c` and leaves the variance, `inv_std` and the outputs unchanged. */
  lemma {:induction false} TranslationInvariant(x: seq<int>, c: int)
    requires |x| > 0
    ensures var r, u := LayerNorm(x, |x|), LayerNorm(Shift(x, c), |x|);
      u.mean == r.mean + c && u.variance == r.variance && u.invStd == r.invStd && u.y == r.y
  {
    DeviationsInvariant(x, c);
    MeanIgnored(Sum(Shift(x, c)) / |x|, Sum(x) / |x|, Deviations(x, |x|), |x|);
  }

  /** Only the deviations, not the mean, determine `var`, `inv_std` and `y`. */
  lemma MeanIgnored(m: int, m': int, d: seq<int>, len: int)
    requires len > 0
    ensures FromDeviations(m, d, len).variance == FromDeviations(m', d, len).variance
    ensures FromDeviations(m, d, len).invStd == FromDeviations(m', d, len).invStd
    ensures FromDeviations(m, d, len).y == FromDeviations(m', d, len).y
  {
  }
}
