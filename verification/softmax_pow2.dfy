/**
 * The "stable" power-of-two softmax golden model on Q8.8 input
 * (missalinious/transformer/Softmax1/softmax_golden.py).
 *
 * Each entry's distance to the maximum is turned into a whole number of
 * octaves `shift = (x - max) >> 8`, clamped to `[-15, 0]`; the entry's weight
 * is `2^(shift + 15)`, and the Q0.15 output is `(weight << 15) // sum`.
 */
module SoftmaxPow2 {
  import opened FixedPoint
  import opened Outcomes

  /** The script's module-level results: `max_val`, `exp_vals`, `exp_sum`, `out`. */
  datatype Pow2Softmax = Pow2Softmax(maxVal: int, expVals: seq<int>, expSum: int, out: seq<int>)

  /** One in Q0.15. */
  const One: int := 32768

  /** The clamped octave count `max(min((d >> 8), 0), -15)` for `d = x - max_val`. */
  function Octaves(d: int): (k: int)
    ensures -15 <= k <= 0
    ensures k == 0 <==> d >= 0
  {
    ShrSign(d, 8);
    Clamp(Shr(d, 8), -15, 0)
  }

  /** The weight `1 << (shift + 15)` of an entry at distance `d` from the maximum. */
  function Weight(d: int): (w: int)
    ensures 1 <= w <= One
    ensures w == One <==> d >= 0
  {
    var k := Octaves(d) + 15;
    Pow2BelowOne(k);
    ShlIsMul(1, k);
    Shl(1, k)
  }

  /** Every weight is a power of two, from 2^0 to 2^15. */
  lemma WeightIsPowerOfTwo(d: int)
    ensures exists k :: 0 <= k <= 15 && Weight(d) == Pow2(k)
  {
    var k := Octaves(d) + 15;
    ShlIsMul(1, k);
    assert Weight(d) == Pow2(k);
  }

  lemma Pow2BelowOne(k: nat)
    requires k <= 15
    ensures 1 <= Pow2(k) <= One
    ensures Pow2(k) == One <==> k == 15
  {
    Pow2Monotone(k, 15);
    Pow2Constants();
    if k < 15 {
      Pow2Monotone(k, 14);
      assert Pow2(15) == 2 * Pow2(14);
    }
  }

  /** `exp_vals` for the distances `d = in_fixed - max_val`. */
  function Weights(d: seq<int>): (e: seq<int>)
    ensures |e| == |d|
    ensures forall i :: 0 <= i < |d| ==> e[i] == Weight(d[i])
  {
    seq(|d|, i requires 0 <= i < |d| => Weight(d[i]))
  }

  /**
   * The whole script from `in_fixed` onwards; `Raises` for an empty input,
   * on which NumPy's `max` raises.
   */
  function Softmax(inFixed: seq<int>): (r: Outcome<Pow2Softmax>)
    ensures r.Raises? <==> |inFixed| == 0
    ensures r.Returns? ==> |r.results.expVals| == |inFixed| && |r.results.out| == |inFixed|
  {
    if |inFixed| == 0 then Raises else Returns(Run(inFixed))
  }

  /** The script on a non-empty input. */
  function Run(inFixed: seq<int>): (t: Pow2Softmax)
    requires |inFixed| > 0
    ensures |t.expVals| == |inFixed| && |t.out| == |inFixed|
    ensures t.expSum >= One
  {
    var m := Max(inFixed);
    WeightSumAtLeastOne(inFixed);
    FromDistances(m, Shift(inFixed, -m))
  }

  /** `exp_vals`, `exp_sum` and `out` for the distances `d = in_fixed - max_val`; the divisor is never zero. */
  function FromDistances(m: int, d: seq<int>): (t: Pow2Softmax)
    requires |d| > 0
    ensures t.maxVal == m && |t.expVals| == |d| && |t.out| == |d|
    ensures t.expSum > 0
  {
    var e := Weights(d);
    WeightSumPositive(d);
    Pow2Softmax(m, e, Sum(e), DivAll(ShlAll(e, 15), Sum(e)))
  }

  /** Every weight is at least 1, so a non-empty sum of weights is positive. */
  lemma {:induction false} WeightSumPositive(d: seq<int>)
    requires |d| > 0
    ensures Sum(Weights(d)) > 0
  {
    EntryAtMostSum(Weights(d), 0);
  }

  /** The maximal entry weighs `One`, so `exp_sum` is at least `One`. */
  lemma {:induction false} WeightSumAtLeastOne(x: seq<int>)
    requires |x| > 0
    ensures Sum(Weights(Shift(x, -Max(x)))) >= One
  {
    var e := Weights(Shift(x, -Max(x)));
    var i := ArgMax(x);
    assert Shift(x, -Max(x))[i] == 0;
    EntryAtMostSum(e, i);
  }

  /** Every distance to the maximum is non-positive and clamps into `[-15, 0]`; exactly the maximal entries get the full weight. */
  lemma {:induction false} PeakWeight(x: seq<int>, i: int)
    requires 0 <= i < |x|
    ensures var t := Run(x);
      && x[i] - t.maxVal <= 0
      && -15 <= Octaves(x[i] - t.maxVal) <= 0
      && (t.expVals[i] == One <==> x[i] == t.maxVal)
  {
  }

  /** Each output lies in `[0, One]`. */
  lemma {:induction false} OutputBounded(x: seq<int>, i: int)
    requires 0 <= i < |x|
    ensures 0 <= Run(x).out[i] <= One
  {
    var t := Run(x);
    var e, s := t.expVals, t.expSum;
    EntryAtMostSum(e, i);
    ShlConstants(0);
    ShlConstants(s);
    ShlMonotone(0, e[i], 15);
    ShlMonotone(e[i], s, 15);
    DivMonotone(0, Shl(e[i], 15), s);
    DivMonotone(Shl(e[i], 15), 32768 * s, s);
    DivUnique(32768 * s, s, 32768, 0);
  }

  /** The outputs add up to at most `One`: a sum of floors is at most the floor of the sum. */
  lemma {:induction false} OutputSumAtMostOne(x: seq<int>)
    requires |x| > 0
    ensures Sum(Run(x).out) <= One
  {
    var t := Run(x);
    var e, s := t.expVals, t.expSum;
    var scaled := ShlAll(e, 15);
    assert t.out == DivAll(scaled, s);
    assert Sum(scaled) == 32768 * s by {
      SumShlAll(e, 15);
      ShlConstants(s);
    }
    SumDivAll(scaled, s);
    var o := Sum(t.out);
    if o > One {
      MulMonotone(32769, o, s);
      assert false;
    }
  }

  /** A larger input entry never gets a smaller output. */
  lemma {:induction false} OrderPreserving(x: seq<int>, i: int, j: int)
    requires 0 <= i < |x| && 0 <= j < |x| && x[i] <= x[j]
    ensures Run(x).out[i] <= Run(x).out[j]
  {
    OrderOnDistances(Max(x), Shift(x, -Max(x)), i, j);
    assert Run(x).out == FromDistances(Max(x), Shift(x, -Max(x))).out;
  }

  /** A smaller distance to the maximum never gets a larger output. */
  lemma {:induction false} OrderOnDistances(m: int, d: seq<int>, i: int, j: int)
    requires 0 <= i < |d| && 0 <= j < |d| && d[i] <= d[j]
    ensures FromDistances(m, d).out[i] <= FromDistances(m, d).out[j]
  {
    var e := Weights(d);
    WeightSumPositive(d);
    WeightMonotone(d[i], d[j]);
    QuotientMonotone(e[i], e[j], Sum(e));
  }

  lemma QuotientMonotone(a: int, b: int, s: int)
    requires a <= b && s > 0
    ensures Shl(a, 15) / s <= Shl(b, 15) / s
  {
    ShlMonotone(a, b, 15);
    DivMonotone(Shl(a, 15), Shl(b, 15), s);
  }

  lemma WeightMonotone(a: int, b: int)
    requires a <= b
    ensures Weight(a) <= Weight(b)
  {
    ShrMonotone(a, b, 8);
    Pow2Monotone(Octaves(a) + 15, Octaves(b) + 15);
    ShlIsMul(1, Octaves(a) + 15);
    ShlIsMul(1, Octaves(b) + 15);
  }

  /** Adding one integer to every input leaves the weights, their sum and the outputs unchanged. */
  lemma {:induction false} TranslationInvariant(x: seq<int>, c: int)
    requires |x| > 0
    ensures Run(Shift(x, c)).maxVal == Run(x).maxVal + c
    ensures Run(Shift(x, c)).expVals == Run(x).expVals
    ensures Run(Shift(x, c)).expSum == Run(x).expSum
    ensures Run(Shift(x, c)).out == Run(x).out
  {
    DistancesInvariant(x, c);
    MaxShift(x, c);
  }

  /** The distances to the maximum do not change when every entry moves by the same amount. */
  lemma {:induction false} DistancesInvariant(x: seq<int>, c: int)
    requires |x| > 0
    ensures Shift(Shift(x, c), -Max(Shift(x, c))) == Shift(x, -Max(x))
  {
    MaxShift(x, c);
  }
}
