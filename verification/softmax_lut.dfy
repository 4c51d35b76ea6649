/**
 * The LUT-based softmax golden model on Q8.8 input
 * (missalinious/transformer/softmax_fixed.py).
 *
 * Each input is shifted by the maximum, mapped through a nine-entry table of
 * `e^k` in Q0.16 (saturated at 65535 for `k = 0`), and multiplied by the
 * fixed-point reciprocal `(1 << 16) // sum`.  The model keeps the script's
 * arithmetic exactly; in particular the reciprocal of a sum of at least
 * 65535 is 0 or 1, so every output is 0.
 */
module SoftmaxLut {
  import opened FixedPoint
  import opened Outcomes

  /** The script's module-level results: `max_val`, `exp_vals`, `sum_exp`, `recip`, `out`. */
  datatype LutSoftmax = LutSoftmax(maxVal: int, expVals: seq<int>, sumExp: int, recip: int, out: seq<int>)

  /** The largest table entry, `exp_lut` of any non-negative argument. */
  const Top: int := 65535

  /**
   * `e^k` in Q0.16 (saturated at 65535 for `k = 0`); the script's dictionary
   * has the keys 0 down to -8, so key `k` sits at position `-k`.
   */
  const ExpTable: seq<int> := [65535, 24109, 8869, 3265, 1202, 442, 163, 60, 22]

  /** The table index `min(0, max(-8, x >> 8))`. */
  function ExpIndex(x: int): (k: int)
    ensures -8 <= k <= 0
    ensures k == 0 <==> x >= 0
  {
    ShrSign(x, 8);
    Clamp(Shr(x, 8), -8, 0)
  }

  /** `exp_lut`: the clamped index always has a table entry, so the lookup never fails. */
  function ExpLut(x: int): (r: int)
    ensures 22 <= r <= Top
    ensures r == Top <==> x >= 0
  {
    ExpTable[-ExpIndex(x)]
  }

  /** The table grows with its index. */
  lemma ExpTableMonotone(a: int, b: int)
    requires -8 <= a <= b <= 0
    ensures ExpTable[-a] <= ExpTable[-b]
  {
  }

  /** `exp_lut` is monotone non-decreasing. */
  lemma ExpLutMonotone(x: int, y: int)
    requires x <= y
    ensures ExpLut(x) <= ExpLut(y)
  {
    ShrMonotone(x, y, 8);
    ExpTableMonotone(ExpIndex(x), ExpIndex(y));
  }

  /** `exp_vals` for the arguments `d = inp - max_val`. */
  function ExpVals(d: seq<int>): (e: seq<int>)
    ensures |e| == |d|
    ensures forall i :: 0 <= i < |d| ==> e[i] == ExpLut(d[i])
  {
    seq(|d|, i requires 0 <= i < |d| => ExpLut(d[i]))
  }

  /** `(1 << 16) // sum_exp if sum_exp != 0 else 0`, with Python's floor division. */
  function Recip(sumExp: int): (r: int)
    ensures sumExp == 0 ==> r == 0
    ensures sumExp > 0 ==> r * sumExp <= 65536 < r * sumExp + sumExp
    ensures sumExp >= Top ==> (r == 1 <==> sumExp <= 65536) && (r == 0 <==> sumExp > 65536)
  {
    ShlConstants(1);
    if sumExp != 0 then
      var r := FloorDiv(Shl(1, 16), sumExp);
      RecipOfLargeSum(sumExp, r);
      r
    else 0
  }

  lemma RecipOfLargeSum(s: int, r: int)
    requires s > 0 ==> r * s <= 65536 < r * s + s
    ensures s >= Top ==> (r == 1 <==> s <= 65536) && (r == 0 <==> s > 65536)
  {
    if s >= Top {
      if r >= 2 {
        MulMonotone(2, r, s);
      } else if r <= -1 {
        MulMonotone(r, -1, s);
      }
    }
  }

  /**
   * The whole script from `inp` onwards; `Raises` for an empty input, on which
   * NumPy's `max` raises.
   */
  function Softmax(inp: seq<int>): (r: Outcome<LutSoftmax>)
    ensures r.Raises? <==> |inp| == 0
    ensures r.Returns? ==> |r.results.expVals| == |inp| && |r.results.out| == |inp|
  {
    if |inp| == 0 then Raises else Returns(Run(inp))
  }

  /** The script on a non-empty input. */
  function Run(inp: seq<int>): (t: LutSoftmax)
    requires |inp| > 0
    ensures |t.expVals| == |inp| && |t.out| == |inp|
    ensures forall i :: 0 <= i < |inp| ==> 22 <= t.expVals[i] <= Top
  {
    var m := Max(inp);
    var e := ExpVals(Shift(inp, -m));
    var s := Sum(e);
    var recip := Recip(s);
    LutSoftmax(m, e, s, recip, MulShr(e, recip, 16))
  }

  /** Every argument of `exp_lut` is non-positive; exactly the maximal entries map to `Top`. */
  lemma {:induction false} PeakMapsToTop(inp: seq<int>, i: int)
    requires 0 <= i < |inp|
    ensures inp[i] - Run(inp).maxVal <= 0
    ensures Run(inp).expVals[i] == Top <==> inp[i] == Run(inp).maxVal
  {
  }

  /** The sum is at least `Top`, so the `else 0` branch is dead and `recip` is 1 exactly for a single input. */
  lemma {:induction false} SumAndRecip(inp: seq<int>)
    requires |inp| > 0
    ensures Run(inp).sumExp >= Top
    ensures Run(inp).recip == 0 || Run(inp).recip == 1
    ensures Run(inp).recip == 1 <==> |inp| == 1
  {
    var t := Run(inp);
    var e := t.expVals;
    var k := ArgMax(inp);
    assert Shift(inp, -t.maxVal)[k] == 0;
    EntryAtMostSum(e, k);
    if |inp| > 1 {
      var j := if k == 0 then 1 else 0;
      SumTwoEntries(e, k, j);
    } else {
      assert e[1..] == [];
      assert t.sumExp == Top;
    }
  }

  /** Two distinct entries of a non-negative vector add up to at most its sum. */
  lemma {:induction false} SumTwoEntries(s: seq<int>, i: int, j: int)
    requires AllNonNeg(s) && 0 <= i < |s| && 0 <= j < |s| && i != j
    ensures s[i] + s[j] <= Sum(s)
  {
    SumNonNeg(s[1..]);
    if i == 0 {
      EntryAtMostSum(s[1..], j - 1);
    } else if j == 0 {
      EntryAtMostSum(s[1..], i - 1);
    } else {
      SumTwoEntries(s[1..], i - 1, j - 1);
    }
  }

  /** Every output is 0: each entry is below 2^16 and `recip` is at most 1. */
  lemma {:induction false} OutputAllZero(inp: seq<int>, i: int)
    requires 0 <= i < |inp|
    ensures Run(inp).out[i] == 0
  {
    var t := Run(inp);
    SumAndRecip(inp);
    assert t.out == MulShr(t.expVals, t.recip, 16);
    ScaleVanishes(t.expVals, t.recip, i);
  }

  /** `(e * recip) >> 16` is 0 for an entry below 2^16 and a reciprocal of 0 or 1. */
  lemma {:induction false} ScaleVanishes(e: seq<int>, recip: int, i: int)
    requires 0 <= i < |e| && 0 <= e[i] <= Top && (recip == 0 || recip == 1)
    ensures MulShr(e, recip, 16)[i] == 0
  {
    var p := e[i] * recip;
    if recip == 0 {
      assert p == 0;
    } else {
      assert p == e[i];
    }
    Pow2Constants();
    ShrUnique(p, 16, 0);
  }
}
