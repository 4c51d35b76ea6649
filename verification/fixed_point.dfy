/**
 * Integer primitives shared by the golden models: Python's `<<`, `>>` and
 * `//` on unbounded integers, clamping, and the NumPy reductions `sum` and
 * `max` over a vector, together with the arithmetic facts the models need.
 */
module FixedPoint {

  /** 2^k. */
  function Pow2(k: nat): (r: nat)
    ensures r >= 1
  {
    if k == 0 then 1 else 2 * Pow2(k - 1)
  }

  /**
   * Python's `x >> k`: an arithmetic shift, i.e. `k` floor halvings (Dafny's
   * `/` by a positive divisor rounds down, like Python's `>>`).
   */
  function Shr(x: int, k: nat): int
    decreases k
  {
    if k == 0 then x else Shr(x / 2, k - 1)
  }

  /** Python's `x << k` on an unbounded integer: `k` doublings. */
  function Shl(x: int, k: nat): int
  {
    if k == 0 then x else 2 * Shl(x, k - 1)
  }

  /** Python's `a // b`: the floor of the quotient, for either sign of `b`. */
  function FloorDiv(a: int, b: int): (r: int)
    requires b != 0
    ensures b > 0 ==> r * b <= a < r * b + b
    ensures b < 0 ==> r * b >= a > r * b + b
  {
    if b > 0 then a / b else (-a) / (-b)
  }

  /** `max(lo, min(hi, x))`, which equals `min(hi, max(lo, x))` when `lo <= hi`. */
  function Clamp(x: int, lo: int, hi: int): (r: int)
    requires lo <= hi
    ensures lo <= r <= hi
    ensures lo <= x <= hi ==> r == x
    ensures x < lo ==> r == lo
    ensures hi < x ==> r == hi
  {
    if x < lo then lo else if hi < x then hi else x
  }

  /** NumPy's `np.sum` of an integer vector. */
  function Sum(s: seq<int>): int
  {
    if |s| == 0 then 0 else s[0] + Sum(s[1..])
  }

  /** The position of the first maximal entry (NumPy's `np.argmax`). */
  function ArgMax(s: seq<int>): (k: nat)
    requires |s| > 0
    ensures k < |s|
    ensures forall i :: 0 <= i < |s| ==> s[i] <= s[k]
    ensures forall i :: 0 <= i < k ==> s[i] < s[k]
  {
    if |s| == 1 then 0
    else
      var k := ArgMax(s[..|s| - 1]);
      assert forall i :: 0 <= i < |s| - 1 ==> s[i] == s[..|s| - 1][i];
      if s[|s| - 1] > s[k] then |s| - 1 else k
  }

  /** NumPy's `np.max` of a non-empty integer vector. */
  function Max(s: seq<int>): (r: int)
    requires |s| > 0
    ensures forall i :: 0 <= i < |s| ==> s[i] <= r
  {
    s[ArgMax(s)]
  }

  /** Elementwise `s + c` (NumPy broadcasting of a scalar). */
  function Shift(s: seq<int>, c: int): (r: seq<int>)
    ensures |r| == |s|
    ensures forall i :: 0 <= i < |s| ==> r[i] == s[i] + c
  {
    seq(|s|, i requires 0 <= i < |s| => s[i] + c)
  }

  /** Elementwise `s // d` for a positive `d`. */
  function DivAll(s: seq<int>, d: int): (r: seq<int>)
    requires d > 0
    ensures |r| == |s|
    ensures forall i :: 0 <= i < |s| ==> r[i] == s[i] / d
  {
    seq(|s|, i requires 0 <= i < |s| => s[i] / d)
  }

  /** Elementwise `s << k`. */
  function ShlAll(s: seq<int>, k: nat): (r: seq<int>)
    ensures |r| == |s|
    ensures forall i :: 0 <= i < |s| ==> r[i] == Shl(s[i], k)
  {
    seq(|s|, i requires 0 <= i < |s| => Shl(s[i], k))
  }

  /** Elementwise `(s * f) >> k`: a vector scaled by a fixed-point factor. */
  function MulShr(s: seq<int>, f: int, k: nat): (r: seq<int>)
    ensures |r| == |s|
    ensures forall i :: 0 <= i < |s| ==> r[i] == Shr(s[i] * f, k)
  {
    seq(|s|, i requires 0 <= i < |s| => Shr(s[i] * f, k))
  }

  predicate AllNonNeg(s: seq<int>)
  {
    forall i :: 0 <= i < |s| ==> s[i] >= 0
  }

  // ---------------------------------------------------------------------
  // Powers of two
  // ---------------------------------------------------------------------

  lemma {:induction false} Pow2Add(a: nat, b: nat)
    ensures Pow2(a + b) == Pow2(a) * Pow2(b)
  {
    if a > 0 {
      Pow2Add(a - 1, b);
      assert Pow2(a + b) == 2 * Pow2(a - 1 + b);
    }
  }

  lemma {:induction false} Pow2Monotone(a: nat, b: nat)
    requires a <= b
    ensures Pow2(a) <= Pow2(b)
  {
    if a < b {
      Pow2Monotone(a, b - 1);
    }
  }

  /** The shift amounts the golden models use. */
  lemma Pow2Constants()
    ensures Pow2(6) == 64 && Pow2(8) == 256 && Pow2(12) == 4096
    ensures Pow2(15) == 32768 && Pow2(16) == 65536
  {
    assert Pow2(8) == 256;
    assert Pow2(12) == 16 * Pow2(8);
    assert Pow2(16) == 16 * Pow2(12);
  }

  // ---------------------------------------------------------------------
  // Floor division
  // ---------------------------------------------------------------------

  /** Floor division by a positive divisor: the quotient is the largest `q` with `q * d <= a`. */
  lemma DivFloor(a: int, d: int)
    requires d > 0
    ensures (a / d) * d <= a < (a / d) * d + d
    ensures a >= 0 ==> a / d >= 0
  {
  }

  /** Floor division by a positive divisor is monotone in the dividend. */
  lemma DivMonotone(a: int, b: int, d: int)
    requires a <= b && d > 0
    ensures a / d <= b / d
  {
    if a / d > b / d {
      MulMonotone(b / d + 1, a / d, d);
      assert false;
    }
  }

  /** `q` is the quotient of `x` by `d` whenever `x == q*d + r` with `0 <= r < d`. */
  lemma DivUnique(x: int, d: int, q: int, r: int)
    requires d > 0 && 0 <= r < d && x == q * d + r
    ensures x / d == q
  {
    var q' := x / d;
    if q' < q {
      MulMonotone(q' + 1, q, d);
      assert false;
    } else if q' > q {
      MulMonotone(q + 1, q', d);
      assert false;
    }
  }

  lemma MulMonotone(a: int, b: int, d: int)
    requires a <= b && d >= 0
    ensures a * d <= b * d
  {
  }

  /** Dividing by `a` and then by `b` is dividing by `a * b`. */
  lemma DivDiv(x: int, a: int, b: int)
    requires a > 0 && b > 0
    ensures (x / a) / b == x / (a * b)
  {
    var q1, r1 := x / a, x % a;
    var q2, r2 := q1 / b, q1 % b;
    assert x == q1 * a + r1;
    assert q1 == q2 * b + r2;
    assert q1 * a == q2 * (a * b) + r2 * a by {
      MulDistrib(q2 * b, r2, a);
      assert q2 * b * a == q2 * (a * b);
    }
    assert r2 * a <= b * a - a by {
      MulMonotone(r2, b - 1, a);
      MulDistrib(b, -1, a);
    }
    assert 0 <= r2 * a by {
      MulMonotone(0, r2, a);
    }
    assert b * a == a * b;
    DivUnique(x, a * b, q2, r2 * a + r1);
  }

  lemma MulDistrib(a: int, b: int, c: int)
    ensures (a + b) * c == a * c + b * c
  {
  }

  // ---------------------------------------------------------------------
  // Shifts
  // ---------------------------------------------------------------------

  /** `x >> k` is the largest `r` with `r * 2^k <= x`. */
  lemma {:induction false} ShrFloor(x: int, k: nat)
    ensures Shr(x, k) * Pow2(k) <= x < Shr(x, k) * Pow2(k) + Pow2(k)
    decreases k
  {
    if k > 0 {
      var h, p := x / 2, Pow2(k - 1);
      ShrFloor(h, k - 1);
      assert Shr(x, k) * Pow2(k) == 2 * (Shr(h, k - 1) * p);
    }
  }

  /** `x >> k` is floor division by `2^k`. */
  lemma ShrIsDiv(x: int, k: nat)
    ensures Shr(x, k) == x / Pow2(k)
  {
    ShrFloor(x, k);
    DivUnique(x, Pow2(k), Shr(x, k), x - Shr(x, k) * Pow2(k));
  }

  /** `q` is `x >> k` whenever `q * 2^k <= x < (q + 1) * 2^k`. */
  lemma ShrUnique(x: int, k: nat, q: int)
    requires q * Pow2(k) <= x < q * Pow2(k) + Pow2(k)
    ensures Shr(x, k) == q
  {
    ShrIsDiv(x, k);
    DivUnique(x, Pow2(k), q, x - q * Pow2(k));
  }

  /** `x << k` is multiplication by `2^k`. */
  lemma {:induction false} ShlIsMul(x: int, k: nat)
    ensures Shl(x, k) == x * Pow2(k)
  {
    if k > 0 {
      ShlIsMul(x, k - 1);
      assert x * Pow2(k) == x * (2 * Pow2(k - 1));
    }
  }

  /** The left shifts the golden models use, as multiplications. */
  lemma ShlConstants(x: int)
    ensures Shl(x, 15) == 32768 * x && Shl(x, 16) == 65536 * x
  {
    Pow2Constants();
    ShlIsMul(x, 15);
    ShlIsMul(x, 16);
  }

  /** Shifting right twice is one shift by the sum of the amounts. */
  lemma {:induction false} ShrShr(x: int, a: nat, b: nat)
    ensures Shr(Shr(x, a), b) == Shr(x, a + b)
    decreases a
  {
    if a > 0 {
      ShrShr(x / 2, a - 1, b);
    }
  }

  /** `>>` keeps the sign: `x >> k >= 0` exactly when `x >= 0`. */
  lemma {:induction false} ShrSign(x: int, k: nat)
    ensures Shr(x, k) >= 0 <==> x >= 0
    decreases k
  {
    if k > 0 {
      ShrSign(x / 2, k - 1);
    }
  }

  lemma {:induction false} ShrMonotone(x: int, y: int, k: nat)
    requires x <= y
    ensures Shr(x, k) <= Shr(y, k)
    decreases k
  {
    if k > 0 {
      ShrMonotone(x / 2, y / 2, k - 1);
    }
  }

  lemma {:induction false} ShlMonotone(x: int, y: int, k: nat)
    requires x <= y
    ensures Shl(x, k) <= Shl(y, k)
  {
    if k > 0 {
      ShlMonotone(x, y, k - 1);
    }
  }

  /** `<<` distributes over addition. */
  lemma {:induction false} ShlAdd(x: int, y: int, k: nat)
    ensures Shl(x + y, k) == Shl(x, k) + Shl(y, k)
  {
    if k > 0 {
      ShlAdd(x, y, k - 1);
    }
  }

  // ---------------------------------------------------------------------
  // Sums
  // ---------------------------------------------------------------------

  lemma {:induction false} SumNonNeg(s: seq<int>)
    requires AllNonNeg(s)
    ensures Sum(s) >= 0
  {
    if |s| > 0 {
      SumNonNeg(s[1..]);
    }
  }

  /** Every entry of a non-negative vector is at most its sum. */
  lemma {:induction false} EntryAtMostSum(s: seq<int>, i: int)
    requires AllNonNeg(s) && 0 <= i < |s|
    ensures s[i] <= Sum(s)
  {
    SumNonNeg(s[1..]);
    if i > 0 {
      EntryAtMostSum(s[1..], i - 1);
    }
  }

  /** Adding `c` to every entry adds `|s| * c` to the sum. */
  lemma {:induction false} SumShift(s: seq<int>, c: int)
    ensures Sum(Shift(s, c)) == Sum(s) + |s| * c
  {
    if |s| > 0 {
      assert Shift(s, c)[1..] == Shift(s[1..], c);
      SumShift(s[1..], c);
    }
  }

  /** Shifting every entry left shifts the sum left. */
  lemma {:induction false} SumShlAll(s: seq<int>, k: nat)
    ensures Sum(ShlAll(s, k)) == Shl(Sum(s), k)
  {
    if |s| > 0 {
      assert ShlAll(s, k)[1..] == ShlAll(s[1..], k);
      SumShlAll(s[1..], k);
      ShlAdd(s[0], Sum(s[1..]), k);
    } else {
      assert Shl(0, k) == 0 by {
        ShlIsMul(0, k);
      }
    }
  }

  /** A sum of floors is at most the floor of the sum: `d * sum(s // d) <= sum(s)`. */
  lemma {:induction false} SumDivAll(s: seq<int>, d: int)
    requires d > 0
    ensures Sum(DivAll(s, d)) * d <= Sum(s)
  {
    if |s| > 0 {
      assert DivAll(s, d)[1..] == DivAll(s[1..], d);
      SumDivAll(s[1..], d);
    }
  }

  lemma {:induction false} ShiftShift(s: seq<int>, a: int, b: int)
    ensures Shift(Shift(s, a), b) == Shift(s, a + b)
  {
  }

  // ---------------------------------------------------------------------
  // Maximum
  // ---------------------------------------------------------------------

  /** The maximum is one of the entries. */
  lemma {:induction false} MaxAttained(s: seq<int>)
    requires |s| > 0
    ensures Max(s) in s
  {
    assert s[ArgMax(s)] in s;
  }

  /** The maximum moves with a uniform shift of the vector. */
  lemma {:induction false} MaxShift(s: seq<int>, c: int)
    requires |s| > 0
    ensures Max(Shift(s, c)) == Max(s) + c
  {
    var t := Shift(s, c);
    var i, j := ArgMax(s), ArgMax(t);
    assert t[i] <= Max(t);
    assert s[j] <= Max(s);
  }
}
