/**
 * The integer multi-head attention golden model with residual
 * (missalinious/transformer/transformer_golden.py).
 *
 * The projections are identities (`Q = K = V = x`); for each head the score
 * of rows `i` and `j` is the dot product of their head columns, arithmetically
 * shifted right by 6, and the attention output weights row `j`'s value
 * column by that score.  The feed-forward block is the identity too, so the
 * residual output is `x + attn + attn`, written to the golden file row by row.
 */
module TransformerGolden {
  import opened FixedPoint

  const SeqLen: int := 4
  const EmbedDim: int := 8
  const Heads: int := 2
  const HeadDim: int := EmbedDim / Heads

  /** A row-major matrix; the model's matrices are `SeqLen x EmbedDim`. */
  type Matrix = seq<seq<int>>

  predicate IsMatrix(m: Matrix)
  {
    |m| == SeqLen && forall r :: 0 <= r < |m| ==> |m[r]| == EmbedDim
  }

  predicate NonNegMatrix(m: Matrix)
    requires IsMatrix(m)
  {
    forall r, c :: 0 <= r < SeqLen && 0 <= c < EmbedDim ==> m[r][c] >= 0
  }

  /** The input the RTL testbench also uses: `x[i, j] = (i + 1) * (j + 2)`. */
  function InputMatrix(): (x: Matrix)
    ensures IsMatrix(x)
    ensures forall r, c :: 0 <= r < SeqLen && 0 <= c < EmbedDim ==> x[r][c] > 0
  {
    seq(SeqLen, i requires 0 <= i < SeqLen => seq(EmbedDim, j requires 0 <= j < EmbedDim => (i + 1) * (j + 2)))
  }

  // ---------------------------------------------------------------------
  // Head layout
  // ---------------------------------------------------------------------

  /** Column `d` of head `h`: `h * HEAD_DIM + d`. */
  function Column(h: int, d: int): (c: int)
    ensures 0 <= h < Heads && 0 <= d < HeadDim ==> 0 <= c < EmbedDim
  {
    h * HeadDim + d
  }

  /** The head a column belongs to. */
  function HeadOf(c: int): int
  {
    c / HeadDim
  }

  /** The position of a column inside its head. */
  function LaneOf(c: int): int
  {
    c % HeadDim
  }

  /** The heads tile the embedding: `(h, d) -> h * HEAD_DIM + d` is a bijection onto the columns. */
  lemma ColumnLayout()
    ensures Heads * HeadDim == EmbedDim
    ensures forall h, d :: 0 <= h < Heads && 0 <= d < HeadDim ==>
      0 <= Column(h, d) < EmbedDim && HeadOf(Column(h, d)) == h && LaneOf(Column(h, d)) == d
    ensures forall c :: 0 <= c < EmbedDim ==>
      0 <= HeadOf(c) < Heads && 0 <= LaneOf(c) < HeadDim && Column(HeadOf(c), LaneOf(c)) == c
  {
  }

  // ---------------------------------------------------------------------
  // Attention
  // ---------------------------------------------------------------------

  predicate ValidIndices(i: int, j: int, h: int)
  {
    0 <= i < SeqLen && 0 <= j < SeqLen && 0 <= h < Heads
  }

  /** `dot` after the first `n` steps of the `k` loop for rows `i`, `j` and head `h`. */
  function DotUpTo(q: Matrix, k: Matrix, i: int, j: int, h: int, n: int): int
    requires IsMatrix(q) && IsMatrix(k) && ValidIndices(i, j, h) && 0 <= n <= HeadDim
    decreases n
  {
    if n == 0 then 0
    else DotUpTo(q, k, i, j, h, n - 1) + q[i][Column(h, n - 1)] * k[j][Column(h, n - 1)]
  }

  /** The head-`h` score of rows `i` and `j` before scaling. */
  function Score(q: Matrix, k: Matrix, i: int, j: int, h: int): int
    requires IsMatrix(q) && IsMatrix(k) && ValidIndices(i, j, h)
  {
    DotUpTo(q, k, i, j, h, HeadDim)
  }

  /** `acc` after the first `n` steps of the `j` loop for row `i`, head `h` and lane `d`. */
  function AccUpTo(q: Matrix, k: Matrix, v: Matrix, i: int, h: int, d: int, n: int): int
    requires IsMatrix(q) && IsMatrix(k) && IsMatrix(v) && ValidIndices(i, 0, h)
    requires 0 <= d < HeadDim && 0 <= n <= SeqLen
    decreases n
  {
    if n == 0 then 0
    else AccUpTo(q, k, v, i, h, d, n - 1) + Shr(Score(q, k, i, n - 1, h), 6) * v[n - 1][Column(h, d)]
  }

  /** `attn_out[i, h * HEAD_DIM + d]`. */
  function AttnEntry(q: Matrix, k: Matrix, v: Matrix, i: int, h: int, d: int): int
    requires IsMatrix(q) && IsMatrix(k) && IsMatrix(v) && ValidIndices(i, 0, h) && 0 <= d < HeadDim
  {
    AccUpTo(q, k, v, i, h, d, SeqLen)
  }

  /** `attn_out[i, c]`, for the head and lane of column `c`. */
  function Entry(q: Matrix, k: Matrix, v: Matrix, i: int, c: int): int
    requires IsMatrix(q) && IsMatrix(k) && IsMatrix(v) && 0 <= i < SeqLen && 0 <= c < EmbedDim
  {
    ColumnLayout();
    AttnEntry(q, k, v, i, HeadOf(c), LaneOf(c))
  }

  /** The attention output as a whole. */
  function Attention(q: Matrix, k: Matrix, v: Matrix): (a: Matrix)
    requires IsMatrix(q) && IsMatrix(k) && IsMatrix(v)
    ensures IsMatrix(a)
    ensures forall i, h, d :: ValidIndices(i, 0, h) && 0 <= d < HeadDim ==>
      a[i][Column(h, d)] == AccUpTo(q, k, v, i, h, d, SeqLen)
  {
    ColumnLayout();
    seq(SeqLen, i requires 0 <= i < SeqLen =>
      seq(EmbedDim, c requires 0 <= c < EmbedDim => Entry(q, k, v, i, c)))
  }

  function Zeros(): (z: Matrix)
    ensures IsMatrix(z)
  {
    seq(SeqLen, i => seq(EmbedDim, c => 0))
  }

  /** Whether the loop nest has written cell `(r, c)` before iteration `(h, i, d)`. */
  predicate WrittenBefore(h: int, i: int, d: int, r: int, c: int)
  {
    HeadOf(c) < h || (HeadOf(c) == h && (r < i || (r == i && LaneOf(c) < d)))
  }

  /**
   * The state of the loop nest before iteration `(h, i, d)`: the cells written
   * so far hold their attention entries, the others are still 0, and
   * `written` lists the cells written so far, in order.
   */
  predicate Progress(q: Matrix, k: Matrix, v: Matrix, out: Matrix, written: seq<(int, int)>, h: int, i: int, d: int)
    requires IsMatrix(q) && IsMatrix(k) && IsMatrix(v)
  {
    && IsMatrix(out)
    && (forall r, c :: 0 <= r < SeqLen && 0 <= c < EmbedDim ==>
         out[r][c] == if WrittenBefore(h, i, d, r, c) then Entry(q, k, v, r, c) else 0)
    && |written| == IterationNumber(h, i, d) <= Iterations
    && (forall p :: 0 <= p < |written| ==> written[p] == CellWrittenAt(p))
  }

  /**
   * The attention loop nest as written: heads, rows and lanes outermost,
   * then the `j` and `k` accumulations.  It computes `Attention`, and
   * `written` records the cell each `h, i, d` iteration writes, in order.
   */
  method AttentionLoop(q: Matrix, k: Matrix, v: Matrix) returns (out: Matrix, written: seq<(int, int)>)
    requires IsMatrix(q) && IsMatrix(k) && IsMatrix(v)
    ensures out == Attention(q, k, v)
    ensures |written| == Iterations
    ensures forall p :: 0 <= p < Iterations ==> written[p] == CellWrittenAt(p)
    ensures forall p, p' :: 0 <= p < p' < Iterations ==> written[p] != written[p']
    ensures forall r, c :: 0 <= r < SeqLen && 0 <= c < EmbedDim ==>
      0 <= IterationWriting(r, c) < Iterations && written[IterationWriting(r, c)] == (r, c)
  {
    ColumnLayout();
    out := Zeros();
    written := [];
    for h := 0 to Heads
      invariant Progress(q, k, v, out, written, h, 0, 0)
    {
      for i := 0 to SeqLen
        invariant Progress(q, k, v, out, written, h, i, 0)
      {
        out, written := LaneLoop(q, k, v, h, i, out, written);
        IterationCarry(h, i);
      }
      IterationCarry(h, SeqLen);
    }
    IterationCarry(Heads, 0);
    EachCellWrittenOnce();
    assert forall r :: 0 <= r < SeqLen ==> out[r] == Attention(q, k, v)[r];
  }

  /** The `d` loop of head `h` and row `i`: writes `attn_out[i, h * HEAD_DIM + d]` for every lane `d`. */
  method LaneLoop(q: Matrix, k: Matrix, v: Matrix, h: int, i: int, out0: Matrix, written0: seq<(int, int)>)
    returns (out: Matrix, written: seq<(int, int)>)
    requires IsMatrix(q) && IsMatrix(k) && IsMatrix(v) && ValidIndices(i, 0, h)
    requires Progress(q, k, v, out0, written0, h, i, 0)
    ensures Progress(q, k, v, out, written, h, i, HeadDim)
  {
    ColumnLayout();
    out, written := out0, written0;
    for d := 0 to HeadDim
      invariant Progress(q, k, v, out, written, h, i, d)
    {
      var acc := AccLoop(q, k, v, i, h, d);
      WriteStep(q, k, v, out, written, h, i, d, acc);
      out := out[i := out[i][Column(h, d) := acc]];
      written := written + [(i, Column(h, d))];
    }
  }

  /** Iteration `(h, i, d)` writes its entry into its cell and logs that cell, which advances the state by one step. */
  lemma WriteStep(q: Matrix, k: Matrix, v: Matrix, out: Matrix, written: seq<(int, int)>, h: int, i: int, d: int, acc: int)
    requires IsMatrix(q) && IsMatrix(k) && IsMatrix(v) && ValidIndices(i, 0, h) && 0 <= d < HeadDim
    requires Progress(q, k, v, out, written, h, i, d)
    requires acc == AttnEntry(q, k, v, i, h, d)
    ensures Progress(q, k, v, out[i := out[i][Column(h, d) := acc]], written + [(i, Column(h, d))], h, i, d + 1)
  {
    ColumnLayout();
    IterationCell(h, i, d);
    var out' := out[i := out[i][Column(h, d) := acc]];
    forall r, c | 0 <= r < SeqLen && 0 <= c < EmbedDim
      ensures out'[r][c] == if WrittenBefore(h, i, d + 1, r, c) then Entry(q, k, v, r, c) else 0
    {
      if r == i && c == Column(h, d) {
        assert out'[r][c] == acc;
      } else {
        assert out'[r][c] == out[r][c];
        assert WrittenBefore(h, i, d + 1, r, c) == WrittenBefore(h, i, d, r, c);
      }
    }
  }

  /** The `j` loop, with the `k` loop inside it, for row `i`, head `h` and lane `d`. */
  method AccLoop(q: Matrix, k: Matrix, v: Matrix, i: int, h: int, d: int) returns (acc: int)
    requires IsMatrix(q) && IsMatrix(k) && IsMatrix(v) && ValidIndices(i, 0, h) && 0 <= d < HeadDim
    ensures acc == AttnEntry(q, k, v, i, h, d)
  {
    acc := 0;
    for j := 0 to SeqLen
      invariant acc == AccUpTo(q, k, v, i, h, d, j)
    {
      var dot := DotLoop(q, k, i, j, h);
      acc := acc + Shr(dot, 6) * v[j][Column(h, d)];
    }
  }

  /** The `k` loop: the head-`h` dot product of rows `i` and `j`. */
  method DotLoop(q: Matrix, k: Matrix, i: int, j: int, h: int) returns (dot: int)
    requires IsMatrix(q) && IsMatrix(k) && ValidIndices(i, j, h)
    ensures dot == Score(q, k, i, j, h)
  {
    dot := 0;
    for t := 0 to HeadDim
      invariant dot == DotUpTo(q, k, i, j, h, t)
    {
      dot := dot + q[i][Column(h, t)] * k[j][Column(h, t)];
    }
  }

  // ---------------------------------------------------------------------
  // Every cell is written exactly once
  // ---------------------------------------------------------------------

  /** The number of iterations of the `h`, `i`, `d` loop nest. */
  const Iterations: int := Heads * SeqLen * HeadDim

  /** The number of iteration `(h, i, d)` of the nest, counting from 0. */
  function IterationNumber(h: int, i: int, d: int): int
  {
    (h * SeqLen + i) * HeadDim + d
  }

  /** The cell `(i, h * HEAD_DIM + d)` written by iteration `p` of the nest. */
  function CellWrittenAt(p: int): (int, int)
    requires 0 <= p < Iterations
  {
    var h, i, d := p / (SeqLen * HeadDim), (p / HeadDim) % SeqLen, p % HeadDim;
    (i, Column(h, d))
  }

  /** The iteration of the nest that writes cell `(r, c)`. */
  function IterationWriting(r: int, c: int): int
  {
    IterationNumber(HeadOf(c), r, LaneOf(c))
  }

  /** Iteration `(h, i, d)` is in range, writes `(i, h * HEAD_DIM + d)`, and is followed by number `+ 1`. */
  lemma IterationCell(h: int, i: int, d: int)
    requires ValidIndices(i, 0, h) && 0 <= d < HeadDim
    ensures 0 <= IterationNumber(h, i, d) < Iterations
    ensures CellWrittenAt(IterationNumber(h, i, d)) == (i, Column(h, d))
    ensures IterationNumber(h, i, d) + 1 == IterationNumber(h, i, d + 1)
  {
    var p := IterationNumber(h, i, d);
    assert SeqLen == 4 && HeadDim == 4;
    assert p == 16 * h + 4 * i + d;
    DivUnique(p, 16, h, 4 * i + d);
    DivUnique(p, 4, 4 * h + i, d);
    DivUnique(4 * h + i, 4, h, i);
  }

  /** The last lane of a row is followed by the next row, and the last row of a head by the next head. */
  lemma IterationCarry(h: int, i: int)
    ensures IterationNumber(h, i, HeadDim) == IterationNumber(h, i + 1, 0)
    ensures IterationNumber(h, SeqLen, 0) == IterationNumber(h + 1, 0, 0)
    ensures IterationNumber(Heads, 0, 0) == Iterations
  {
    assert SeqLen == 4 && HeadDim == 4;
  }

  /** Every cell of `attn_out` is written by exactly one iteration, and every iteration writes a cell. */
  lemma EachCellWrittenOnce()
    ensures Iterations == SeqLen * EmbedDim
    ensures forall p :: 0 <= p < Iterations ==>
      0 <= CellWrittenAt(p).0 < SeqLen && 0 <= CellWrittenAt(p).1 < EmbedDim &&
      IterationWriting(CellWrittenAt(p).0, CellWrittenAt(p).1) == p
    ensures forall r, c :: 0 <= r < SeqLen && 0 <= c < EmbedDim ==>
      0 <= IterationWriting(r, c) < Iterations && CellWrittenAt(IterationWriting(r, c)) == (r, c)
  {
    ColumnLayout();
    assert HeadDim == 4;
    forall p | 0 <= p < Iterations
      ensures 0 <= CellWrittenAt(p).0 < SeqLen && 0 <= CellWrittenAt(p).1 < EmbedDim
      ensures IterationWriting(CellWrittenAt(p).0, CellWrittenAt(p).1) == p
    {
      var h, i, d := p / 16, (p / 4) % 4, p % 4;
      DivDiv(p, 4, 4);
      assert p / 4 == 4 * h + i;
      assert p == 16 * h + 4 * i + d;
      assert CellWrittenAt(p) == (i, Column(h, d));
    }
    forall r, c | 0 <= r < SeqLen && 0 <= c < EmbedDim
      ensures 0 <= IterationWriting(r, c) < Iterations && CellWrittenAt(IterationWriting(r, c)) == (r, c)
    {
      IterationCell(HeadOf(c), r, LaneOf(c));
    }
  }

  // ---------------------------------------------------------------------
  // Properties of the attention
  // ---------------------------------------------------------------------

  /** With `K = Q` the score is symmetric in the two rows. */
  lemma {:induction false} ScoreSymmetric(x: Matrix, i: int, j: int, h: int, n: int)
    requires IsMatrix(x) && ValidIndices(i, j, h) && 0 <= n <= HeadDim
    ensures DotUpTo(x, x, i, j, h, n) == DotUpTo(x, x, j, i, h, n)
  {
    if n > 0 {
      ScoreSymmetric(x, i, j, h, n - 1);
    }
  }

  /** Two matrices agree on every row of head `h`'s columns. */
  predicate AgreeOnHead(a: Matrix, b: Matrix, h: int)
    requires IsMatrix(a) && IsMatrix(b) && 0 <= h < Heads
  {
    forall r, t :: 0 <= r < SeqLen && 0 <= t < HeadDim ==> a[r][Column(h, t)] == b[r][Column(h, t)]
  }

  lemma {:induction false} DotReadsOwnHead(q: Matrix, k: Matrix, q': Matrix, k': Matrix, i: int, j: int, h: int, n: int)
    requires IsMatrix(q) && IsMatrix(k) && IsMatrix(q') && IsMatrix(k') && ValidIndices(i, j, h) && 0 <= n <= HeadDim
    requires AgreeOnHead(q, q', h) && AgreeOnHead(k, k', h)
    ensures DotUpTo(q, k, i, j, h, n) == DotUpTo(q', k', i, j, h, n)
  {
    if n > 0 {
      DotReadsOwnHead(q, k, q', k', i, j, h, n - 1);
      assert q[i][Column(h, n - 1)] == q'[i][Column(h, n - 1)];
      assert k[j][Column(h, n - 1)] == k'[j][Column(h, n - 1)];
    }
  }

  lemma {:induction false} AccReadsOwnHead(q: Matrix, k: Matrix, v: Matrix, q': Matrix, k': Matrix, v': Matrix,
                                           i: int, h: int, d: int, n: int)
    requires IsMatrix(q) && IsMatrix(k) && IsMatrix(v) && IsMatrix(q') && IsMatrix(k') && IsMatrix(v')
    requires ValidIndices(i, 0, h) && 0 <= d < HeadDim && 0 <= n <= SeqLen
    requires AgreeOnHead(q, q', h) && AgreeOnHead(k, k', h) && AgreeOnHead(v, v', h)
    ensures AccUpTo(q, k, v, i, h, d, n) == AccUpTo(q', k', v', i, h, d, n)
  {
    if n > 0 {
      AccReadsOwnHead(q, k, v, q', k', v', i, h, d, n - 1);
      DotReadsOwnHead(q, k, q', k', i, n - 1, h, HeadDim);
      assert v[n - 1][Column(h, d)] == v'[n - 1][Column(h, d)];
    }
  }

  /** Head isolation: head `h`'s outputs depend only on head `h`'s columns of `Q`, `K` and `V`. */
  lemma {:induction false} HeadIsolation(q: Matrix, k: Matrix, v: Matrix, q': Matrix, k': Matrix, v': Matrix, h: int)
    requires IsMatrix(q) && IsMatrix(k) && IsMatrix(v) && IsMatrix(q') && IsMatrix(k') && IsMatrix(v')
    requires 0 <= h < Heads
    requires AgreeOnHead(q, q', h) && AgreeOnHead(k, k', h) && AgreeOnHead(v, v', h)
    ensures forall i, d :: 0 <= i < SeqLen && 0 <= d < HeadDim ==>
      Attention(q, k, v)[i][Column(h, d)] == Attention(q', k', v')[i][Column(h, d)]
  {
    ColumnLayout();
    forall i, d | 0 <= i < SeqLen && 0 <= d < HeadDim
      ensures Attention(q, k, v)[i][Column(h, d)] == Attention(q', k', v')[i][Column(h, d)]
    {
      AccReadsOwnHead(q, k, v, q', k', v', i, h, d, SeqLen);
    }
  }

  lemma {:induction false} DotNonNeg(x: Matrix, i: int, j: int, h: int, n: int)
    requires IsMatrix(x) && NonNegMatrix(x) && ValidIndices(i, j, h) && 0 <= n <= HeadDim
    ensures DotUpTo(x, x, i, j, h, n) >= 0
  {
    if n > 0 {
      DotNonNeg(x, i, j, h, n - 1);
      MulMonotone(0, x[i][Column(h, n - 1)], x[j][Column(h, n - 1)]);
    }
  }

  lemma {:induction false} AccNonNeg(x: Matrix, i: int, h: int, d: int, n: int)
    requires IsMatrix(x) && NonNegMatrix(x) && ValidIndices(i, 0, h) && 0 <= d < HeadDim && 0 <= n <= SeqLen
    ensures AccUpTo(x, x, x, i, h, d, n) >= 0
  {
    if n > 0 {
      AccNonNeg(x, i, h, d, n - 1);
      DotNonNeg(x, i, n - 1, h, HeadDim);
      var s := Score(x, x, i, n - 1, h);
      ShrSign(s, 6);
      MulMonotone(0, Shr(s, 6), x[n - 1][Column(h, d)]);
    }
  }

  /** On a non-negative input every score, every scaled score and every attention entry is non-negative. */
  lemma {:induction false} AttentionNonNeg(x: Matrix)
    requires IsMatrix(x) && NonNegMatrix(x)
    ensures forall i, j, h :: ValidIndices(i, j, h) ==> Score(x, x, i, j, h) >= 0 && Shr(Score(x, x, i, j, h), 6) >= 0
    ensures NonNegMatrix(Attention(x, x, x))
  {
    forall i, j, h | ValidIndices(i, j, h)
      ensures Score(x, x, i, j, h) >= 0 && Shr(Score(x, x, i, j, h), 6) >= 0
    {
      DotNonNeg(x, i, j, h, HeadDim);
      ShrSign(Score(x, x, i, j, h), 6);
    }
    ColumnLayout();
    forall i, c | 0 <= i < SeqLen && 0 <= c < EmbedDim
      ensures Attention(x, x, x)[i][c] >= 0
    {
      AccNonNeg(x, i, HeadOf(c), LaneOf(c), SeqLen);
    }
  }

  // ---------------------------------------------------------------------
  // Feed-forward, residual and the golden file
  // ---------------------------------------------------------------------

  /** The feed-forward block is the identity. */
  function Ffn(a: Matrix): Matrix
  {
    a
  }

  /** `x + attn_out + ffn_out`. */
  function Residual(x: Matrix, a: Matrix, f: Matrix): (y: Matrix)
    requires IsMatrix(x) && IsMatrix(a) && IsMatrix(f)
    ensures IsMatrix(y)
  {
    seq(SeqLen, i requires 0 <= i < SeqLen =>
      seq(EmbedDim, j requires 0 <= j < EmbedDim => x[i][j] + a[i][j] + f[i][j]))
  }

  /** The block with `Q = K = V = x`: the output is `x + 2 * attn`. */
  function Forward(x: Matrix): (y: Matrix)
    requires IsMatrix(x)
    ensures IsMatrix(y)
    ensures forall i, j :: 0 <= i < SeqLen && 0 <= j < EmbedDim ==>
      y[i][j] == x[i][j] + 2 * Attention(x, x, x)[i][j]
  {
    var a := Attention(x, x, x);
    Residual(x, a, Ffn(a))
  }

  /** With a non-negative input the residual never lowers an entry. */
  lemma {:induction false} ForwardGrows(x: Matrix)
    requires IsMatrix(x) && NonNegMatrix(x)
    ensures forall i, j :: 0 <= i < SeqLen && 0 <= j < EmbedDim ==> Forward(x)[i][j] >= x[i][j]
  {
    AttentionNonNeg(x);
  }

  /** The golden file's lines: the rows in order, each row's entries in order. */
  function Flatten(m: seq<seq<int>>): seq<int>
  {
    if |m| == 0 then [] else m[0] + Flatten(m[1..])
  }

  /** Row-major layout: entry `i * EMBED_DIM + j` is `m[i][j]`. */
  lemma {:induction false} FlattenLayout(m: seq<seq<int>>)
    requires forall r :: 0 <= r < |m| ==> |m[r]| == EmbedDim
    ensures |Flatten(m)| == |m| * EmbedDim
    ensures forall i, j :: 0 <= i < |m| && 0 <= j < EmbedDim ==> Flatten(m)[i * EmbedDim + j] == m[i][j]
  {
    if |m| > 0 {
      var rest := m[1..];
      FlattenLayout(rest);
      forall i, j | 0 <= i < |m| && 0 <= j < EmbedDim
        ensures Flatten(m)[i * EmbedDim + j] == m[i][j]
      {
        if i > 0 {
          assert Flatten(m)[i * EmbedDim + j] == Flatten(rest)[(i - 1) * EmbedDim + j];
        }
      }
    }
  }

  /** The values the script writes to the golden file. */
  function Golden(): (g: seq<int>)
    ensures |g| == SeqLen * EmbedDim
  {
    FlattenLayout(Forward(InputMatrix()));
    Flatten(Forward(InputMatrix()))
  }

  /** The golden file has one line per cell, in row-major order, each at least the input entry. */
  lemma GoldenLayout()
    ensures |Golden()| == SeqLen * EmbedDim
    ensures forall i, j :: 0 <= i < SeqLen && 0 <= j < EmbedDim ==>
      Golden()[i * EmbedDim + j] == InputMatrix()[i][j] + 2 * Attention(InputMatrix(), InputMatrix(), InputMatrix())[i][j]
      && Golden()[i * EmbedDim + j] >= InputMatrix()[i][j]
  {
    var x := InputMatrix();
    FlattenLayout(Forward(x));
    ForwardGrows(x);
  }
}
