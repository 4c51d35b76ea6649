# Golden models of the integer transformer datapath

The `missalinious/transformer` directory holds Python golden reference models.
The SystemVerilog datapath is checked against them. This project models four
of these scripts, the ones that are pure integer fixed-point computations. The
script's inputs become parameters, and lemmas prove the properties the scripts
rely on. The two softmax scripts and the layer-norm script become functions
over `seq<int>` that return a result datatype (`LutSoftmax`, `Pow2Softmax`,
`LayerNormOut`) whose fields are the script's module-level results. The
transformer script works on matrices: `Attention` and `Forward` return
`attn_out` and `y`, `Golden()` is the sequence of values written to the golden
file, and the method `AttentionLoop` is the script's loop nest itself.

- `TransformerGolden` models `transformer_golden.py`:
  - the generated input;
  - the multi-head attention loop nest, with `Q = K = V = x`, per-head dot
    products and an arithmetic `>> 6`. It appears both as a functional
    definition and as the literal five-deep loop nest, and the two are proved
    equal;
  - the identity feed-forward block;
  - the residual `y = x + attn + ffn`;
  - the row-major order in which `y` is written to the golden file.
- `SoftmaxLut` models `softmax_fixed.py`: the clamped nine-entry `exp_lut`, then
  max, exp, sum, reciprocal and output. The script's arithmetic is kept
  exactly, including its effect that every output is 0.
- `SoftmaxPow2` models `Softmax1/softmax_golden.py`: the "stable" softmax in
  which each entry weighs `2^(shift + 15)`, and the Q0.15 output is a floor
  division by the sum of the weights.
- `LayerNormFixed` models `layernorm/layernorm_fixed.py`:
  - floor mean and floor variance;
  - the clamped sixteen-entry `rsqrt_lut`;
  - the `>> 16` renormalisation.
- `FixedPoint` holds the shared primitives and their facts:
  - Python's `>>` as repeated floor halving, proved equal to floor division
    by `2^k`;
  - `<<` as repeated doubling, proved equal to multiplication by `2^k`;
  - `//` for either sign of the divisor;
  - clamping;
  - `np.sum` and `np.max`.
- `Outcomes` holds `Outcome`: `Raises` for a run that stops with an exception,
  `Returns` for one that leaves its results.

Integers are unbounded throughout (see "Left out").

## Model

| member | source | states |
|---|---|---|
| `FixedPoint.Shr` | missalinious/transformer/Softmax1/softmax_golden.py:20 | Python's `x >> k` on an unbounded integer as `k` floor halvings; its meaning is stated by `ShrFloor` and `ShrIsDiv` |
| `FixedPoint.Shl` | missalinious/transformer/Softmax1/softmax_golden.py:22 | Python's `x << k` on an unbounded integer as `k` doublings; its meaning is stated by `ShlIsMul` |
| `FixedPoint.Sum` | missalinious/transformer/layernorm/layernorm_fixed.py:9 | `np.sum` of a vector; `SumShift` and `SumDivAll` state its properties |
| `FixedPoint.ShrFloor` | missalinious/transformer/Softmax1/softmax_golden.py:20 | `x >> k` is the largest `r` with `r * 2^k <= x`, for negative `x` too (floor, not truncation) |
| `FixedPoint.ShrIsDiv` | missalinious/transformer/layernorm/layernorm_fixed.py:30 | `x >> k` equals floor division by `2^k` |
| `FixedPoint.ShrSign` | missalinious/transformer/Softmax1/softmax_golden.py:20-21 | `x >> k` is non-negative exactly when `x` is |
| `FixedPoint.ShrMonotone` | missalinious/transformer/softmax_fixed.py:13 | `>>` is monotone in the shifted value |
| `FixedPoint.ShrShr` | missalinious/transformer/layernorm/layernorm_fixed.py:17-27 | shifting right by `a` and then by `b` is one shift by `a + b` |
| `FixedPoint.ShlIsMul` | missalinious/transformer/Softmax1/softmax_golden.py:22-27 | `x << k` equals `x * 2^k` |
| `FixedPoint.FloorDiv` | missalinious/transformer/softmax_fixed.py:34 | Python's `//` rounds the quotient down for either sign of the divisor |
| `FixedPoint.Clamp` | missalinious/transformer/softmax_fixed.py:14 | `min(hi, max(lo, x))` lies in `[lo, hi]`, is `x` inside the range and the nearer bound outside it |
| `FixedPoint.Max` | missalinious/transformer/softmax_fixed.py:29 | `np.max` bounds every entry from above |
| `FixedPoint.MaxAttained` | missalinious/transformer/softmax_fixed.py:29 | `np.max` is one of the entries |
| `FixedPoint.MaxShift` | missalinious/transformer/Softmax1/softmax_golden.py:15 | adding `c` to every entry adds `c` to `np.max` |
| `FixedPoint.SumShift` | missalinious/transformer/layernorm/layernorm_fixed.py:9 | adding `c` to every entry adds `len * c` to `np.sum` |
| `FixedPoint.SumDivAll` | missalinious/transformer/Softmax1/softmax_golden.py:27 | a sum of floor quotients times the divisor is at most the sum of the dividends |
| `TransformerGolden.InputMatrix` | missalinious/transformer/transformer_golden.py:10-13 | the generated input is a `SEQ_LEN x EMBED_DIM` matrix of positive entries |
| `TransformerGolden.ColumnLayout` | missalinious/transformer/transformer_golden.py:4-7 | `HEADS * HEAD_DIM == EMBED_DIM`; `(h, d) -> h * HEAD_DIM + d` is a bijection from head/lane pairs onto the columns |
| `TransformerGolden.Attention` | missalinious/transformer/transformer_golden.py:21-32 | `attn_out` is a `SEQ_LEN x EMBED_DIM` matrix whose cell `(i, h * HEAD_DIM + d)` is the `j`-sum of `(dot >> 6) * V[j, h * HEAD_DIM + d]` for head `h` |
| `TransformerGolden.AttentionLoop` | missalinious/transformer/transformer_golden.py:21-32 | the `h, i, d, j, k` loop nest, with `dot >> 6` scaling, computes exactly the functional attention; the cells it writes, in order, are the cells `CellWrittenAt` numbers, no cell twice, and every cell at iteration `IterationWriting` |
| `TransformerGolden.LaneLoop` | missalinious/transformer/transformer_golden.py:25-32 | one pass of the `d` loop writes the entry of every lane of head `h` in row `i` and logs those cells, leaving all other cells as they were |
| `TransformerGolden.AccLoop` | missalinious/transformer/transformer_golden.py:26-31 | the `j` loop leaves `acc` equal to the attention entry of row `i`, head `h`, lane `d` |
| `TransformerGolden.DotLoop` | missalinious/transformer/transformer_golden.py:28-30 | the `k` loop leaves `dot` equal to the head-`h` dot product of rows `i` and `j` |
| `TransformerGolden.WriteStep` | missalinious/transformer/transformer_golden.py:32 | writing `acc` into cell `(i, h * HEAD_DIM + d)` advances the written-so-far state by exactly that cell |
| `TransformerGolden.IterationCell` | missalinious/transformer/transformer_golden.py:23-25 | iteration `(h, i, d)` has a number below `HEADS * SEQ_LEN * HEAD_DIM`, writes cell `(i, h * HEAD_DIM + d)`, and the next lane has the next number |
| `TransformerGolden.EachCellWrittenOnce` | missalinious/transformer/transformer_golden.py:23-32 | the `h, i, d` iterations and the cells of `attn_out` are in one-to-one correspondence, so every cell is written exactly once |
| `TransformerGolden.ScoreSymmetric` | missalinious/transformer/transformer_golden.py:16-17 | with `K` a copy of `Q`, the per-head dot product of rows `i` and `j` equals that of `j` and `i` |
| `TransformerGolden.HeadIsolation` | missalinious/transformer/transformer_golden.py:28-31 | head `h`'s outputs are unchanged when `Q`, `K`, `V` change only outside head `h`'s columns |
| `TransformerGolden.AttentionNonNeg` | missalinious/transformer/transformer_golden.py:26-32 | on a non-negative input every `dot`, every `dot >> 6` and every `attn_out` entry is non-negative |
| `TransformerGolden.Forward` | missalinious/transformer/transformer_golden.py:35-38 | with the identity FFN, `y == x + 2 * attn_out` entrywise |
| `TransformerGolden.ForwardGrows` | missalinious/transformer/transformer_golden.py:38 | on a non-negative input, `y >= x` entrywise |
| `TransformerGolden.FlattenLayout` | missalinious/transformer/transformer_golden.py:42-44 | row-major flattening has `rows * EMBED_DIM` entries, with `m[i][j]` at `i * EMBED_DIM + j` |
| `TransformerGolden.Flatten` | missalinious/transformer/transformer_golden.py:42-44 | the values of a matrix in the order the script writes them: row by row, each row left to right |
| `TransformerGolden.GoldenLayout` | missalinious/transformer/transformer_golden.py:10-44 | the golden file holds `SEQ_LEN * EMBED_DIM` values; the one at `i * EMBED_DIM + j` is `x[i,j] + 2 * attn[i,j]`, which is at least `x[i,j]` |
| `TransformerGolden.Golden` | missalinious/transformer/transformer_golden.py:41-44 | the golden file holds `SEQ_LEN * EMBED_DIM` values, those of `y` in row-major order |
| `SoftmaxLut.ExpIndex` | missalinious/transformer/softmax_fixed.py:13-14 | the clamped index lies in `[-8, 0]` and is 0 exactly for a non-negative argument |
| `SoftmaxLut.ExpLut` | missalinious/transformer/softmax_fixed.py:12-26 | the lookup always finds a key and yields a value in `[22, 65535]`, equal to 65535 exactly for a non-negative argument |
| `SoftmaxLut.ExpLutMonotone` | missalinious/transformer/softmax_fixed.py:13-25 | `exp_lut` is monotone non-decreasing |
| `SoftmaxLut.Recip` | missalinious/transformer/softmax_fixed.py:34 | `recip` is the floor of `2^16 / sum_exp`, and 0 for a zero sum; for a sum of at least 65535 it is 1 up to 65536 and 0 above |
| `SoftmaxLut.Softmax` | missalinious/transformer/softmax_fixed.py:29-35 | the pipeline fails exactly on an empty input (NumPy's `max` raises) and otherwise keeps the input's length |
| `SoftmaxLut.Run` | missalinious/transformer/softmax_fixed.py:29-35 | on a non-empty input, `exp_vals` and `out` have the input's length and every `exp_vals` entry lies in `[22, 65535]` |
| `SoftmaxLut.PeakMapsToTop` | missalinious/transformer/softmax_fixed.py:29-31 | every argument `x - max_val` is at most 0, and an entry maps to 65535 exactly when it equals the maximum |
| `SoftmaxLut.SumAndRecip` | missalinious/transformer/softmax_fixed.py:32-34 | `sum_exp >= 65535`, so the `else 0` branch is dead; `recip` is 0 or 1, and 1 exactly for a one-entry input |
| `SoftmaxLut.OutputAllZero` | missalinious/transformer/softmax_fixed.py:34-35 | every `out` entry is 0 |
| `SoftmaxLut.ScaleVanishes` | missalinious/transformer/softmax_fixed.py:35 | `(e * recip) >> 16` is 0 for `0 <= e <= 65535` and `recip` in `{0, 1}` |
| `SoftmaxPow2.Octaves` | missalinious/transformer/Softmax1/softmax_golden.py:20-21 | the clamped shift lies in `[-15, 0]` and is 0 exactly for a non-negative distance |
| `SoftmaxPow2.Weight` | missalinious/transformer/Softmax1/softmax_golden.py:22 | `1 << (shift + 15)` lies in `[1, 32768]` and is 32768 exactly for a non-negative distance |
| `SoftmaxPow2.WeightIsPowerOfTwo` | missalinious/transformer/Softmax1/softmax_golden.py:22 | every weight is `2^k` for some `0 <= k <= 15` |
| `SoftmaxPow2.WeightMonotone` | missalinious/transformer/Softmax1/softmax_golden.py:20-22 | the weight is monotone in the distance to the maximum |
| `SoftmaxPow2.Softmax` | missalinious/transformer/Softmax1/softmax_golden.py:15-27 | the pipeline fails exactly on an empty input and otherwise keeps the input's length |
| `SoftmaxPow2.Run` | missalinious/transformer/Softmax1/softmax_golden.py:15-27 | on a non-empty input `exp_sum >= 32768`, so the division is never by zero |
| `SoftmaxPow2.FromDistances` | missalinious/transformer/Softmax1/softmax_golden.py:17-27 | from the distances to the maximum: `max_val` is kept, `exp_vals` and `out` have one entry per distance, and `exp_sum` is positive, so the floor division is defined |
| `SoftmaxPow2.PeakWeight` | missalinious/transformer/Softmax1/softmax_golden.py:15-22 | every distance to the maximum is at most 0 and clamps into `[-15, 0]`; an entry weighs 32768 exactly when it is maximal |
| `SoftmaxPow2.OutputBounded` | missalinious/transformer/Softmax1/softmax_golden.py:27 | every `out` entry lies in `[0, 32768]` |
| `SoftmaxPow2.OutputSumAtMostOne` | missalinious/transformer/Softmax1/softmax_golden.py:24-33 | the outputs add up to at most 32768 |
| `SoftmaxPow2.OrderPreserving` | missalinious/transformer/Softmax1/softmax_golden.py:20-27 | `in_fixed[i] <= in_fixed[j]` implies `out[i] <= out[j]` |
| `SoftmaxPow2.OrderOnDistances` | missalinious/transformer/Softmax1/softmax_golden.py:20-27 | for any distances to the maximum, a smaller distance never gets a larger output |
| `SoftmaxPow2.TranslationInvariant` | missalinious/transformer/Softmax1/softmax_golden.py:15-27 | adding one integer to every input moves `max_val` by it and leaves `exp_vals`, `exp_sum` and `out` unchanged |
| `SoftmaxPow2.DistancesInvariant` | missalinious/transformer/Softmax1/softmax_golden.py:15-20 | the distances `in_fixed[i] - max_val` do not change when every input moves by the same integer |
| `LayerNormFixed.RsqrtIndex` | missalinious/transformer/layernorm/layernorm_fixed.py:17-18 | the clamped index lies in `[1, 16]` |
| `LayerNormFixed.RsqrtLut` | missalinious/transformer/layernorm/layernorm_fixed.py:16-25 | the lookup always finds a key and yields a value in `[16384, 65535]` |
| `LayerNormFixed.RsqrtLutAntitone` | missalinious/transformer/layernorm/layernorm_fixed.py:17-24 | `rsqrt_lut` is monotone non-increasing |
| `LayerNormFixed.InvStdIndex` | missalinious/transformer/layernorm/layernorm_fixed.py:17-27 | `rsqrt_lut(var >> 16)` reads the table at `clamp(var >> 28, 1, 16)` |
| `LayerNormFixed.LayerNorm` | missalinious/transformer/layernorm/layernorm_fixed.py:9-30 | `var >= 0`; `inv_std` is read at the doubly shifted index `clamp(var >> 28, 1, 16)`; `y` has the input's length |
| `LayerNormFixed.MeanAndVariance` | missalinious/transformer/layernorm/layernorm_fixed.py:9-13 | `mean` and `var` are the floor quotients by `LEN` of the sum and of the sum of squared deviations from `mean` |
| `LayerNormFixed.Deviations` | missalinious/transformer/layernorm/layernorm_fixed.py:9-12 | `diff = x - mean` with `mean = sum(x) // LEN` has one entry per input |
| `LayerNormFixed.FromDeviations` | missalinious/transformer/layernorm/layernorm_fixed.py:12-30 | from the deviations `diff`: `var >= 0`, `inv_std` is read at `clamp(var >> 28, 1, 16)`, `y` has one entry per deviation, and `mean` is passed through |
| `LayerNormFixed.SignPreserved` | missalinious/transformer/layernorm/layernorm_fixed.py:30 | `y[i] >= 0` exactly when `x[i] >= mean` |
| `LayerNormFixed.MagnitudeBound` | missalinious/transformer/layernorm/layernorm_fixed.py:27-30 | `abs(y[i]) <= abs(x[i] - mean)` |
| `LayerNormFixed.ScaleTowardZero` | missalinious/transformer/layernorm/layernorm_fixed.py:30 | for `0 <= inv_std <= 2^16`, `(d * inv_std) >> 16` lies between 0 and `d`, on the side of `d` |
| `LayerNormFixed.DeviationsInvariant` | missalinious/transformer/layernorm/layernorm_fixed.py:9-12 | adding `c` to every entry raises the floor mean by exactly `c` and leaves `diff = x - mean` unchanged |
| `LayerNormFixed.TranslationInvariant` | missalinious/transformer/layernorm/layernorm_fixed.py:9-30 | adding `c` to every entry raises `mean` by exactly `c` and leaves `var`, `inv_std` and `y` unchanged |

## Left out

- File output and printing are not modelled. This covers the golden file
  write and the final message in `transformer_golden.py`, and the `print`
  calls of the other three scripts. Only the row-major order of the golden
  file's values is modelled, by `Flatten`.
- `compare.py` is file reading plus an array-equality check, and is not part of this model.
- The float input of `Softmax1/softmax_golden.py` is not modelled: the
  conversion `(in_vec * 256).astype(np.int32)` (lines 7-12) and the float
  printouts are floating point. The model starts from the integer `in_fixed`.
- The hard-coded example inputs of the softmax and layer-norm scripts are not
  modelled. Those scripts become functions of any integer vector; the
  transformer's generated input is modelled by `InputMatrix`.
- NumPy's fixed-width `int32`/`int64` arithmetic and its wrap-around on
  overflow are not modelled: every integer is unbounded.
- The SystemVerilog RTL the golden models check is not part of this model.
- `SoftmaxPow2.Run` and `SoftmaxLut.Run` take the weight count from the input.
  `Softmax1/softmax_golden.py` loops over a separate constant `N` (8), which
  equals the length of its input.
- `LayerNormFixed.LayerNorm` takes the divisor `LEN` as a positive parameter
  beside `x`. The script fixes it at 8 with `x` of length 8. Translation
  invariance is stated with `LEN == |x|`, as in the script.
- `SoftmaxLut.Softmax` and `SoftmaxPow2.Softmax` return `Raises` on an empty
  input. The scripts never see one; NumPy's `max` would raise.
