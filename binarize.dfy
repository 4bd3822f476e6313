/** The quantisation kernels of the layer: binarize_weights (per filter,
    every weight becomes plus or minus the filter's mean absolute value),
    binarize_cpu (sign to +1/-1) and binarize_input (per position, plus or
    minus the mean absolute value across the rows). Each writes its result
    into a separate buffer and leaves the source untouched. */
module Binarize {
  import opened CInt

  function Abs(x: real): real
  {
    if x < 0.0 then -x else x
  }

  /** Sum of absolute values, accumulated left to right like the `mean +=
      fabs(...)` loops; never negative. */
  function SumAbs(s: seq<real>): (r: real)
    ensures r >= 0.0
  {
    if |s| == 0 then 0.0 else SumAbs(s[..|s| - 1]) + Abs(s[|s| - 1])
  }

  /** `x > 0 ? m : -m`: a value that is not strictly positive, zero
      included, takes the negative level. */
  function SignScaled(x: real, m: real): real
  {
    if x > 0.0 then m else -m
  }

  /** `m_f`: mean absolute weight of filter `f`, the block
      `[f*size, f*size + size)`. */
  function FilterMean(w: seq<real>, f: nat, size: nat): real
    requires 0 < size && f * size + size <= |w|
  {
    SumAbs(w[f * size .. f * size + size]) / (size as real)
  }

  /** The `n*size` weights binarize_weights produces from `w`. */
  function BinarizeWeightsSpec(w: seq<real>, n: nat, size: nat): (b: seq<real>)
    requires n * size <= |w|
    ensures |b| == n * size
  {
    seq(n * size, k requires 0 <= k < n * size =>
      (BlockOf(k, n, size);
       MulLe(k / size + 1, n, size);
       SignScaled(w[k], FilterMean(w, k / size, size))))
  }

  /** The `n` values binarize_cpu produces from `x`. */
  function BinarizeSignSpec(x: seq<real>, n: nat): (b: seq<real>)
    requires n <= |x|
    ensures |b| == n
  {
    seq(n, k requires 0 <= k < n => if x[k] > 0.0 then 1.0 else -1.0)
  }

  /** Column `s` of an `n x size` row-major matrix. */
  function Column(x: seq<real>, n: nat, size: nat, s: nat): (col: seq<real>)
    requires s < size && n * size <= |x|
    ensures |col| == n
  {
    seq(n, i requires 0 <= i < n => (BlockIndex(i, n, s, size); x[i * size + s]))
  }

  /** Mean absolute value of column `s` over the `n` rows. */
  function ColumnMean(x: seq<real>, n: nat, size: nat, s: nat): real
    requires 0 < n && s < size && n * size <= |x|
  {
    SumAbs(Column(x, n, size, s)) / (n as real)
  }

  /** The `n*size` values binarize_input produces from `x`. */
  function BinarizeInputSpec(x: seq<real>, n: nat, size: nat): (b: seq<real>)
    requires n * size <= |x|
    ensures |b| == n * size
  {
    seq(n * size, k requires 0 <= k < n * size =>
      (BlockOf(k, n, size);
       SignScaled(x[k], ColumnMean(x, n, size, k % size))))
  }

  /** Weight `i` of filter `f` is binarized with that filter's own mean. */
  lemma BinarizeWeightsAt(w: seq<real>, n: nat, size: nat, f: nat, i: nat)
    requires n * size <= |w| && f < n && i < size
    ensures 0 <= f * size + i < n * size && f * size + size <= |w|
    ensures BinarizeWeightsSpec(w, n, size)[f * size + i]
            == SignScaled(w[f * size + i], FilterMean(w, f, size))
  {
    BlockIndex(f, n, i, size);
    BlockSplit(f, i, size);
    MulLe(f + 1, n, size);
  }

  /** Row `r` of column `s` is binarized with that column's own mean. */
  lemma BinarizeInputAt(x: seq<real>, n: nat, size: nat, r: nat, s: nat)
    requires n * size <= |x| && r < n && s < size
    ensures 0 <= r * size + s < n * size
    ensures BinarizeInputSpec(x, n, size)[r * size + s]
            == SignScaled(x[r * size + s], ColumnMean(x, n, size, s))
  {
    BlockIndex(r, n, s, size);
    BlockSplit(r, s, size);
  }

  /** Block `f` of a layout of blocks of `size`. */
  function Block(w: seq<real>, f: nat, size: nat): (blk: seq<real>)
    requires f * size + size <= |w|
    ensures |blk| == size
  {
    w[f * size .. f * size + size]
  }

  /** Every element of `blk` replaced by `m` or `-m` by its sign. */
  function ScaleSigns(blk: seq<real>, m: real): (r: seq<real>)
    ensures |r| == |blk|
  {
    seq(|blk|, t requires 0 <= t < |blk| => SignScaled(blk[t], m))
  }

  /** Multiplying a mean by its count gives back the sum, and the mean of a
      non-negative sum is non-negative. */
  lemma MeanTimesCount(sum: real, count: real)
    requires 0.0 < count
    ensures count * (sum / count) == sum
    ensures sum >= 0.0 ==> sum / count >= 0.0
  {
  }

  /** A total that is `count` times the mean of `sum` is `sum`. */
  lemma TotalOfMean(sum: real, count: real, total: real)
    requires 0.0 < count && total == count * (sum / count)
    ensures total == sum
  {
    MeanTimesCount(sum, count);
  }

  /** Two layouts of `n` blocks of `size` that agree block by block are equal. */
  lemma BlocksEqual(a: seq<real>, b: seq<real>, n: nat, size: nat)
    requires |a| == n * size && |b| == n * size && 0 < size
    requires forall f :: 0 <= f < n ==>
               f * size + size <= n * size && Block(a, f, size) == Block(b, f, size)
    ensures a == b
  {
    forall k | 0 <= k < n * size
      ensures a[k] == b[k]
    {
      BlockOf(k, n, size);
      var f := k / size;
      assert Block(a, f, size)[k % size] == a[k];
      assert Block(b, f, size)[k % size] == b[k];
    }
  }

  /** Filter `f`'s binarized block is its block of `w` sign-scaled by `m_f`. */
  lemma BinarizedBlock(w: seq<real>, n: nat, size: nat, f: nat)
    requires n * size <= |w| && f < n && 0 < size
    ensures f * size + size <= n * size
    ensures Block(BinarizeWeightsSpec(w, n, size), f, size)
            == ScaleSigns(Block(w, f, size), FilterMean(w, f, size))
  {
    MulLe(f + 1, n, size);
    var lhs := Block(BinarizeWeightsSpec(w, n, size), f, size);
    var rhs := ScaleSigns(Block(w, f, size), FilterMean(w, f, size));
    forall t | 0 <= t < size
      ensures lhs[t] == rhs[t]
    {
      BinarizeWeightsAt(w, n, size, f, t);
    }
  }

  /** A sequence whose elements all have magnitude `m` sums to `|s|*m`. */
  lemma {:induction false} SumAbsConst(s: seq<real>, m: real)
    requires forall k :: 0 <= k < |s| ==> Abs(s[k]) == m
    ensures SumAbs(s) == (|s| as real) * m
  {
    if |s| > 0 {
      SumAbsConst(s[..|s| - 1], m);
    }
  }

  /** With a non-negative level every sign-scaled element has magnitude `m`. */
  lemma ScaleSignsL1(blk: seq<real>, m: real)
    requires m >= 0.0
    ensures SumAbs(ScaleSigns(blk, m)) == (|blk| as real) * m
  {
    SumAbsConst(ScaleSigns(blk, m), m);
  }

  /** Sign-scaling a block by its own mean magnitude keeps its sum of
      magnitudes. */
  lemma ScaleSignsByMeanKeepsL1(blk: seq<real>)
    requires 0 < |blk|
    ensures SumAbs(blk) / (|blk| as real) >= 0.0
    ensures SumAbs(ScaleSigns(blk, SumAbs(blk) / (|blk| as real))) == SumAbs(blk)
  {
    var count, sum := |blk| as real, SumAbs(blk);
    MeanTimesCount(sum, count);
    ScaleSignsL1(blk, sum / count);
    TotalOfMean(sum, count, SumAbs(ScaleSigns(blk, sum / count)));
  }

  /** Sign-scaling a sign-scaled block with the same level changes nothing. */
  lemma ScaleSignsIdempotent(blk: seq<real>, m: real)
    requires m >= 0.0
    ensures ScaleSigns(ScaleSigns(blk, m), m) == ScaleSigns(blk, m)
  {
  }

  /** A weight of exactly zero is not positive: it takes `-m_f`. */
  lemma ZeroWeightTakesNegativeMean(w: seq<real>, n: nat, size: nat, k: nat)
    requires n * size <= |w| && k < n * size && w[k] == 0.0
    ensures 0 < size && k / size < n && k / size * size + size <= |w|
    ensures BinarizeWeightsSpec(w, n, size)[k] == -FilterMean(w, k / size, size)
  {
    BlockOf(k, n, size);
    BinarizeWeightsAt(w, n, size, k / size, k % size);
  }

  /** The scale `m_f` is chosen so that binarizing keeps each filter's L1
      norm: the binarized block has the same sum of magnitudes. */
  lemma BinarizeWeightsKeepsL1Norm(w: seq<real>, n: nat, size: nat, f: nat)
    requires n * size <= |w| && f < n && 0 < size
    ensures f * size + size <= n * size
    ensures SumAbs(Block(BinarizeWeightsSpec(w, n, size), f, size)) == SumAbs(Block(w, f, size))
  {
    BinarizedBlock(w, n, size, f);
    ScaleSignsByMeanKeepsL1(Block(w, f, size));
  }

  /** Each filter's output depends on that filter's weights only: two weight
      vectors that agree on block `f` binarize it alike. */
  lemma BinarizeWeightsFilterLocal(w1: seq<real>, w2: seq<real>, n: nat, size: nat, f: nat)
    requires n * size <= |w1| && n * size <= |w2| && f < n && 0 < size
    requires f * size + size <= n * size
    requires Block(w1, f, size) == Block(w2, f, size)
    ensures Block(BinarizeWeightsSpec(w1, n, size), f, size)
            == Block(BinarizeWeightsSpec(w2, n, size), f, size)
  {
    BinarizedBlock(w1, n, size, f);
    BinarizedBlock(w2, n, size, f);
  }

  /** Binarizing binarized weights changes nothing. */
  lemma BinarizeWeightsIdempotent(w: seq<real>, n: nat, size: nat)
    requires n * size <= |w|
    ensures BinarizeWeightsSpec(BinarizeWeightsSpec(w, n, size), n, size)
            == BinarizeWeightsSpec(w, n, size)
  {
    var b := BinarizeWeightsSpec(w, n, size);
    var bb := BinarizeWeightsSpec(b, n, size);
    if size > 0 {
      forall f | 0 <= f < n
        ensures f * size + size <= n * size && Block(bb, f, size) == Block(b, f, size)
      {
        BinarizedBlock(w, n, size, f);
        BinarizedBlock(b, n, size, f);
        var m := FilterMean(w, f, size);
        MeanTimesCount(SumAbs(Block(w, f, size)), size as real);
        BinarizeWeightsKeepsL1Norm(w, n, size, f);
        assert FilterMean(b, f, size) == m;
        ScaleSignsIdempotent(Block(w, f, size), m);
      }
      BlocksEqual(bb, b, n, size);
    }
  }

  /** binarize_cpu maps every value to 1 or -1 by its sign, so applying it
      twice is applying it once. */
  lemma BinarizeSignIdempotent(x: seq<real>, n: nat)
    requires n <= |x|
    ensures BinarizeSignSpec(BinarizeSignSpec(x, n), n) == BinarizeSignSpec(x, n)
  {
  }

  /** `x` read as a `rows x cols` row-major matrix, transposed to `cols x rows`. */
  function Transpose(x: seq<real>, rows: nat, cols: nat): (t: seq<real>)
    requires rows * cols <= |x|
    ensures |t| == rows * cols
  {
    seq(rows * cols, k requires 0 <= k < rows * cols =>
      (BlockOf(k, cols, rows);
       BlockIndex(k % rows, rows, k / rows, cols);
       x[(k % rows) * cols + k / rows]))
  }

  /** Entry `(r, col)` of the matrix is entry `(col, r)` of its transpose. */
  lemma TransposeAt(x: seq<real>, rows: nat, cols: nat, r: nat, col: nat)
    requires rows * cols <= |x| && r < rows && col < cols
    ensures 0 <= col * rows + r < rows * cols && 0 <= r * cols + col < rows * cols
    ensures Transpose(x, rows, cols)[col * rows + r] == x[r * cols + col]
  {
    BlockIndex(col, cols, r, rows);
    BlockIndex(r, rows, col, cols);
    BlockSplit(col, r, rows);
  }

  /** Block `s` of the transposed `n x size` matrix is column `s`. */
  lemma TransposedBlockIsColumn(x: seq<real>, n: nat, size: nat, s: nat)
    requires n * size <= |x| && s < size
    ensures s * n + n <= size * n
    ensures Block(Transpose(x, n, size), s, n) == Column(x, n, size, s)
  {
    MulLe(s + 1, size, n);
    var blk := Block(Transpose(x, n, size), s, n);
    forall q | 0 <= q < n
      ensures blk[q] == Column(x, n, size, s)[q]
    {
      TransposeAt(x, n, size, q, s);
    }
  }

  /** Entry `(r, s)` of binarize_input's result is the transposed
      binarize_weights entry `(s, r)`. */
  lemma BinarizeInputTransposedAt(x: seq<real>, n: nat, size: nat, r: nat, s: nat)
    requires n * size <= |x| && r < n && s < size
    ensures 0 <= r * size + s < n * size
    ensures BinarizeInputSpec(x, n, size)[r * size + s]
            == Transpose(BinarizeWeightsSpec(Transpose(x, n, size), size, n), size, n)[r * size + s]
  {
    var t := Transpose(x, n, size);
    var bw := BinarizeWeightsSpec(t, size, n);
    BinarizeInputAt(x, n, size, r, s);
    TransposeAt(bw, size, n, s, r);
    BinarizeWeightsAt(t, size, n, s, r);
    TransposeAt(x, n, size, r, s);
    TransposedBlockIsColumn(x, n, size, s);
  }

  /** binarize_input is binarize_weights on the transposed matrix: the
      columns of the `n x size` input play the role of filters. */
  lemma BinarizeInputIsTransposedWeights(x: seq<real>, n: nat, size: nat)
    requires n * size <= |x|
    ensures BinarizeInputSpec(x, n, size)
            == Transpose(BinarizeWeightsSpec(Transpose(x, n, size), size, n), size, n)
  {
    var lhs := BinarizeInputSpec(x, n, size);
    var rhs := Transpose(BinarizeWeightsSpec(Transpose(x, n, size), size, n), size, n);
    forall k | 0 <= k < n * size
      ensures lhs[k] == rhs[k]
    {
      BlockOf(k, n, size);
      BinarizeInputTransposedAt(x, n, size, k / size, k % size);
    }
  }

  /** The `mean += fabs(...)` loop over one filter block `[lo, lo + len)`. */
  method SumAbsBlock(a: array<real>, lo: nat, len: nat) returns (sum: real)
    requires lo + len <= a.Length
    ensures sum == SumAbs(a[lo .. lo + len])
  {
    sum := 0.0;
    var i := 0;
    while i < len
      invariant 0 <= i <= len
      invariant sum == SumAbs(a[lo .. lo + i])
    {
      assert a[lo .. lo + i + 1][..i] == a[lo .. lo + i];
      sum := sum + Abs(a[lo + i]);
      i := i + 1;
    }
  }

  /** The `mean += fabs(...)` loop down column `s` of an `n x size` matrix. */
  method SumAbsColumn(a: array<real>, n: nat, size: nat, s: nat) returns (sum: real)
    requires s < size && n * size <= a.Length
    ensures sum == SumAbs(Column(a[..], n, size, s))
  {
    ghost var col := Column(a[..], n, size, s);
    sum := 0.0;
    var i, idx := 0, s;
    while i < n
      invariant 0 <= i <= n && idx == i * size + s
      invariant sum == SumAbs(col[..i])
    {
      assert col[..i + 1][..i] == col[..i];
      BlockIndex(i, n, s, size);
      sum := sum + Abs(a[idx]);
      MulSucc(i, size);
      i, idx := i + 1, idx + size;
    }
    assert col[..n] == col;
  }

  /** Filter `f`'s entries, addressed from the block start `base`. */
  lemma BinarizedEntries(w: seq<real>, n: nat, size: nat, f: nat, base: nat)
    requires n * size <= |w| && f < n && 0 < size && base == f * size
    ensures base + size <= n * size
    ensures forall k :: base <= k < base + size ==>
              BinarizeWeightsSpec(w, n, size)[k] == SignScaled(w[k], FilterMean(w, f, size))
  {
    BinarizedBlock(w, n, size, f);
    var spec := BinarizeWeightsSpec(w, n, size);
    forall k | base <= k < base + size
      ensures spec[k] == SignScaled(w[k], FilterMean(w, f, size))
    {
      assert Block(spec, f, size)[k - base] == spec[k];
      assert Block(w, f, size)[k - base] == w[k];
    }
  }

  /** The second inner loop of binarize_weights: the block
      `[lo, lo + len)` of `binary` becomes the block of `weights` sign-scaled
      by `mean`. */
  method SignScaleBlock(weights: array<real>, lo: nat, len: nat, mean: real, binary: array<real>)
    requires weights != binary
    requires lo + len <= weights.Length && lo + len <= binary.Length
    modifies binary
    ensures forall k :: lo <= k < lo + len ==> binary[k] == SignScaled(weights[k], mean)
    ensures forall k :: 0 <= k < binary.Length && !(lo <= k < lo + len) ==> binary[k] == old(binary[k])
  {
    var i := 0;
    while i < len
      invariant 0 <= i <= len
      invariant forall k :: lo <= k < lo + i ==> binary[k] == SignScaled(weights[k], mean)
      invariant forall k :: 0 <= k < binary.Length && !(lo <= k < lo + i) ==> binary[k] == old(binary[k])
    {
      binary[lo + i] := if weights[lo + i] > 0.0 then mean else -mean;
      i := i + 1;
    }
  }

  /** One iteration of binarize_weights' filter loop: filter `f`, whose
      block starts at `base`, is binarized with its own mean. */
  method BinarizeFilter(weights: array<real>, n: nat, size: nat, f: nat, base: nat,
                        binary: array<real>)
    requires weights != binary && 0 < size
    requires n * size <= weights.Length && n * size <= binary.Length
    requires f < n && base == f * size
    modifies binary
    ensures base + size <= n * size
    ensures forall k :: base <= k < base + size ==>
              binary[k] == BinarizeWeightsSpec(weights[..], n, size)[k]
    ensures forall k :: 0 <= k < binary.Length && !(base <= k < base + size) ==>
              binary[k] == old(binary[k])
  {
    MulLe(f + 1, n, size);
    ghost var w := weights[..];
    var sum := SumAbsBlock(weights, base, size);
    var mean := sum / (size as real);
    SignScaleBlock(weights, base, size, mean, binary);
    assert weights[base .. base + size] == Block(w, f, size);
    BinarizedEntries(w, n, size, f, base);
  }

  /** binarize_weights: for every filter `f < n`, `binary[f*size + i]` becomes
      `+m_f` where the weight is positive and `-m_f` otherwise. */
  method BinarizeWeights(weights: array<real>, n: nat, size: nat, binary: array<real>)
    requires weights != binary
    requires n * size <= weights.Length && n * size <= binary.Length
    modifies binary
    ensures binary[..n * size] == BinarizeWeightsSpec(weights[..], n, size)
    ensures forall k :: n * size <= k < binary.Length ==> binary[k] == old(binary[k])
  {
    // With size == 0 every filter is empty; the source's 0/0 mean is never used.
    if size > 0 {
      ghost var spec := BinarizeWeightsSpec(weights[..], n, size);
      var f, base := 0, 0;
      while f < n
        invariant 0 <= f <= n && base == f * size
        invariant spec == BinarizeWeightsSpec(weights[..], n, size)
        invariant forall k :: 0 <= k < base ==> binary[k] == spec[k]
        invariant forall k :: base <= k < binary.Length ==> binary[k] == old(binary[k])
      {
        BinarizeFilter(weights, n, size, f, base, binary);
        MulSucc(f, size);
        f, base := f + 1, base + size;
      }
    }
  }

  /** binarize_cpu: `binary[k]` becomes `1` where `input[k] > 0` and `-1`
      otherwise, for `k < n`. */
  method BinarizeCpu(input: array<real>, n: nat, binary: array<real>)
    requires input != binary
    requires n <= input.Length && n <= binary.Length
    modifies binary
    ensures binary[..n] == BinarizeSignSpec(input[..], n)
    ensures forall k :: n <= k < binary.Length ==> binary[k] == old(binary[k])
  {
    var i := 0;
    while i < n
      invariant 0 <= i <= n
      invariant forall k :: 0 <= k < i ==> binary[k] == (if input[k] > 0.0 then 1.0 else -1.0)
      invariant forall k :: i <= k < binary.Length ==> binary[k] == old(binary[k])
    {
      binary[i] := if input[i] > 0.0 then 1.0 else -1.0;
      i := i + 1;
    }
  }

  /** One iteration of binarize_input's column loop: column `s` is
      binarized with its own mean. */
  method BinarizeColumn(input: array<real>, n: nat, size: nat, s: nat, binary: array<real>)
    requires input != binary && 0 < n && s < size
    requires n * size <= input.Length && n * size <= binary.Length
    modifies binary
    ensures forall k :: 0 <= k < n * size && k % size == s ==>
              binary[k] == BinarizeInputSpec(input[..], n, size)[k]
    ensures forall k :: 0 <= k < binary.Length && !(k < n * size && k % size == s) ==>
              binary[k] == old(binary[k])
  {
    ghost var spec := BinarizeInputSpec(input[..], n, size);
    var sum := SumAbsColumn(input, n, size, s);
    var mean := sum / (n as real);
    forall k | 0 <= k
      ensures k / size >= 0
    {
      DivBounds(k, size);
    }
    var i, idx := 0, s;
    while i < n
      invariant 0 <= i <= n && idx == i * size + s
      invariant forall k :: 0 <= k < n * size && k % size == s && k / size < i ==> binary[k] == spec[k]
      invariant forall k :: 0 <= k < binary.Length && !(k < n * size && k % size == s && k / size < i) ==>
                  binary[k] == old(binary[k])
    {
      BinarizeInputAt(input[..], n, size, i, s);
      BlockSplit(i, s, size);
      binary[idx] := if input[idx] > 0.0 then mean else -mean;
      forall k | 0 <= k < n * size && k % size == s && k / size == i
        ensures k == idx
      {
        BlockOf(k, n, size);
      }
      MulSucc(i, size);
      i, idx := i + 1, idx + size;
    }
    forall k | 0 <= k < n * size
      ensures k / size < n
    {
      BlockOf(k, n, size);
    }
  }

  /** binarize_input: for every column `s < size`, `binary[i*size + s]`
      becomes plus or minus the column's mean absolute value by the sign of
      `input[i*size + s]`. */
  method BinarizeInput(input: array<real>, n: nat, size: nat, binary: array<real>)
    requires input != binary
    requires n * size <= input.Length && n * size <= binary.Length
    modifies binary
    ensures binary[..n * size] == BinarizeInputSpec(input[..], n, size)
    ensures forall k :: n * size <= k < binary.Length ==> binary[k] == old(binary[k])
  {
    // With n == 0 there is nothing to write; the source's 0/0 mean is never used.
    if n > 0 {
      ghost var spec := BinarizeInputSpec(input[..], n, size);
      var s := 0;
      while s < size
        invariant 0 <= s <= size
        invariant spec == BinarizeInputSpec(input[..], n, size)
        invariant forall k :: 0 <= k < n * size && k % size < s ==> binary[k] == spec[k]
        invariant forall k :: 0 <= k < binary.Length && !(k < n * size && k % size < s) ==>
                    binary[k] == old(binary[k])
      {
        BinarizeColumn(input, n, size, s, binary);
        s := s + 1;
      }
    }
  }
}
