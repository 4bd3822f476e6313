/** The dense linear-algebra collaborators the layer calls: the contract of
    `gemm` (C := alpha*op(A)*op(B) + beta*C on packed row-major operands),
    the running sum of `sum_array`, and the element loops of `fill_cpu`,
    `axpy_cpu` and `scal_cpu` with unit increments. Their bodies live in
    gemm.c, utils.c and blas.c, which are not part of this model; what is
    here is the behaviour the layer relies on. */
module Blas {
  import opened CInt

  /** `s[0] + s[1] + ... + s[|s|-1]`, accumulated left to right. */
  function Sum(s: seq<real>): real
  {
    if |s| == 0 then 0.0 else Sum(s[..|s| - 1]) + s[|s| - 1]
  }

  /** Summing a range in two pieces gives the same total. */
  lemma {:induction false} SumSplit(s: seq<real>, lo: nat, mid: nat, hi: nat)
    requires lo <= mid <= hi <= |s|
    ensures Sum(s[lo .. hi]) == Sum(s[lo .. mid]) + Sum(s[mid .. hi])
  {
    if hi == mid {
      assert s[mid .. hi] == [];
    } else {
      SumSplit(s, lo, mid, hi - 1);
      assert s[lo .. hi][..hi - lo - 1] == s[lo .. hi - 1];
      assert s[mid .. hi][..hi - mid - 1] == s[mid .. hi - 1];
    }
  }

  /** A sequence of `len` zeros. */
  function Zeros(len: nat): (z: seq<real>)
    ensures |z| == len && forall k :: 0 <= k < len ==> z[k] == 0.0
  {
    seq(len, _ => 0.0)
  }

  /** Element `(r, col)` of `op(A)`, where `op(A)` is `rows x cols`; a
      transposed operand is stored `cols x rows`. */
  function OpAt(A: seq<real>, trans: bool, rows: nat, cols: nat, r: nat, col: nat): real
    requires |A| == rows * cols && r < rows && col < cols
  {
    if trans then
      (BlockIndex(col, cols, r, rows); A[col * rows + r])
    else
      (BlockIndex(r, rows, col, cols); A[r * cols + col])
  }

  /** `sum_{kk < upto} op(A)[r, kk] * op(B)[kk, col]`. */
  function RowDot(A: seq<real>, ta: bool, B: seq<real>, tb: bool,
                  M: nat, N: nat, K: nat, r: nat, col: nat, upto: nat): real
    requires |A| == M * K && |B| == K * N && r < M && col < N && upto <= K
  {
    if upto == 0 then 0.0
    else RowDot(A, ta, B, tb, M, N, K, r, col, upto - 1)
         + OpAt(A, ta, M, K, r, upto - 1) * OpAt(B, tb, K, N, upto - 1, col)
  }

  /** `gemm(ta, tb, M, N, K, alpha, A, lda, B, ldb, beta, C, ldc)` with every
      leading dimension equal to its operand's row length, as in all calls of
      the layer: the new `M x N` contents of `C`. */
  function Gemm(ta: bool, tb: bool, M: nat, N: nat, K: nat, alpha: real,
                A: seq<real>, B: seq<real>, beta: real, C: seq<real>): (res: seq<real>)
    requires |A| == M * K && |B| == K * N && |C| == M * N
    ensures |res| == M * N
  {
    seq(M * N, idx requires 0 <= idx < M * N => GemmEntry(ta, tb, M, N, K, alpha, A, B, beta, C, idx))
  }

  /** Entry `idx` of the result: row `idx / N`, column `idx % N`. */
  function GemmEntry(ta: bool, tb: bool, M: nat, N: nat, K: nat, alpha: real,
                     A: seq<real>, B: seq<real>, beta: real, C: seq<real>, idx: nat): real
    requires |A| == M * K && |B| == K * N && |C| == M * N && idx < M * N
  {
    BlockOf(idx, M, N);
    beta * C[idx] + alpha * RowDot(A, ta, B, tb, M, N, K, idx / N, idx % N, K)
  }

  /** Entry `(r, col)` of the result is `beta*C[r, col]` plus `alpha` times
      the dot product of row `r` of `op(A)` and column `col` of `op(B)`. */
  lemma GemmAt(ta: bool, tb: bool, M: nat, N: nat, K: nat, alpha: real,
               A: seq<real>, B: seq<real>, beta: real, C: seq<real>, r: nat, col: nat)
    requires |A| == M * K && |B| == K * N && |C| == M * N
    requires r < M && col < N
    ensures 0 <= r * N + col < M * N
    ensures Gemm(ta, tb, M, N, K, alpha, A, B, beta, C)[r * N + col]
            == beta * C[r * N + col] + alpha * RowDot(A, ta, B, tb, M, N, K, r, col, K)
  {
    BlockIndex(r, M, col, N);
    BlockSplit(r, col, N);
    GemmIsEntry(ta, tb, M, N, K, alpha, A, B, beta, C, r * N + col);
    EntryUnfold(ta, tb, M, N, K, alpha, A, B, beta, C, r * N + col, r, col);
  }

  /** Entry `idx` of the result is `GemmEntry`. */
  lemma GemmIsEntry(ta: bool, tb: bool, M: nat, N: nat, K: nat, alpha: real,
                    A: seq<real>, B: seq<real>, beta: real, C: seq<real>, idx: nat)
    requires |A| == M * K && |B| == K * N && |C| == M * N
    requires idx < M * N
    ensures Gemm(ta, tb, M, N, K, alpha, A, B, beta, C)[idx] == GemmEntry(ta, tb, M, N, K, alpha, A, B, beta, C, idx)
  {
  }

  /** `GemmEntry` at the entry of row `r`, column `col`. */
  lemma EntryUnfold(ta: bool, tb: bool, M: nat, N: nat, K: nat, alpha: real,
                    A: seq<real>, B: seq<real>, beta: real, C: seq<real>, idx: nat, r: nat, col: nat)
    requires |A| == M * K && |B| == K * N && |C| == M * N
    requires idx < M * N && r < M && col < N && idx / N == r && idx % N == col
    ensures GemmEntry(ta, tb, M, N, K, alpha, A, B, beta, C, idx)
            == beta * C[idx] + alpha * RowDot(A, ta, B, tb, M, N, K, r, col, K)
  {
  }

  /** Over a zero entry of `C`, with `alpha == beta == 1`, entry `(r, col)`
      is exactly the dot product. */
  lemma GemmOverZeroAt(ta: bool, tb: bool, M: nat, N: nat, K: nat,
                       A: seq<real>, B: seq<real>, C: seq<real>, r: nat, col: nat, prod: seq<real>)
    requires |A| == M * K && |B| == K * N && |C| == M * N
    requires r < M && col < N
    requires prod == Gemm(ta, tb, M, N, K, 1.0, A, B, 1.0, C)
    requires (BlockIndex(r, M, col, N); C[r * N + col] == 0.0)
    ensures 0 <= r * N + col < M * N
    ensures prod[r * N + col] == RowDot(A, ta, B, tb, M, N, K, r, col, K)
  {
    GemmAt(ta, tb, M, N, K, 1.0, A, B, 1.0, C, r, col);
  }

  /** With `beta == 0` the old contents of `C` do not matter: `C` is
      overwritten. */
  lemma GemmBetaZeroOverwrites(ta: bool, tb: bool, M: nat, N: nat, K: nat, alpha: real,
                               A: seq<real>, B: seq<real>, C1: seq<real>, C2: seq<real>)
    requires |A| == M * K && |B| == K * N && |C1| == M * N && |C2| == M * N
    ensures Gemm(ta, tb, M, N, K, alpha, A, B, 0.0, C1)
            == Gemm(ta, tb, M, N, K, alpha, A, B, 0.0, C2)
  {
  }

  /** With `beta == 1` the product is added to the old contents of `C`. */
  lemma GemmBetaOneAccumulates(ta: bool, tb: bool, M: nat, N: nat, K: nat, alpha: real,
                               A: seq<real>, B: seq<real>, C: seq<real>)
    requires |A| == M * K && |B| == K * N && |C| == M * N
    ensures var prod := Gemm(ta, tb, M, N, K, alpha, A, B, 0.0, C);
            forall idx :: 0 <= idx < M * N ==>
              Gemm(ta, tb, M, N, K, alpha, A, B, 1.0, C)[idx] == C[idx] + prod[idx]
  {
  }

  /** `sum_array(a, n)`: the sum of the `len` elements from `lo`. */
  method SumArray(a: array<real>, lo: nat, len: nat) returns (sum: real)
    requires lo + len <= a.Length
    ensures sum == Sum(a[lo .. lo + len])
  {
    sum := 0.0;
    var i := 0;
    while i < len
      invariant 0 <= i <= len
      invariant sum == Sum(a[lo .. lo + i])
    {
      assert a[lo .. lo + i + 1][..i] == a[lo .. lo + i];
      sum := sum + a[lo + i];
      i := i + 1;
    }
  }

  /** `fill_cpu(N, ALPHA, X, 1)`: the first `count` elements become `v`. */
  method Fill(count: nat, v: real, x: array<real>)
    requires count <= x.Length
    modifies x
    ensures forall k :: 0 <= k < count ==> x[k] == v
    ensures forall k :: count <= k < x.Length ==> x[k] == old(x[k])
  {
    var i := 0;
    while i < count
      invariant 0 <= i <= count
      invariant forall k :: 0 <= k < i ==> x[k] == v
      invariant forall k :: i <= k < x.Length ==> x[k] == old(x[k])
    {
      x[i] := v;
      i := i + 1;
    }
  }

  /** The contents of `Y` after `axpy_cpu(count, alpha, X, 1, Y, 1)`. */
  function AxpySpec(count: nat, alpha: real, x: seq<real>, y: seq<real>): (r: seq<real>)
    requires count <= |x| && count <= |y|
    ensures |r| == |y|
  {
    seq(|y|, k requires 0 <= k < |y| => if k < count then y[k] + alpha * x[k] else y[k])
  }

  /** The contents of `X` after `scal_cpu(count, alpha, X, 1)`. */
  function ScalSpec(count: nat, alpha: real, x: seq<real>): (r: seq<real>)
    requires count <= |x|
    ensures |r| == |x|
  {
    seq(|x|, k requires 0 <= k < |x| => if k < count then alpha * x[k] else x[k])
  }

  /** `axpy_cpu(N, ALPHA, X, 1, Y, 1)`: `Y[k] += ALPHA*X[k]` for `k < N`.
      `X` and `Y` may be the same array. */
  method Axpy(count: nat, alpha: real, x: array<real>, y: array<real>)
    requires count <= x.Length && count <= y.Length
    modifies y
    ensures y[..] == AxpySpec(count, alpha, old(x[..]), old(y[..]))
  {
    var i := 0;
    while i < count
      invariant 0 <= i <= count
      invariant forall k :: 0 <= k < i ==> y[k] == old(y[k]) + alpha * old(x[k])
      invariant forall k :: i <= k < y.Length ==> y[k] == old(y[k])
      invariant forall k :: i <= k < x.Length ==> x[k] == old(x[k])
    {
      y[i] := y[i] + alpha * x[i];
      i := i + 1;
    }
    assert forall k :: 0 <= k < y.Length ==> y[..][k] == AxpySpec(count, alpha, old(x[..]), old(y[..]))[k];
  }

  /** `scal_cpu(N, ALPHA, X, 1)`: `X[k] *= ALPHA` for `k < N`. */
  method Scal(count: nat, alpha: real, x: array<real>)
    requires count <= x.Length
    modifies x
    ensures x[..] == ScalSpec(count, alpha, old(x[..]))
  {
    var i := 0;
    while i < count
      invariant 0 <= i <= count
      invariant forall k :: 0 <= k < i ==> x[k] == alpha * old(x[k])
      invariant forall k :: i <= k < x.Length ==> x[k] == old(x[k])
    {
      x[i] := alpha * x[i];
      i := i + 1;
    }
    assert forall k :: 0 <= k < x.Length ==> x[..][k] == ScalSpec(count, alpha, old(x[..]))[k];
  }

  /** `sum_k a[k]*b[k]`. */
  function Dot(a: seq<real>, b: seq<real>): real
    requires |a| == |b|
  {
    if |a| == 0 then 0.0 else Dot(a[..|a| - 1], b[..|b| - 1]) + a[|a| - 1] * b[|b| - 1]
  }

  /** Every element of `a` multiplied by `f`. */
  function Scaled(a: seq<real>, f: real): (r: seq<real>)
    ensures |r| == |a|
  {
    seq(|a|, k requires 0 <= k < |a| => a[k] * f)
  }

  /** Scaling one operand scales the dot product. */
  lemma DotScaled(a: seq<real>, b: seq<real>, f: real)
    requires |a| == |b|
    ensures Dot(Scaled(a, f), b) == f * Dot(a, b)
  {
    DotScaledBy(a, Scaled(a, f), b, f);
  }

  /** The same, for any `sa` whose elements are those of `a` times `f`. */
  lemma {:induction false} DotScaledBy(a: seq<real>, sa: seq<real>, b: seq<real>, f: real)
    requires |a| == |sa| == |b|
    requires forall k :: 0 <= k < |a| ==> sa[k] == a[k] * f
    ensures Dot(sa, b) == f * Dot(a, b)
  {
    if |a| > 0 {
      var m := |a| - 1;
      DotScaledBy(a[..m], sa[..m], b[..m], f);
      assert sa[m] * b[m] == f * (a[m] * b[m]);
    }
  }
}
