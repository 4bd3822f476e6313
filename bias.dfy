/** The per-filter bias kernels: add_bias and scale_bias, which add to or
    scale every element of a `batch x n x size` output by its filter's
    bias or scale, and backward_bias, which accumulates each filter's share
    of the output gradient into its bias gradient. */
module Bias {
  import opened CInt
  import opened Blas

  /** Position of element `j` of filter `i` of sample `b`: `(b*n + i)*size + j`. */
  function LayoutIndex(b: nat, i: nat, j: nat, n: nat, size: nat): nat
  {
    (b * n + i) * size + j
  }

  /** Every (sample, filter, element) triple addresses the layout's
      `[0, batch*n*size)`. */
  lemma LayoutIndexInRange(b: nat, i: nat, j: nat, batch: nat, n: nat, size: nat)
    requires b < batch && i < n && j < size
    ensures LayoutIndex(b, i, j, n, size) < batch * n * size
  {
    NestedBlockInBounds(b, i, n, batch, size);
    MulRegroup(batch, n, size);
  }

  /** Different triples address different elements. */
  lemma LayoutIndexInjective(b: nat, i: nat, j: nat, b2: nat, i2: nat, j2: nat, n: nat, size: nat)
    requires i < n && j < size && i2 < n && j2 < size
    requires LayoutIndex(b, i, j, n, size) == LayoutIndex(b2, i2, j2, n, size)
    ensures b == b2 && i == i2 && j == j2
  {
    BlockSplit(b * n + i, j, size);
    BlockSplit(b2 * n + i2, j2, size);
    BlockSplit(b, i, n);
    BlockSplit(b2, i2, n);
  }

  /** Every element of the layout is addressed by some triple. */
  lemma LayoutIndexOnto(k: nat, batch: nat, n: nat, size: nat) returns (b: nat, i: nat, j: nat)
    requires k < batch * n * size
    ensures b < batch && i < n && j < size && k == LayoutIndex(b, i, j, n, size)
  {
    LayoutOf(k, batch, n, size);
    b, i, j := k / size / n, k / size % n, k % size;
  }

  /** The filter whose bias or scale applies to element `k`. */
  function FilterAt(k: nat, batch: nat, n: nat, size: nat): (i: nat)
    requires k < batch * n * size
    ensures i < n
  {
    LayoutOf(k, batch, n, size);
    k / size % n
  }

  /** The elements of filter `i`'s block in sample `b` belong to filter `i`. */
  lemma FilterAtBlock(b: nat, i: nat, batch: nat, n: nat, size: nat)
    requires b < batch && i < n
    ensures (b * n + i) * size + size <= batch * n * size
    ensures forall k :: (b * n + i) * size <= k < (b * n + i) * size + size ==>
              FilterAt(k, batch, n, size) == i
  {
    NestedBlockInBounds(b, i, n, batch, size);
    MulRegroup(batch, n, size);
    var lo := (b * n + i) * size;
    forall k | lo <= k < lo + size
      ensures FilterAt(k, batch, n, size) == i
    {
      BlockSplit(b * n + i, k - lo, size);
      BlockSplit(b, i, n);
    }
  }

  /** What a kernel does to an element with its filter's parameter `v`:
      add_bias adds it, scale_bias multiplies by it. */
  datatype BiasOp = Shift | Scale

  function Apply(op: BiasOp, x: real, v: real): real
  {
    match op
    case Shift => x + v
    case Scale => x * v
  }

  /** The output add_bias (`Shift`) or scale_bias (`Scale`) produces from
      `out` with the per-filter parameters `params`. */
  function PerFilterSpec(op: BiasOp, out: seq<real>, params: seq<real>,
                         batch: nat, n: nat, size: nat): (r: seq<real>)
    requires batch * n * size <= |out| && n <= |params|
    ensures |r| == |out|
  {
    seq(|out|, k requires 0 <= k < |out| =>
      if k < batch * n * size then Apply(op, out[k], params[FilterAt(k, batch, n, size)])
      else out[k])
  }

  /** The innermost loop: `[lo, lo + len)` is shifted or scaled by `v`. */
  method ApplyToBlock(op: BiasOp, output: array<real>, lo: nat, len: nat, v: real)
    requires lo + len <= output.Length
    modifies output
    ensures forall k :: lo <= k < lo + len ==> output[k] == Apply(op, old(output[k]), v)
    ensures forall k :: 0 <= k < output.Length && !(lo <= k < lo + len) ==> output[k] == old(output[k])
  {
    var j := 0;
    while j < len
      invariant 0 <= j <= len
      invariant forall k :: lo <= k < lo + j ==> output[k] == Apply(op, old(output[k]), v)
      invariant forall k :: 0 <= k < output.Length && !(lo <= k < lo + j) ==> output[k] == old(output[k])
    {
      output[lo + j] := Apply(op, output[lo + j], v);
      j := j + 1;
    }
  }

  /** The filter loop for sample `b`: filter `i`'s block
      `[(b*n + i)*size, (b*n + i)*size + size)` is shifted or scaled by
      `params[i]`. */
  method ApplyToSample(op: BiasOp, output: array<real>, params: array<real>,
                       batch: nat, n: nat, size: nat, b: nat)
    requires output != params && b < batch
    requires batch * n * size <= output.Length && n <= params.Length
    modifies output
    ensures (b + 1) * n * size <= batch * n * size && b * n * size + n * size == (b + 1) * n * size
    ensures forall k :: b * n * size <= k < (b + 1) * n * size ==>
              output[k] == Apply(op, old(output[k]), params[FilterAt(k, batch, n, size)])
    ensures forall k :: 0 <= k < output.Length && !(b * n * size <= k < (b + 1) * n * size) ==>
              output[k] == old(output[k])
  {
    MulSucc(b, n);
    MulLe(b + 1, batch, n * size);
    MulRegroup(b + 1, n, size);
    MulRegroup(batch, n, size);
    MulRegroup(b, n, size);
    ghost var first, last := b * n * size, (b + 1) * n * size;
    ghost var start := first;
    var i := 0;
    while i < n
      invariant 0 <= i <= n && start == (b * n + i) * size
      invariant first <= start <= last
      invariant forall k :: first <= k < start ==>
                  output[k] == Apply(op, old(output[k]), params[FilterAt(k, batch, n, size)])
      invariant forall k :: 0 <= k < output.Length && !(first <= k < start) ==>
                  output[k] == old(output[k])
    {
      FilterAtBlock(b, i, batch, n, size);
      MulSucc(b * n + i, size);
      MulLe(b * n + i + 1, b * n + n, size);
      ApplyToBlock(op, output, (b * n + i) * size, size, params[i]);
      start := start + size;
      i := i + 1;
    }
  }

  /** The sample loop shared by add_bias and scale_bias. */
  method ApplyPerFilter(op: BiasOp, output: array<real>, params: array<real>,
                        batch: nat, n: nat, size: nat)
    requires output != params
    requires batch * n * size <= output.Length && n <= params.Length
    modifies output
    ensures output[..] == PerFilterSpec(op, old(output[..]), params[..], batch, n, size)
  {
    ghost var spec := PerFilterSpec(op, output[..], params[..], batch, n, size);
    var b := 0;
    while b < batch
      invariant 0 <= b <= batch
      invariant b * n * size <= batch * n * size
      invariant forall k :: 0 <= k < b * n * size ==> output[k] == spec[k]
      invariant forall k :: b * n * size <= k < output.Length ==> output[k] == old(output[k])
    {
      ApplyToSample(op, output, params, batch, n, size, b);
      b := b + 1;
    }
  }

  /** add_bias: `output[(b*n + i)*size + j] += biases[i]` for every sample,
      filter and element; the rest of `output` and `biases` are unchanged. */
  method AddBias(output: array<real>, biases: array<real>, batch: nat, n: nat, size: nat)
    requires output != biases
    requires batch * n * size <= output.Length && n <= biases.Length
    modifies output
    ensures output[..] == PerFilterSpec(Shift, old(output[..]), biases[..], batch, n, size)
  {
    ApplyPerFilter(Shift, output, biases, batch, n, size);
  }

  /** scale_bias: `output[(b*n + i)*size + j] *= scales[i]` for every sample,
      filter and element; the rest of `output` and `scales` are unchanged. */
  method ScaleBias(output: array<real>, scales: array<real>, batch: nat, n: nat, size: nat)
    requires output != scales
    requires batch * n * size <= output.Length && n <= scales.Length
    modifies output
    ensures output[..] == PerFilterSpec(Scale, old(output[..]), scales[..], batch, n, size)
  {
    ApplyPerFilter(Scale, output, scales, batch, n, size);
  }

  /** Element `j` of filter `i` in sample `b` gets exactly filter `i`'s
      parameter. */
  lemma PerFilterAt(op: BiasOp, out: seq<real>, params: seq<real>, batch: nat, n: nat, size: nat,
                    b: nat, i: nat, j: nat)
    requires batch * n * size <= |out| && n <= |params|
    requires b < batch && i < n && j < size
    ensures LayoutIndex(b, i, j, n, size) < batch * n * size
    ensures PerFilterSpec(op, out, params, batch, n, size)[LayoutIndex(b, i, j, n, size)]
            == Apply(op, out[LayoutIndex(b, i, j, n, size)], params[i])
  {
    FilterAtBlock(b, i, batch, n, size);
    MulLe(b * n + i + 1, batch * n, size);
    MulSucc(b * n + i, size);
  }

  /** The parameters negated. */
  function Negate(params: seq<real>): (r: seq<real>)
    ensures |r| == |params|
  {
    seq(|params|, i requires 0 <= i < |params| => -params[i])
  }

  /** The parameters inverted, where they are not zero. */
  function Reciprocal(params: seq<real>): (r: seq<real>)
    ensures |r| == |params|
  {
    seq(|params|, i requires 0 <= i < |params| => if params[i] == 0.0 then 0.0 else 1.0 / params[i])
  }

  /** add_bias with the negated biases undoes add_bias. */
  lemma AddBiasInverse(out: seq<real>, biases: seq<real>, batch: nat, n: nat, size: nat)
    requires batch * n * size <= |out| && n <= |biases|
    ensures PerFilterSpec(Shift, PerFilterSpec(Shift, out, biases, batch, n, size),
                          Negate(biases), batch, n, size) == out
  {
    var once := PerFilterSpec(Shift, out, biases, batch, n, size);
    var twice := PerFilterSpec(Shift, once, Negate(biases), batch, n, size);
    forall k | 0 <= k < |out|
      ensures twice[k] == out[k]
    {
    }
  }

  /** Multiplying by a non-zero value and then by its inverse gives the
      value back. */
  lemma ScaleThenUnscale(x: real, v: real)
    requires v != 0.0
    ensures x * v * (1.0 / v) == x
  {
  }

  /** scale_bias with the inverted scales undoes scale_bias when no scale is
      zero. */
  lemma ScaleBiasInverse(out: seq<real>, scales: seq<real>, batch: nat, n: nat, size: nat)
    requires batch * n * size <= |out| && n <= |scales|
    requires forall i :: 0 <= i < n ==> scales[i] != 0.0
    ensures PerFilterSpec(Scale, PerFilterSpec(Scale, out, scales, batch, n, size),
                          Reciprocal(scales), batch, n, size) == out
  {
    var once := PerFilterSpec(Scale, out, scales, batch, n, size);
    var twice := PerFilterSpec(Scale, once, Reciprocal(scales), batch, n, size);
    forall k | 0 <= k < |out|
      ensures twice[k] == out[k]
    {
      if k < batch * n * size {
        ScaleThenUnscale(out[k], scales[FilterAt(k, batch, n, size)]);
      }
    }
  }

  /** Sum of block `t` of `size` elements of `delta`, `sum_array(delta +
      size*t, size)`. */
  function BlockSum(delta: seq<real>, t: nat, size: nat): real
    requires t * size + size <= |delta|
  {
    Sum(delta[t * size .. t * size + size])
  }

  /** What backward_bias adds to `bias_updates[i]` over the first `upto`
      samples: the sum of filter `i`'s block of `delta` in each. */
  function BiasGrad(delta: seq<real>, batch: nat, n: nat, size: nat, i: nat, upto: nat): real
    requires batch * n * size <= |delta| && i < n && upto <= batch
  {
    if upto == 0 then 0.0
    else
      (NestedBlockInBounds(upto - 1, i, n, batch, size);
       MulRegroup(batch, n, size);
       BiasGrad(delta, batch, n, size, i, upto - 1) + BlockSum(delta, i + (upto - 1) * n, size))
  }

  /** The bias gradients backward_bias produces from `upd`. */
  function BackwardBiasSpec(upd: seq<real>, delta: seq<real>, batch: nat, n: nat, size: nat): (r: seq<real>)
    requires n <= |upd| && batch * n * size <= |delta|
    ensures |r| == |upd|
  {
    seq(|upd|, i requires 0 <= i < |upd| =>
      if i < n then upd[i] + BiasGrad(delta, batch, n, size, i, batch) else upd[i])
  }

  /** Sample `b`'s contribution to filter `i`'s bias gradient:
      `sum_array(delta + size*(i + b*n), size)`. */
  function SampleGrad(delta: seq<real>, batch: nat, n: nat, size: nat, i: nat, b: nat): real
    requires batch * n * size <= |delta| && i < n && b < batch
  {
    NestedBlockInBounds(b, i, n, batch, size);
    MulRegroup(batch, n, size);
    BlockSum(delta, i + b * n, size)
  }

  /** One step of backward_bias: the gradient over `b + 1` samples is the
      gradient over `b` plus sample `b`'s share, which is the sum of the
      `size` elements from `size*(i + b*n)`. */
  lemma BiasGradStep(delta: seq<real>, batch: nat, n: nat, size: nat, i: nat, b: nat)
    requires batch * n * size <= |delta| && i < n && b < batch
    ensures 0 <= size * (i + b * n) && size * (i + b * n) + size <= |delta|
    ensures SampleGrad(delta, batch, n, size, i, b)
            == Sum(delta[size * (i + b * n) .. size * (i + b * n) + size])
    ensures BiasGrad(delta, batch, n, size, i, b + 1)
            == BiasGrad(delta, batch, n, size, i, b) + SampleGrad(delta, batch, n, size, i, b)
  {
    NestedBlockInBounds(b, i, n, batch, size);
    MulRegroup(batch, n, size);
    MulLe(0, i + b * n, size);
    assert size * (i + b * n) == (i + b * n) * size;
  }

  /** The filter loop of backward_bias for sample `b`. */
  method BackwardBiasSample(biasUpdates: array<real>, delta: array<real>,
                            batch: nat, n: nat, size: nat, b: nat)
    requires biasUpdates != delta && b < batch
    requires n <= biasUpdates.Length && batch * n * size <= delta.Length
    modifies biasUpdates
    ensures forall i :: 0 <= i < n ==>
              biasUpdates[i] == old(biasUpdates[i]) + SampleGrad(delta[..], batch, n, size, i, b)
    ensures forall i :: n <= i < biasUpdates.Length ==> biasUpdates[i] == old(biasUpdates[i])
  {
    ghost var d := delta[..];
    var i := 0;
    while i < n
      invariant 0 <= i <= n
      invariant forall i' :: 0 <= i' < i ==>
                  biasUpdates[i'] == old(biasUpdates[i']) + SampleGrad(d, batch, n, size, i', b)
      invariant forall i' :: i <= i' < biasUpdates.Length ==> biasUpdates[i'] == old(biasUpdates[i'])
    {
      BiasGradStep(d, batch, n, size, i, b);
      var sum := SumArray(delta, size * (i + b * n), size);
      biasUpdates[i] := biasUpdates[i] + sum;
      i := i + 1;
    }
  }

  /** backward_bias: for every sample `b` and filter `i`,
      `bias_updates[i] += sum_array(delta + size*(i + b*n), size)`. */
  method BackwardBias(biasUpdates: array<real>, delta: array<real>, batch: nat, n: nat, size: nat)
    requires biasUpdates != delta
    requires n <= biasUpdates.Length && batch * n * size <= delta.Length
    modifies biasUpdates
    ensures biasUpdates[..] == BackwardBiasSpec(old(biasUpdates[..]), delta[..], batch, n, size)
  {
    var b := 0;
    while b < batch
      invariant 0 <= b <= batch
      invariant forall i :: 0 <= i < n ==>
                  biasUpdates[i] == old(biasUpdates[i]) + BiasGrad(delta[..], batch, n, size, i, b)
      invariant forall i :: n <= i < biasUpdates.Length ==> biasUpdates[i] == old(biasUpdates[i])
    {
      BackwardBiasSample(biasUpdates, delta, batch, n, size, b);
      forall i | 0 <= i < n
        ensures BiasGrad(delta[..], batch, n, size, i, b + 1)
                == BiasGrad(delta[..], batch, n, size, i, b) + SampleGrad(delta[..], batch, n, size, i, b)
      {
        BiasGradStep(delta[..], batch, n, size, i, b);
      }
      b := b + 1;
    }
  }

  /** `sum_{i < upto} BiasGrad(i, samples)`: the total the first `upto`
      filters' bias gradients receive from the first `samples` samples. */
  function GradTotal(delta: seq<real>, batch: nat, n: nat, size: nat, upto: nat, samples: nat): real
    requires batch * n * size <= |delta| && upto <= n && samples <= batch
  {
    if upto == 0 then 0.0
    else GradTotal(delta, batch, n, size, upto - 1, samples)
         + BiasGrad(delta, batch, n, size, upto - 1, samples)
  }

  /** `sum_{i < upto} SampleGrad(i, b)`: sample `b`'s contribution to the
      first `upto` filters. */
  function SampleTotal(delta: seq<real>, batch: nat, n: nat, size: nat, upto: nat, b: nat): real
    requires batch * n * size <= |delta| && upto <= n && b < batch
  {
    if upto == 0 then 0.0
    else SampleTotal(delta, batch, n, size, upto - 1, b)
         + SampleGrad(delta, batch, n, size, upto - 1, b)
  }

  /** Where the first `upto` filter blocks of sample `b` lie: from `lo`, and
      the last of them from `mid`. */
  lemma SampleLayout(b: nat, n: nat, size: nat, batch: nat, upto: nat) returns (lo: nat, mid: nat)
    requires b < batch && upto <= n
    ensures lo == b * n * size
    ensures 0 < upto ==> mid == size * (upto - 1 + b * n) && lo <= mid && mid + size == lo + upto * size
    ensures lo + upto * size <= batch * n * size
  {
    var p := b * n;
    assert p + n <= batch * n by {
      MulSucc(b, n);
      MulLe(b + 1, batch, n);
    }
    assert (p + upto) * size <= batch * n * size by {
      MulLe(p + upto, batch * n, size);
    }
    Distrib(p, upto, size);
    lo, mid := p * size, 0;
    if 0 < upto {
      Distrib(p, upto - 1, size);
      MulSucc(upto - 1, size);
      MulLe(0, upto - 1, size);
      mid := size * (upto - 1 + p);
    }
  }

  /** Multiplication distributes over a sum. */
  lemma Distrib(a: nat, b: nat, c: nat)
    ensures (a + b) * c == a * c + b * c && c * (b + a) == a * c + b * c
  {
  }

  /** Filter `upto - 1` of sample `b` adds the block `[mid, hi)` that
      follows the first `upto - 1` blocks `[lo, mid)` of that sample's
      gradient. */
  lemma SampleTotalStep(delta: seq<real>, batch: nat, n: nat, size: nat, upto: nat, b: nat)
    returns (lo: nat, mid: nat, hi: nat)
    requires batch * n * size <= |delta| && 0 < upto <= n && b < batch
    ensures lo == b * n * size && mid == lo + (upto - 1) * size && hi == lo + upto * size
    ensures lo <= mid <= hi <= |delta|
    ensures SampleTotal(delta, batch, n, size, upto, b)
            == SampleTotal(delta, batch, n, size, upto - 1, b) + Sum(delta[mid .. hi])
  {
    var m;
    lo, m := SampleLayout(b, n, size, batch, upto);
    BiasGradStep(delta, batch, n, size, upto - 1, b);
    MulLe(0, upto - 1, size);
    MulSucc(upto - 1, size);
    mid, hi := m, m + size;
  }

  /** The first `upto` filters of sample `b` take exactly the first `upto`
      blocks of that sample's gradient. */
  lemma {:induction false} SampleTotalIsBlockSum(delta: seq<real>, batch: nat, n: nat, size: nat,
                                                 upto: nat, b: nat)
    requires batch * n * size <= |delta| && upto <= n && b < batch
    ensures b * n * size + upto * size <= |delta|
    ensures SampleTotal(delta, batch, n, size, upto, b)
            == Sum(delta[b * n * size .. b * n * size + upto * size])
  {
    if upto == 0 {
      var lo, _ := SampleLayout(b, n, size, batch, 0);
      assert delta[lo .. lo] == [];
    } else {
      SampleTotalIsBlockSum(delta, batch, n, size, upto - 1, b);
      var lo, mid, hi := SampleTotalStep(delta, batch, n, size, upto, b);
      SumSplit(delta, lo, mid, hi);
    }
  }

  /** Adding one sample adds its contribution to the total of the first
      `upto` filters. */
  lemma {:induction false} GradTotalStep(delta: seq<real>, batch: nat, n: nat, size: nat,
                                         upto: nat, b: nat)
    requires batch * n * size <= |delta| && upto <= n && b < batch
    ensures GradTotal(delta, batch, n, size, upto, b + 1)
            == GradTotal(delta, batch, n, size, upto, b) + SampleTotal(delta, batch, n, size, upto, b)
  {
    if upto > 0 {
      GradTotalStep(delta, batch, n, size, upto - 1, b);
      BiasGradStep(delta, batch, n, size, upto - 1, b);
    }
  }

  /** Over the first `samples` samples, the bias gradients of all `n`
      filters together receive every element of the first `samples*n*size`
      of `delta` exactly once. */
  lemma {:induction false} GradTotalIsPrefixSum(delta: seq<real>, batch: nat, n: nat, size: nat,
                                                samples: nat)
    requires batch * n * size <= |delta| && samples <= batch
    ensures samples * n * size <= |delta|
    ensures GradTotal(delta, batch, n, size, n, samples) == Sum(delta[.. samples * n * size])
  {
    MulLe(samples, batch, n * size);
    MulRegroup(batch, n, size);
    MulRegroup(samples, n, size);
    if samples == 0 {
      ZeroGradTotal(delta, batch, n, size, n);
      assert delta[.. 0] == [];
    } else {
      var b := samples - 1;
      GradTotalIsPrefixSum(delta, batch, n, size, b);
      GradTotalStep(delta, batch, n, size, n, b);
      SampleTotalIsBlockSum(delta, batch, n, size, n, b);
      MulRegroup(b, n, size);
      MulSucc(b, n * size);
      assert b * n * size + n * size == samples * n * size;
      SumSplit(delta, 0, b * n * size, samples * n * size);
      assert delta[.. samples * n * size] == delta[0 .. samples * n * size];
      assert delta[.. b * n * size] == delta[0 .. b * n * size];
    }
  }

  /** No sample contributes nothing. */
  lemma {:induction false} ZeroGradTotal(delta: seq<real>, batch: nat, n: nat, size: nat, upto: nat)
    requires batch * n * size <= |delta| && upto <= n
    ensures GradTotal(delta, batch, n, size, upto, 0) == 0.0
  {
    if upto > 0 {
      ZeroGradTotal(delta, batch, n, size, upto - 1);
    }
  }

  /** backward_bias conserves the gradient: what it adds to all `n` bias
      gradients together is the sum of the whole `batch*n*size` of `delta`. */
  lemma BackwardBiasConserves(upd: seq<real>, delta: seq<real>, batch: nat, n: nat, size: nat)
    requires n <= |upd| && batch * n * size <= |delta|
    ensures Sum(BackwardBiasSpec(upd, delta, batch, n, size)[.. n]) - Sum(upd[.. n])
            == Sum(delta[.. batch * n * size])
  {
    var r := BackwardBiasSpec(upd, delta, batch, n, size);
    SpecPrefixSum(upd, delta, batch, n, size, n);
    GradTotalIsPrefixSum(delta, batch, n, size, batch);
  }

  /** The first `upto` entries of the result add up to the first `upto`
      entries of `upd` plus the first `upto` filters' gradients. */
  lemma {:induction false} SpecPrefixSum(upd: seq<real>, delta: seq<real>, batch: nat, n: nat,
                                         size: nat, upto: nat)
    requires n <= |upd| && batch * n * size <= |delta| && upto <= n
    ensures Sum(BackwardBiasSpec(upd, delta, batch, n, size)[.. upto])
            == Sum(upd[.. upto]) + GradTotal(delta, batch, n, size, upto, batch)
  {
    var r := BackwardBiasSpec(upd, delta, batch, n, size);
    if upto > 0 {
      SpecPrefixSum(upd, delta, batch, n, size, upto - 1);
      assert r[.. upto][.. upto - 1] == r[.. upto - 1];
      assert upd[.. upto][.. upto - 1] == upd[.. upto - 1];
    }
  }
}
