/** The convolutional layer as an object whose buffers are updated in
    place: make_convolutional_layer, resize_convolutional_layer,
    swap_binary, update_convolutional_layer and
    denormalize_convolutional_layer. The hyper-parameters that never change
    after construction are constants; the input size, the counts derived
    from it and the buffer references are fields. */
module ConvLayer {
  import opened CInt
  import opened ConvGeometry
  import opened Slices
  import opened Blas
  import opened Bias
  import opened Binarize
  import opened Buffers
  import opened Maybe
  import opened Training
  import opened Passes

  /** The length of a buffer, `None` for NULL. */
  function LengthOf(a: array?<real>): Option<nat>
  {
    if a == null then None else Some(a.Length)
  }

  /** The contents of a buffer, empty for NULL. */
  function Contents(a: array?<real>): seq<real>
    reads a
  {
    if a == null then [] else a[..]
  }

  /** `now` agrees with `before` wherever both are defined: what realloc
      keeps. */
  predicate PrefixKept(now: seq<real>, before: seq<real>)
  {
    forall k :: 0 <= k < |now| && k < |before| ==> now[k] == before[k]
  }

  /** Every float of the buffer, if it is set, is `v`. */
  predicate Filled(a: array?<real>, v: real)
    reads a
  {
    a != null ==> forall k :: 0 <= k < a.Length ==> a[k] == v
  }

  /** `calloc(len, sizeof(float))`: a new buffer of zeros. */
  method Calloc(len: nat) returns (a: array<real>)
    ensures fresh(a) && a.Length == len && Filled(a, 0.0)
  {
    a := new real[len](_ => 0.0);
  }

  /** `realloc(a, len*sizeof(float))`: a buffer of `len` floats that starts
      with what `a` held; the floats past the old length are unspecified in
      C and are zero here. */
  method Realloc(a: array<real>, len: nat) returns (r: array<real>)
    ensures fresh(r) && r.Length == len && PrefixKept(r[..], a[..])
  {
    r := new real[len](_ => 0.0);
    var i := 0;
    while i < len && i < a.Length
      invariant 0 <= i <= len && i <= a.Length
      invariant forall k :: 0 <= k < i ==> r[k] == a[k]
    {
      r[i] := a[i];
      i := i + 1;
    }
  }

  /** A buffer of `len` zeros when a length is given, NULL otherwise. */
  method CallocOpt(len: Option<nat>) returns (a: array?<real>)
    ensures LengthOf(a) == len
    ensures a != null ==> fresh(a) && Filled(a, 0.0)
  {
    a := null;
    if len.Some? {
      a := Calloc(len.value);
    }
  }

  /** The scales of a new layer: ones when batch-normalized, zeros when
      only binary, NULL otherwise. */
  method NewScales(bn: bool, len: Option<nat>) returns (a: array?<real>)
    ensures LengthOf(a) == len
    ensures a != null ==> fresh(a) && Filled(a, if bn then 1.0 else 0.0)
  {
    a := null;
    if len.Some? {
      if bn {
        a := new real[len.value](_ => 1.0);
      } else {
        a := Calloc(len.value);
      }
    }
  }

  /** `a` reallocated to `len` floats when `grow` and `a` is set, `a`
      itself otherwise. */
  method ReallocIf(grow: bool, a: array?<real>, len: nat) returns (r: array?<real>)
    ensures if grow && a != null then r != null && fresh(r) && r.Length == len && PrefixKept(r[..], a[..])
            else r == a
  {
    r := a;
    if grow && a != null {
      r := Realloc(a, len);
    }
  }

  /** A parameter array and its accumulated updates after one step:
      `axpy_cpu(count, step, u, 1, p, 1)` then
      `scal_cpu(count, momentum, u, 1)`. */
  method StepParams(count: nat, step: real, momentum: real, p: array<real>, u: array<real>)
    requires p != u && count <= p.Length && count <= u.Length
    modifies p, u
    ensures p[..] == Stepped(count, step, old(p[..]), old(u[..]))
    ensures u[..] == Carried(count, momentum, old(u[..]))
  {
    ghost var p0, u0 := p[..], u[..];
    Axpy(count, step, u, p);
    assert p[..] == Stepped(count, step, p0, u0);
    Scal(count, momentum, u);
  }

  /** The weight half of the update: the decay term into the updates, the
      step along them, then the momentum. */
  method StepWeights(hp: Hyper, rateScale: real, count: nat, w: array<real>, wu: array<real>)
    requires hp.batch > 0 && w != wu && count <= w.Length && count <= wu.Length
    modifies w, wu
    ensures w[..] == NewWeights(hp, rateScale, count, old(w[..]), old(wu[..]))
    ensures wu[..] == NewWeightUpdates(hp, count, old(w[..]), old(wu[..]))
  {
    ghost var w0, wu0 := w[..], wu[..];
    Axpy(count, -hp.decay * (hp.batch as real), w, wu);
    assert wu[..] == Decayed(hp, count, w0, wu0);
    Axpy(count, Step(hp, rateScale), wu, w);
    assert w[..] == Stepped(count, Step(hp, rateScale), w0, Decayed(hp, count, w0, wu0));
    Scal(count, hp.momentum, wu);
  }

  /** The inner loop of denormalize_convolutional_layer: the
      `c/groups*size*size` weights of filter `i`, starting at the offset
      `i*c/groups*size*size` as the source computes it, multiplied by the
      filter's factor. */
  method ScaleNextFilter(weights: array<real>, ghost w0: seq<real>, ghost f: seq<real>,
                         c: nat, groups: nat, size: nat, i: nat, scale: real)
    requires groups >= 1 && c % groups == 0
    requires i < |f| && |f| * (c / groups * size * size) <= |w0| == weights.Length && scale == f[i]
    requires weights[..] == ScaleFilters(w0, f[..i], c / groups * size * size)
    modifies weights
    ensures (FilterBlockFits(i, |f|, c / groups * size * size);
             weights[..] == ScaleFilters(w0, f[..i + 1], c / groups * size * size))
  {
    FilterOffset(i, c, groups, size);
    ScaleBlock(weights, w0, f, c / groups * size * size, i, i * c / groups * size * size, scale);
  }

  /** Block `i` of `len` weights, at `lo`, multiplied by `f[i]`: one more
      filter scaled. */
  method ScaleBlock(weights: array<real>, ghost w0: seq<real>, ghost f: seq<real>,
                    len: nat, i: nat, lo: nat, scale: real)
    requires i < |f| && |f| * len <= |w0| == weights.Length && lo == i * len && scale == f[i]
    requires weights[..] == ScaleFilters(w0, f[..i], len)
    modifies weights
    ensures (FilterBlockFits(i, |f|, len); weights[..] == ScaleFilters(w0, f[..i + 1], len))
  {
    FilterBlockFits(i, |f|, len);
    ghost var before := weights[..];
    ApplyToBlock(Scale, weights, lo, len, scale);
    forall k | 0 <= k < weights.Length
      ensures weights[k] == ScaleFilters(w0, f[..i + 1], len)[k]
    {
      ScaleFiltersStep(w0, f, len, i, k);
      if lo <= k < lo + len {
        assert weights[k] == Apply(Scale, before[k], scale);
      } else {
        assert weights[k] == before[k];
      }
    }
  }

  /** `a` with its first `i` entries set to `v`. */
  function FirstSet(a: seq<real>, i: nat, v: real): (r: seq<real>)
    requires i <= |a|
    ensures |r| == |a|
  {
    seq(|a|, j requires 0 <= j < |a| => if j < i then v else a[j])
  }

  /** The biases with the first `i` filters' means folded in. */
  function FoldedUpTo(b: seq<real>, mean: seq<real>, f: seq<real>, i: nat): (r: seq<real>)
    requires i <= |b| == |mean| == |f|
    ensures |r| == |b|
  {
    seq(|b|, j requires 0 <= j < |b| => if j < i then FoldedBias(b[j], mean[j], f[j]) else b[j])
  }

  /** Setting entry `i` as well extends the prefix by one. */
  lemma FirstSetStep(a: seq<real>, i: nat, v: real)
    requires i < |a|
    ensures FirstSet(a, i, v)[i := v] == FirstSet(a, i + 1, v)
  {
  }

  /** Folding filter `i` as well extends the prefix by one. */
  lemma FoldedUpToStep(b: seq<real>, mean: seq<real>, f: seq<real>, i: nat)
    requires i < |b| == |mean| == |f|
    ensures FoldedUpTo(b, mean, f, i)[i := FoldedBias(b[i], mean[i], f[i])] == FoldedUpTo(b, mean, f, i + 1)
  {
  }

  /** The rest of one iteration of denormalize_convolutional_layer: filter
      `i`'s bias loses its share of the mean and its statistics are reset
      to scale 1, mean 0 and variance 1. */
  method ResetFilter(i: nat, scale: real, biases: array<real>, scales: array<real>,
                     mean: array<real>, variance: array<real>)
    requires i < biases.Length == scales.Length == mean.Length == variance.Length
    requires biases != scales && biases != mean && biases != variance
    requires scales != mean && scales != variance && mean != variance
    modifies biases, scales, mean, variance
    ensures biases[..] == old(biases[..])[i := FoldedBias(old(biases[i]), old(mean[i]), scale)]
    ensures scales[..] == old(scales[..])[i := 1.0]
    ensures mean[..] == old(mean[..])[i := 0.0]
    ensures variance[..] == old(variance[..])[i := 1.0]
  {
    biases[i] := biases[i] - mean[i] * scale;
    scales[i] := 1.0;
    mean[i] := 0.0;
    variance[i] := 1.0;
  }

  /** The loop of denormalize_convolutional_layer over the `n` filters:
      filter `i`'s factor `fold(scales[i], variance[i])` multiplies its
      block of weights (at the offset computed as the source does) and its
      share of the mean leaves the bias; then the statistics are reset. */
  method FoldBatchNorm(fold: (real, real) -> real, n: nat, c: nat, groups: nat, size: nat,
                       weights: array<real>, biases: array<real>, scales: array<real>,
                       mean: array<real>, variance: array<real>)
    requires groups >= 1 && c % groups == 0
    requires n * (c / groups * size * size) <= weights.Length
    requires biases.Length == n && scales.Length == n && mean.Length == n && variance.Length == n
    requires weights != biases && weights != scales && weights != mean && weights != variance
    requires biases != scales && biases != mean && biases != variance
    requires scales != mean && scales != variance && mean != variance
    modifies weights, biases, scales, mean, variance
    ensures var f := Factors(fold, old(scales[..]), old(variance[..]));
            weights[..] == ScaleFilters(old(weights[..]), f, c / groups * size * size) &&
            biases[..] == FoldMean(old(biases[..]), old(mean[..]), f)
    ensures Filled(scales, 1.0) && Filled(mean, 0.0) && Filled(variance, 1.0)
  {
    ghost var len := c / groups * size * size;
    ghost var w0, b0, s0, m0, v0 := weights[..], biases[..], scales[..], mean[..], variance[..];
    ghost var f := Factors(fold, s0, v0);
    var i := 0;
    while i < n
      invariant 0 <= i <= n
      invariant weights[..] == ScaleFilters(w0, f[..i], len)
      invariant biases[..] == FoldedUpTo(b0, m0, f, i)
      invariant scales[..] == FirstSet(s0, i, 1.0)
      invariant mean[..] == FirstSet(m0, i, 0.0)
      invariant variance[..] == FirstSet(v0, i, 1.0)
    {
      var scale := fold(scales[i], variance[i]);
      assert scale == f[i];
      ScaleNextFilter(weights, w0, f, c, groups, size, i, scale);
      ghost var b1, s1, m1, v1 := biases[..], scales[..], mean[..], variance[..];
      ResetFilter(i, scale, biases, scales, mean, variance);
      assert b1[i] == b0[i] && m1[i] == m0[i];
      FoldedUpToStep(b0, m0, f, i);
      FirstSetStep(s0, i, 1.0);
      FirstSetStep(m0, i, 0.0);
      FirstSetStep(v0, i, 1.0);
      i := i + 1;
    }
    assert f[..n] == f;
    assert FoldedUpTo(b0, m0, f, n) == FoldMean(b0, m0, f);
    assert forall k :: 0 <= k < n ==> scales[k] == scales[..][k];
  }

  /** The buffers of a layer. */
  datatype Storage = Storage(
    weights: array<real>,
    weightUpdates: array<real>,
    biases: array<real>,
    biasUpdates: array<real>,
    output: array<real>,
    delta: array<real>,
    binaryWeights: array?<real>,
    binaryInput: array?<real>,
    scales: array?<real>,
    scaleUpdates: array?<real>,
    rollingMean: array?<real>,
    rollingVariance: array?<real>,
    x: array?<real>,
    xNorm: array?<real>)

  /** The length of every buffer. */
  function Lengths(p: Storage): Alloc
  {
    Alloc(p.weights.Length, p.weightUpdates.Length, p.biases.Length, p.biasUpdates.Length,
          p.output.Length, p.delta.Length,
          LengthOf(p.binaryWeights), LengthOf(p.binaryInput),
          LengthOf(p.scales), LengthOf(p.scaleUpdates),
          LengthOf(p.rollingMean), LengthOf(p.rollingVariance),
          LengthOf(p.x), LengthOf(p.xNorm))
  }

  /** No two buffers are the same memory (NULL aside). */
  predicate Disjoint(p: Storage)
  {
    p.weights != p.weightUpdates && p.weights != p.biases && p.weights != p.biasUpdates &&
    p.weights != p.output && p.weights != p.delta && p.weights != p.binaryWeights &&
    p.weights != p.binaryInput && p.weights != p.scales && p.weights != p.scaleUpdates &&
    p.weights != p.rollingMean && p.weights != p.rollingVariance && p.weights != p.x &&
    p.weights != p.xNorm && p.weightUpdates != p.biases && p.weightUpdates != p.biasUpdates &&
    p.weightUpdates != p.output && p.weightUpdates != p.delta &&
    p.weightUpdates != p.binaryWeights && p.weightUpdates != p.binaryInput &&
    p.weightUpdates != p.scales && p.weightUpdates != p.scaleUpdates &&
    p.weightUpdates != p.rollingMean && p.weightUpdates != p.rollingVariance &&
    p.weightUpdates != p.x && p.weightUpdates != p.xNorm && p.biases != p.biasUpdates &&
    p.biases != p.output && p.biases != p.delta && p.biases != p.binaryWeights &&
    p.biases != p.binaryInput && p.biases != p.scales && p.biases != p.scaleUpdates &&
    p.biases != p.rollingMean && p.biases != p.rollingVariance && p.biases != p.x &&
    p.biases != p.xNorm && p.biasUpdates != p.output && p.biasUpdates != p.delta &&
    p.biasUpdates != p.binaryWeights && p.biasUpdates != p.binaryInput &&
    p.biasUpdates != p.scales && p.biasUpdates != p.scaleUpdates &&
    p.biasUpdates != p.rollingMean && p.biasUpdates != p.rollingVariance && p.biasUpdates != p.x &&
    p.biasUpdates != p.xNorm && p.output != p.delta && p.output != p.binaryWeights &&
    p.output != p.binaryInput && p.output != p.scales && p.output != p.scaleUpdates &&
    p.output != p.rollingMean && p.output != p.rollingVariance && p.output != p.x &&
    p.output != p.xNorm && p.delta != p.binaryWeights && p.delta != p.binaryInput &&
    p.delta != p.scales && p.delta != p.scaleUpdates && p.delta != p.rollingMean &&
    p.delta != p.rollingVariance && p.delta != p.x && p.delta != p.xNorm &&
    (p.binaryWeights == null || p.binaryWeights != p.binaryInput) &&
    (p.binaryWeights == null || p.binaryWeights != p.scales) &&
    (p.binaryWeights == null || p.binaryWeights != p.scaleUpdates) &&
    (p.binaryWeights == null || p.binaryWeights != p.rollingMean) &&
    (p.binaryWeights == null || p.binaryWeights != p.rollingVariance) &&
    (p.binaryWeights == null || p.binaryWeights != p.x) &&
    (p.binaryWeights == null || p.binaryWeights != p.xNorm) &&
    (p.binaryInput == null || p.binaryInput != p.scales) &&
    (p.binaryInput == null || p.binaryInput != p.scaleUpdates) &&
    (p.binaryInput == null || p.binaryInput != p.rollingMean) &&
    (p.binaryInput == null || p.binaryInput != p.rollingVariance) &&
    (p.binaryInput == null || p.binaryInput != p.x) &&
    (p.binaryInput == null || p.binaryInput != p.xNorm) &&
    (p.scales == null || p.scales != p.scaleUpdates) &&
    (p.scales == null || p.scales != p.rollingMean) &&
    (p.scales == null || p.scales != p.rollingVariance) && (p.scales == null || p.scales != p.x) &&
    (p.scales == null || p.scales != p.xNorm) &&
    (p.scaleUpdates == null || p.scaleUpdates != p.rollingMean) &&
    (p.scaleUpdates == null || p.scaleUpdates != p.rollingVariance) &&
    (p.scaleUpdates == null || p.scaleUpdates != p.x) &&
    (p.scaleUpdates == null || p.scaleUpdates != p.xNorm) &&
    (p.rollingMean == null || p.rollingMean != p.rollingVariance) &&
    (p.rollingMean == null || p.rollingMean != p.x) &&
    (p.rollingMean == null || p.rollingMean != p.xNorm) &&
    (p.rollingVariance == null || p.rollingVariance != p.x) &&
    (p.rollingVariance == null || p.rollingVariance != p.xNorm) &&
    (p.x == null || p.x != p.xNorm)
  }

  /** make_convolutional_layer's allocations for the lengths `a`: the
      weights hold `init`, the scales ones when batch-normalized, every
      other buffer zeros. */
  method NewStorage(a: Alloc, init: seq<real>, bn: bool) returns (p: Storage)
    requires |init| == a.weights
    ensures Lengths(p) == a && Disjoint(p)
    ensures fresh(p.weights) && fresh(p.weightUpdates) && fresh(p.biases) && fresh(p.biasUpdates)
    ensures fresh(p.output) && fresh(p.delta)
    ensures p.weights[..] == init
    ensures Filled(p.weightUpdates, 0.0) && Filled(p.biases, 0.0) && Filled(p.biasUpdates, 0.0)
    ensures Filled(p.output, 0.0) && Filled(p.delta, 0.0)
    ensures Filled(p.binaryWeights, 0.0) && Filled(p.binaryInput, 0.0)
    ensures Filled(p.scales, if bn then 1.0 else 0.0) && Filled(p.scaleUpdates, 0.0)
    ensures Filled(p.rollingMean, 0.0) && Filled(p.rollingVariance, 0.0)
    ensures Filled(p.x, 0.0) && Filled(p.xNorm, 0.0)
  {
    var ws, wu, bs, bu, out, dl := NewRequired(a, init);
    var bw, bi, sc, su, rm, rv, xs, xn := NewOptional(a, bn);
    p := Storage(ws, wu, bs, bu, out, dl, bw, bi, sc, su, rm, rv, xs, xn);
  }

  /** The six buffers every layer has. */
  method NewRequired(a: Alloc, init: seq<real>)
      returns (ws: array<real>, wu: array<real>, bs: array<real>, bu: array<real>,
               out: array<real>, dl: array<real>)
    requires |init| == a.weights
    ensures fresh(ws) && fresh(wu) && fresh(bs) && fresh(bu) && fresh(out) && fresh(dl)
    ensures wu.Length == a.weightUpdates && bs.Length == a.biases && bu.Length == a.biasUpdates
    ensures out.Length == a.output && dl.Length == a.delta
    ensures ws[..] == init
    ensures Filled(wu, 0.0) && Filled(bs, 0.0) && Filled(bu, 0.0) && Filled(out, 0.0) && Filled(dl, 0.0)
    ensures ws != wu && ws != bs && ws != bu && ws != out && ws != dl && wu != bs && wu != bu &&
            wu != out && wu != dl && bs != bu && bs != out && bs != dl && bu != out && bu != dl &&
            out != dl
  {
    ws := new real[|init|](i requires 0 <= i < |init| => init[i]);
    assert ws[..] == init;
    wu := Calloc(a.weightUpdates);
    bs := Calloc(a.biases);
    bu := Calloc(a.biasUpdates);
    out := Calloc(a.output);
    dl := Calloc(a.delta);
  }

  /** The buffers that depend on the switches. */
  method NewOptional(a: Alloc, bn: bool)
      returns (bw: array?<real>, bi: array?<real>, sc: array?<real>, su: array?<real>,
               rm: array?<real>, rv: array?<real>, xs: array?<real>, xn: array?<real>)
    ensures LengthOf(bw) == a.binaryWeights && LengthOf(bi) == a.binaryInput
    ensures LengthOf(sc) == a.scales && LengthOf(su) == a.scaleUpdates
    ensures LengthOf(rm) == a.rollingMean && LengthOf(rv) == a.rollingVariance
    ensures LengthOf(xs) == a.x && LengthOf(xn) == a.xNorm
    ensures (bw == null || fresh(bw)) && (bi == null || fresh(bi)) && (sc == null || fresh(sc)) && (su == null || fresh(su))
    ensures (rm == null || fresh(rm)) && (rv == null || fresh(rv)) && (xs == null || fresh(xs)) && (xn == null || fresh(xn))
    ensures Filled(bw, 0.0) && Filled(bi, 0.0) && Filled(sc, if bn then 1.0 else 0.0)
    ensures Filled(su, 0.0) && Filled(rm, 0.0) && Filled(rv, 0.0) && Filled(xs, 0.0) && Filled(xn, 0.0)
    ensures (bw == null || bw != bi) && (bw == null || bw != sc) && (bw == null || bw != su) &&
            (bw == null || bw != rm) && (bw == null || bw != rv) && (bw == null || bw != xs) &&
            (bw == null || bw != xn) && (bi == null || bi != sc) && (bi == null || bi != su) &&
            (bi == null || bi != rm) && (bi == null || bi != rv) && (bi == null || bi != xs) &&
            (bi == null || bi != xn) && (sc == null || sc != su) && (sc == null || sc != rm) &&
            (sc == null || sc != rv) && (sc == null || sc != xs) && (sc == null || sc != xn) &&
            (su == null || su != rm) && (su == null || su != rv) && (su == null || su != xs) &&
            (su == null || su != xn) && (rm == null || rm != rv) && (rm == null || rm != xs) &&
            (rm == null || rm != xn) && (rv == null || rv != xs) && (rv == null || rv != xn) &&
            (xs == null || xs != xn)
  {
    bw := CallocOpt(a.binaryWeights);
    bi := CallocOpt(a.binaryInput);
    sc := NewScales(bn, a.scales);
    su := CallocOpt(a.scaleUpdates);
    rm := CallocOpt(a.rollingMean);
    rv := CallocOpt(a.rollingVariance);
    xs := CallocOpt(a.x);
    xn := CallocOpt(a.xNorm);
  }

  /** resize_convolutional_layer's reallocations: output and delta, and
      with batch-normalize `x` and `x_norm`, to `batch*outputs` floats; the
      binary input, when there is one, to `inputs*batch`. */
  method Reallocations(p: Storage, s: Shape, f: Flags)
      returns (out: array<real>, dl: array<real>, xs: array?<real>, xn: array?<real>, bi: array?<real>)
    requires WellFormed(s)
    requires f.batchNormalize ==> p.x != null && p.xNorm != null
    ensures fresh(out) && fresh(dl) && out.Length == dl.Length == BatchOutputs(s)
    ensures if f.batchNormalize then xs != null && fresh(xs) && xs.Length == BatchOutputs(s) else xs == p.x
    ensures if f.batchNormalize then xn != null && fresh(xn) && xn.Length == BatchOutputs(s) else xn == p.xNorm
    ensures if p.binaryInput != null then bi != null && fresh(bi) && bi.Length == Inputs(s) * s.batch
            else bi == null
    ensures PrefixKept(out[..], p.output[..]) && PrefixKept(dl[..], p.delta[..])
    ensures PrefixKept(Contents(xs), Contents(p.x)) && PrefixKept(Contents(xn), Contents(p.xNorm))
    ensures PrefixKept(Contents(bi), Contents(p.binaryInput))
    ensures out != dl
    ensures f.batchNormalize ==> xs != out && xs != dl && xn != out && xn != dl && xn != xs
    ensures bi != null ==> bi != out && bi != dl && bi != xs && bi != xn
  {
    var len := BatchOutputs(s);
    out := Realloc(p.output, len);
    dl := Realloc(p.delta, len);
    xs := ReallocIf(f.batchNormalize, p.x, len);
    xn := ReallocIf(f.batchNormalize, p.xNorm, len);
    bi := ReallocIf(true, p.binaryInput, Inputs(s) * s.batch);
  }

  /** Every buffer of `p`, as a set. */
  function Held(p: Storage): set<array?<real>>
  {
    {p.weights, p.weightUpdates, p.biases, p.biasUpdates, p.output, p.delta,
     p.binaryWeights, p.binaryInput, p.scales, p.scaleUpdates,
     p.rollingMean, p.rollingVariance, p.x, p.xNorm}
  }

  /** A buffer allocated since is none of `p`'s. */
  twostate lemma FreshOutside(p: Storage, new a: array?<real>)
    requires fresh(a)
    ensures a !in Held(p)
  {
  }

  /** Replacing output, delta, `x`, `x_norm` and the binary input by
      buffers that are new and distinct (or keeping them) keeps the
      buffers disjoint. */
  lemma RegrowDisjoint(p: Storage, q: Storage)
    requires q.weights == p.weights && q.weightUpdates == p.weightUpdates
    requires q.biases == p.biases && q.biasUpdates == p.biasUpdates
    requires q.binaryWeights == p.binaryWeights && q.scales == p.scales
    requires q.scaleUpdates == p.scaleUpdates
    requires q.rollingMean == p.rollingMean && q.rollingVariance == p.rollingVariance
    requires q.output !in Held(p) && q.delta !in Held(p) && q.output != q.delta
    requires q.x == p.x || (q.x !in Held(p) && q.x != q.output && q.x != q.delta)
    requires q.xNorm == p.xNorm ||
             (q.xNorm !in Held(p) && q.xNorm != q.output && q.xNorm != q.delta && q.xNorm != q.x)
    requires q.binaryInput == p.binaryInput ||
             (q.binaryInput !in Held(p) && q.binaryInput != q.output && q.binaryInput != q.delta &&
              q.binaryInput != q.x && q.binaryInput != q.xNorm)
    ensures Disjoint(p) ==> Disjoint(q)
  {
  }

  /** The counts a layer keeps besides its shape. */
  datatype Counts = Counts(outH: nat, outW: nat, outC: nat, outputs: nat, inputs: nat,
                           nweights: nat, nbiases: nat, workspaceSize: nat)

  /** The counts make_convolutional_layer and resize_convolutional_layer
      derive from a shape. */
  function CountsOf(s: Shape): Counts
    requires WellFormed(s)
  {
    Counts(OutH(s), OutW(s), s.n, Outputs(s), Inputs(s), NWeights(s), s.n, WorkspaceBytes(s))
  }

  /** A shape the model covers (groups divide the channels and the
      filters, a kernel of at least one), with the counts and the buffer
      lengths make_convolutional_layer gives it. */
  predicate Consistent(s: Shape, f: Flags, k: Counts, a: Alloc)
  {
    WellFormed(s) && GroupsDivide(s) && s.size >= 1 &&
    k == CountsOf(s) && a == Allocation(s, f)
  }

  class Layer {
    const batch: nat
    const c: nat
    const n: nat
    const groups: nat
    const size: nat
    const stride: nat
    const pad: int
    const batchNormalize: bool
    const binary: bool
    const xnor: bool

    var h: nat
    var w: nat
    /** The output size and the other counts derived from the shape. */
    var counts: Counts
    /** Zero in a freshly made layer; the network configuration sets it. */
    var learningRateScale: real

    /** The buffers the layer owns. */
    var buf: Storage

    /** The shape the layer's counts are computed from. */
    function Dims(): Shape
      reads this
    {
      Shape(batch, h, w, c, n, groups, size, stride, pad)
    }

    function Switches(): Flags
    {
      Flags(batchNormalize, binary, xnor)
    }

    /** The length of every buffer. */
    function Allocated(): Alloc
      reads this
    {
      Lengths(buf)
    }

    /** The counts agree with the shape, the buffers have the lengths
        make_convolutional_layer gives them and do not overlap. Layers
        whose groups do not divide the channels and the filters are not
        modelled. */
    predicate Valid()
      reads this
    {
      Consistent(Dims(), Switches(), counts, Allocated()) && Disjoint(buf)
    }

    /** make_convolutional_layer: `init` holds the `nweights` initial
        weights (the source draws them as `scale*rand_normal()`); every
        other buffer starts at zero except the batch-normalize scales,
        which start at one. */
    constructor (s: Shape, f: Flags, init: seq<real>)
      requires WellFormed(s) && GroupsDivide(s) && s.size >= 1
      requires |init| == NWeights(s)
      ensures Valid() && Dims() == s && Switches() == f
      ensures buf.weights[..] == init
      ensures Filled(buf.weightUpdates, 0.0) && Filled(buf.biases, 0.0) && Filled(buf.biasUpdates, 0.0)
      ensures Filled(buf.output, 0.0) && Filled(buf.delta, 0.0)
      ensures Filled(buf.binaryWeights, 0.0) && Filled(buf.binaryInput, 0.0)
      ensures Filled(buf.scales, if f.batchNormalize then 1.0 else 0.0) && Filled(buf.scaleUpdates, 0.0)
      ensures Filled(buf.rollingMean, 0.0) && Filled(buf.rollingVariance, 0.0)
      ensures Filled(buf.x, 0.0) && Filled(buf.xNorm, 0.0)
      ensures learningRateScale == 0.0
      ensures fresh(buf.weights) && fresh(buf.weightUpdates) && fresh(buf.biases) && fresh(buf.biasUpdates)
      ensures fresh(buf.output) && fresh(buf.delta)
    {
      var k, a := CountsOf(s), Allocation(s, f);
      batch, h, w, c, n := s.batch, s.h, s.w, s.c, s.n;
      groups, size, stride, pad := s.groups, s.size, s.stride, s.pad;
      batchNormalize, binary, xnor := f.batchNormalize, f.binary, f.xnor;
      counts := k;
      learningRateScale := 0.0;

      var p := NewStorage(a, init, f.batchNormalize);
      buf := p;
    }

    /** resize_convolutional_layer with the binary input reallocated along
        with the output, as make_convolutional_layer would size it: the new
        width and height and every count derived from them, output and
        delta (and with batch-normalize `x` and `x_norm`) grown or shrunk to
        the new `batch*outputs` keeping their prefix, the parameters
        untouched. */
    method Resize(newW: nat, newH: nat)
      requires Valid() && WellFormed(Resized(Dims(), newW, newH))
      modifies this
      ensures Valid() && Dims() == Resized(old(Dims()), newW, newH)
      ensures Allocated() == ResizedAlloc(old(Allocated()), Dims(), Switches())
      ensures Allocated() == Allocation(Dims(), Switches())
      ensures buf.weights == old(buf.weights) && buf.weightUpdates == old(buf.weightUpdates)
      ensures buf.biases == old(buf.biases) && buf.biasUpdates == old(buf.biasUpdates)
      ensures buf.binaryWeights == old(buf.binaryWeights) && buf.scales == old(buf.scales)
      ensures buf.scaleUpdates == old(buf.scaleUpdates)
      ensures buf.rollingMean == old(buf.rollingMean) && buf.rollingVariance == old(buf.rollingVariance)
      ensures PrefixKept(buf.output[..], old(buf.output[..])) && PrefixKept(buf.delta[..], old(buf.delta[..]))
      ensures PrefixKept(Contents(buf.x), old(Contents(buf.x))) && PrefixKept(Contents(buf.xNorm), old(Contents(buf.xNorm)))
      ensures PrefixKept(Contents(buf.binaryInput), old(Contents(buf.binaryInput)))
      ensures learningRateScale == old(learningRateScale)
    {
      var s := Resized(Dims(), newW, newH);
      var k := CountsOf(s);
      ResizeAgreesWithMake(Dims(), Switches(), newW, newH);
      var out, dl, xs, xn, bi := Reallocations(buf, s, Switches());
      var q := buf.(output := out, delta := dl, x := xs, xNorm := xn, binaryInput := bi);
      FreshOutside(buf, out);
      FreshOutside(buf, dl);
      if batchNormalize {
        FreshOutside(buf, xs);
        FreshOutside(buf, xn);
      }
      if bi != null {
        FreshOutside(buf, bi);
      }
      RegrowDisjoint(buf, q);
      w, h, counts, buf := newW, newH, k, q;
    }

    /** swap_binary: the weights and the binary weights trade places. */
    method SwapBinary()
      requires Valid() && buf.binaryWeights != null
      modifies this
      ensures Valid()
      ensures buf == old(buf).(weights := old(buf.binaryWeights), binaryWeights := old(buf.weights))
      ensures Dims() == old(Dims()) && Allocated() == old(Allocated())
      ensures learningRateScale == old(learningRateScale)
    {
      buf := buf.(weights := buf.binaryWeights, binaryWeights := buf.weights);
    }

    /** update_convolutional_layer with the scales branch taken when both
        `scales` and `scale_updates` are set (UpdateGuard): the biases,
        then for a batch-normalized layer the scales, step along their
        accumulated updates by `learning_rate*learning_rate_scale/batch`
        and the updates decay by `momentum`; then `-decay*batch*weights` is
        added to the weight updates, the weights step along them and they
        decay by `momentum`. */
    method Update(hp: Hyper)
      requires Valid() && hp.batch > 0
      modifies buf.weights, buf.weightUpdates, buf.biases, buf.biasUpdates, buf.scales, buf.scaleUpdates
      ensures buf.biases[..] == Stepped(n, Step(hp, learningRateScale), old(buf.biases[..]), old(buf.biasUpdates[..]))
      ensures buf.biasUpdates[..] == Carried(n, hp.momentum, old(buf.biasUpdates[..]))
      ensures batchNormalize ==>
                Contents(buf.scales) == Stepped(n, Step(hp, learningRateScale), old(Contents(buf.scales)),
                                                old(Contents(buf.scaleUpdates))) &&
                Contents(buf.scaleUpdates) == Carried(n, hp.momentum, old(Contents(buf.scaleUpdates)))
      ensures !batchNormalize ==> Contents(buf.scales) == old(Contents(buf.scales))
      ensures buf.weights[..] == NewWeights(hp, learningRateScale, counts.nweights,
                                            old(buf.weights[..]), old(buf.weightUpdates[..]))
      ensures buf.weightUpdates[..] == NewWeightUpdates(hp, counts.nweights,
                                                        old(buf.weights[..]), old(buf.weightUpdates[..]))
    {
      UpdateGuardSafe(Dims(), Switches());
      var step := Step(hp, learningRateScale);
      StepParams(n, step, hp.momentum, buf.biases, buf.biasUpdates);
      if buf.scales != null && buf.scaleUpdates != null {
        StepParams(n, step, hp.momentum, buf.scales, buf.scaleUpdates);
      }
      StepWeights(hp, learningRateScale, counts.nweights, buf.weights, buf.weightUpdates);
    }

    /** `a` is none of the layer's buffers, as the network's input and
        delta are not. */
    predicate Foreign(a: array<real>)
      reads this
    {
      a != buf.weights && a != buf.weightUpdates && a != buf.biases && a != buf.biasUpdates &&
      a != buf.output && a != buf.delta && a != buf.binaryWeights && a != buf.binaryInput &&
      a != buf.scales && a != buf.scaleUpdates && a != buf.rollingMean &&
      a != buf.rollingVariance && a != buf.x && a != buf.xNorm
    }

    /** forward_convolutional_layer on the network's input `input` (at
        least `batch*inputs` floats): the output buffer receives the
        convolution of every sample, normalized or biased, then activated;
        with xnor the binary weights and the binary input hold the
        binarized weights and input. The convolution is ForwardPass's, with
        the corrected 1x1 shortcut. With batch-normalize the batch
        normalization may also write `x`, `x_norm` and the rolling
        statistics; what it writes there is not stated. */
    method Forward(input: array<real>, normalize: Normalizer, act: real -> real)
      requires Valid() && Foreign(input) && batch * counts.inputs <= input.Length
      modifies buf.output, if xnor then {buf.binaryWeights, buf.binaryInput} else {}
      modifies if batchNormalize then {buf.x, buf.xNorm, buf.rollingMean, buf.rollingVariance} else {}
      ensures buf.output[..] == ForwardOutput(Dims(), xnor, batchNormalize, buf.weights[..], buf.biases[..],
                                              input[..], normalize, act)
      ensures xnor ==> Contents(buf.binaryWeights) == ForwardWeights(Dims(), xnor, buf.weights[..]) &&
                       Contents(buf.binaryInput) == ForwardInput(Dims(), xnor, input[..])
    {
      ForwardPass(Dims(), xnor, batchNormalize, buf.weights, buf.binaryWeights, buf.biases,
                  input, buf.binaryInput, buf.output, normalize, act);
    }

    /** backward_convolutional_layer with the network's input `input` and
        delta `netDelta` (NULL for the first layer): the delta is chained
        through the activation's gradient (and normalized back with
        batch-normalize, otherwise its sums join the bias updates; the
        batch normalization may also write the bias and scale updates, and
        what it writes there is not stated); the
        weight updates gain the whole batch's gradient and the network's
        delta the input gradient, both as BackwardPass computes them with
        the corrected 1x1 shortcuts. */
    method Backward(input: array<real>, netDelta: array?<real>, grad: real -> real,
                    normalizeBack: Normalizer)
      requires Valid() && Foreign(input) && batch * counts.inputs <= input.Length
      requires netDelta != null ==> Foreign(netDelta) && netDelta != input &&
                                    batch * counts.inputs <= netDelta.Length
      modifies buf.delta, buf.weightUpdates, buf.biasUpdates, netDelta
      modifies if batchNormalize then {buf.scaleUpdates} else {}
      ensures buf.delta[..] == BackwardDelta(Dims(), batchNormalize, buf.output[..], old(buf.delta[..]),
                                             grad, normalizeBack)
      ensures (Sizes(Dims());
               !batchNormalize ==>
                 buf.biasUpdates[..] == BackwardBiasSpec(old(buf.biasUpdates[..]), buf.delta[..],
                                                         batch, n, Plane(Dims())))
      ensures buf.weightUpdates[..] == WeightGrad(Dims(), buf.delta[..], input[..], old(buf.weightUpdates[..]), batch)
      ensures netDelta != null ==>
                netDelta[..] == InputGradient(Dims(), buf.weights[..], buf.delta[..], old(netDelta[..]))
    {
      BackwardPass(Dims(), batchNormalize, buf.weights, buf.weightUpdates, buf.biasUpdates, buf.output,
                   buf.delta, input, netDelta, grad, normalizeBack);
    }

    /** denormalize_convolutional_layer, for a batch-normalized layer: with
        `f[i] = fold(scales[i], rolling_variance[i])`, filter `i`'s weights
        are multiplied by `f[i]` and its bias loses `rolling_mean[i]*f[i]`;
        the scales and variances become one and the means zero. */
    method Denormalize(fold: (real, real) -> real)
      requires Valid() && batchNormalize
      modifies buf.weights, buf.biases, buf.scales, buf.rollingMean, buf.rollingVariance
      ensures var f := Factors(fold, old(Contents(buf.scales)), old(Contents(buf.rollingVariance)));
              (WeightsAreFilterBlocks(Dims());
               buf.weights[..] == ScaleFilters(old(buf.weights[..]), f, FilterLen(Dims()))) &&
              buf.biases[..] == FoldMean(old(buf.biases[..]), old(Contents(buf.rollingMean)), f)
      ensures Filled(buf.scales, 1.0) && Filled(buf.rollingMean, 0.0) && Filled(buf.rollingVariance, 1.0)
    {
      WeightsAreFilterBlocks(Dims());
      FoldBatchNorm(fold, n, c, groups, size, buf.weights, buf.biases, buf.scales,
                    buf.rollingMean, buf.rollingVariance);
    }
  }
}
