/** What update_convolutional_layer and denormalize_convolutional_layer do
    to the layer's parameters, stated on their contents: the SGD step with
    momentum and weight decay, and the folding of batch normalization into
    the weights and biases. */
module Training {
  import opened CInt
  import opened Blas
  import opened Binarize

  /** The fields of `update_args` the update reads. */
  datatype Hyper = Hyper(learningRate: real, momentum: real, decay: real, batch: nat)

  /** `learning_rate*learning_rate_scale/batch`: the factor every accumulated
      update is applied with. */
  function Step(h: Hyper, rateScale: real): real
    requires h.batch > 0
  {
    h.learningRate * rateScale / (h.batch as real)
  }

  /** A parameter and its accumulated update after one step: the parameter
      moves by `step` times the update, then the update decays by
      `momentum` (the biases and the scales). */
  function Stepped(count: nat, step: real, p: seq<real>, u: seq<real>): (r: seq<real>)
    requires count <= |p| && count <= |u|
    ensures |r| == |p|
  {
    AxpySpec(count, step, u, p)
  }

  function Carried(count: nat, momentum: real, u: seq<real>): (r: seq<real>)
    requires count <= |u|
    ensures |r| == |u|
  {
    ScalSpec(count, momentum, u)
  }

  /** The weight updates with the decay term `-decay*batch*weights` added. */
  function Decayed(h: Hyper, count: nat, w: seq<real>, wu: seq<real>): (r: seq<real>)
    requires count <= |w| && count <= |wu|
    ensures |r| == |wu|
  {
    AxpySpec(count, -h.decay * (h.batch as real), w, wu)
  }

  /** The weights after the update: stepped along the decayed updates. */
  function NewWeights(h: Hyper, rateScale: real, count: nat, w: seq<real>, wu: seq<real>): (r: seq<real>)
    requires h.batch > 0 && count <= |w| && count <= |wu|
    ensures |r| == |w|
  {
    Stepped(count, Step(h, rateScale), w, Decayed(h, count, w, wu))
  }

  /** The weight updates after the update: the decayed updates times the
      momentum. */
  function NewWeightUpdates(h: Hyper, count: nat, w: seq<real>, wu: seq<real>): (r: seq<real>)
    requires count <= |w| && count <= |wu|
    ensures |r| == |wu|
  {
    Carried(count, h.momentum, Decayed(h, count, w, wu))
  }

  /** `(lr*s/b) * (d*b) == lr*s*d` for a positive batch. */
  lemma StepTimesBatch(h: Hyper, rateScale: real)
    requires h.batch > 0
    ensures Step(h, rateScale) * (h.decay * (h.batch as real)) == h.learningRate * rateScale * h.decay
  {
    var b := h.batch as real;
    var lr := h.learningRate * rateScale;
    assert Step(h, rateScale) * b == lr;
    calc {
      Step(h, rateScale) * (h.decay * b);
    ==
      (Step(h, rateScale) * b) * h.decay;
    ==
      lr * h.decay;
    }
  }

  /** Each of the first `count` weights becomes
      `(1 - lr*s*decay)*w + (lr*s/batch)*wu`: weight decay shrinks it in
      proportion to the effective learning rate, independently of the
      batch; the weights past `count` are kept. */
  lemma WeightStepClosedForm(h: Hyper, rateScale: real, count: nat, w: seq<real>, wu: seq<real>, k: nat)
    requires h.batch > 0 && count <= |w| && count <= |wu| && k < |w|
    ensures k < count ==>
      NewWeights(h, rateScale, count, w, wu)[k]
        == (1.0 - h.learningRate * rateScale * h.decay) * w[k] + Step(h, rateScale) * wu[k]
    ensures count <= k ==> NewWeights(h, rateScale, count, w, wu)[k] == w[k]
  {
    if k < count {
      var st, db := Step(h, rateScale), h.decay * (h.batch as real);
      StepTimesBatch(h, rateScale);
      calc {
        NewWeights(h, rateScale, count, w, wu)[k];
      ==
        w[k] + st * (wu[k] + -db * w[k]);
      ==
        w[k] + st * wu[k] - (st * db) * w[k];
      ==
        (1.0 - h.learningRate * rateScale * h.decay) * w[k] + st * wu[k];
      }
    }
  }

  /** Each of the first `count` weight updates becomes
      `momentum*(wu - decay*batch*w)`: the decay term is carried into the
      next step together with the gradient. */
  lemma MomentumClosedForm(h: Hyper, count: nat, w: seq<real>, wu: seq<real>, k: nat)
    requires count <= |w| && count <= |wu| && k < |wu|
    ensures k < count ==>
      NewWeightUpdates(h, count, w, wu)[k] == h.momentum * (wu[k] - h.decay * (h.batch as real) * w[k])
    ensures count <= k ==> NewWeightUpdates(h, count, w, wu)[k] == wu[k]
  {
  }

  /** The decay is added to the updates before the step, so it already
      moves the weights in the same call: compared with stepping along the
      bare updates, each weight differs by `-lr*s*decay*w`. */
  lemma DecayEntersSameStep(h: Hyper, rateScale: real, count: nat, w: seq<real>, wu: seq<real>, k: nat)
    requires h.batch > 0 && count <= |w| && count <= |wu| && k < count
    ensures NewWeights(h, rateScale, count, w, wu)[k]
            == Stepped(count, Step(h, rateScale), w, wu)[k] - h.learningRate * rateScale * h.decay * w[k]
  {
    StepTimesBatch(h, rateScale);
  }

  /** A layer whose learning-rate scale is zero (as make_convolutional_layer
      leaves it) keeps its weights and biases however large its
      accumulated updates. */
  lemma ZeroRateScaleFreezes(h: Hyper, count: nat, w: seq<real>, wu: seq<real>, nb: nat,
                             b: seq<real>, bu: seq<real>)
    requires h.batch > 0 && count <= |w| && count <= |wu| && nb <= |b| && nb <= |bu|
    ensures NewWeights(h, 0.0, count, w, wu) == w
    ensures Stepped(nb, Step(h, 0.0), b, bu) == b
  {
    assert Step(h, 0.0) == 0.0;
    assert forall k :: 0 <= k < |w| ==> NewWeights(h, 0.0, count, w, wu)[k] == w[k];
    assert forall k :: 0 <= k < |b| ==> Stepped(nb, Step(h, 0.0), b, bu)[k] == b[k];
  }

  /** Without momentum the first `count` accumulated updates are cleared. */
  lemma NoMomentumClears(h: Hyper, count: nat, w: seq<real>, wu: seq<real>)
    requires h.momentum == 0.0 && count <= |w| && count <= |wu|
    ensures forall k :: 0 <= k < count ==> NewWeightUpdates(h, count, w, wu)[k] == 0.0
  {
  }

  /** The block of `K` weights of filter `i` multiplied by that filter's
      factor `f[i]`; weights past the `|f|` filters are kept. */
  function ScaleFilters(w: seq<real>, f: seq<real>, K: nat): (r: seq<real>)
    requires |f| * K <= |w|
    ensures |r| == |w|
  {
    seq(|w|, k requires 0 <= k < |w| =>
      if K > 0 && k < |f| * K then (BlockOf(k, |f|, K); w[k] * f[k / K]) else w[k])
  }

  /** The biases after the rolling mean, scaled by each filter's factor, is
      taken out of them. */
  function FoldMean(b: seq<real>, mean: seq<real>, f: seq<real>): (r: seq<real>)
    requires |b| == |f| && |mean| == |f|
    ensures |r| == |b|
  {
    seq(|b|, i requires 0 <= i < |b| => FoldedBias(b[i], mean[i], f[i]))
  }

  /** One filter's bias `b` with its mean `m`, scaled by its factor `f`,
      taken out. */
  function FoldedBias(b: real, m: real, f: real): real
  {
    b - m * f
  }

  /** The per-filter factor `fold(scales[i], rolling_variance[i])`; the
      source uses `scales[i]/sqrt(rolling_variance[i] + .00001)`. */
  function Factors(fold: (real, real) -> real, sc: seq<real>, variance: seq<real>): (f: seq<real>)
    requires |sc| == |variance|
    ensures |f| == |sc| && forall i :: 0 <= i < |sc| ==> f[i] == fold(sc[i], variance[i])
  {
    seq(|sc|, i requires 0 <= i < |sc| => fold(sc[i], variance[i]))
  }

  /** Filter `i`'s block ends inside the `count` filters. */
  lemma FilterBlockFits(i: nat, count: nat, len: nat)
    requires i < count
    ensures i * len + len <= count * len
  {
    MulLe(i + 1, count, len);
    MulSucc(i, len);
  }

  /** Scaling one more filter: the block of filter `i` is multiplied by
      `f[i]`, every other weight is as it was with `i` filters scaled. */
  lemma ScaleFiltersStep(w: seq<real>, f: seq<real>, K: nat, i: nat, k: nat)
    requires |f| * K <= |w| && i < |f| && k < |w|
    ensures i * K + K <= |w|
    ensures ScaleFilters(w, f[..i + 1], K)[k]
            == if i * K <= k < i * K + K then ScaleFilters(w, f[..i], K)[k] * f[i]
               else ScaleFilters(w, f[..i], K)[k]
  {
    MulLe(i + 1, |f|, K);
    MulSucc(i, K);
    MulLe(i, |f|, K);
    var lo := i * K;
    if K > 0 {
      if lo <= k < lo + K {
        BlockSplit(i, k - lo, K);
      } else if k < lo {
        BlockOf(k, i, K);
      }
    }
  }

  /** The offset denormalize_convolutional_layer computes for filter `i`,
      `i*c/groups*size*size` with the division after the first product,
      is the start of block `i` when `groups` divides `c`. */
  lemma FilterOffset(i: nat, c: nat, groups: nat, size: nat)
    requires groups >= 1 && c % groups == 0
    ensures i * c / groups * size * size == i * (c / groups * size * size)
  {
    DivAfterMul(i, c, groups);
    var q := c / groups;
    assert i * q * size * size == i * (q * size * size);
  }

  /** Every weight of filter `i`'s block is multiplied by `f[i]`, and by
      nothing else. */
  lemma ScaleFiltersBlock(w: seq<real>, f: seq<real>, K: nat, i: nat)
    requires |f| * K <= |w| && i < |f|
    ensures i * K + K <= |w|
    ensures Block(ScaleFilters(w, f, K), i, K) == Scaled(Block(w, i, K), f[i])
  {
    MulLe(i + 1, |f|, K);
    MulSucc(i, K);
    var lo := i * K;
    var r := ScaleFilters(w, f, K);
    forall k | 0 <= k < K
      ensures Block(r, i, K)[k] == Scaled(Block(w, i, K), f[i])[k]
    {
      BlockSplit(i, k, K);
      assert Block(r, i, K)[k] == r[lo + k];
    }
  }

  /** What batch normalization with factor `f`, mean `m` and shift `b`
      makes of a filter response `d`. */
  function Normalized(d: real, f: real, m: real, b: real): real
  {
    f * (d - m) + b
  }

  /** Folding is exact: for every patch `x`, the folded filter `i` plus its
      folded bias gives what batch normalization with factor `f[i]`, mean
      `mean[i]` and shift `b[i]` gives for the original filter,
      `f[i]*(w_i . x - mean[i]) + b[i]`. */
  lemma FoldKeepsResponse(w: seq<real>, b: seq<real>, mean: seq<real>, f: seq<real>, K: nat,
                          i: nat, x: seq<real>)
    requires |f| * K <= |w| && |b| == |f| && |mean| == |f| && i < |f| && |x| == K
    ensures i * K + K <= |w|
    ensures Dot(Block(ScaleFilters(w, f, K), i, K), x) + FoldMean(b, mean, f)[i]
            == Normalized(Dot(Block(w, i, K), x), f[i], mean[i], b[i])
  {
    ScaleFiltersBlock(w, f, K, i);
    FoldedFilterResponse(Block(w, i, K), Block(ScaleFilters(w, f, K), i, K), x,
                         f[i], mean[i], b[i], FoldMean(b, mean, f)[i]);
  }

  /** One filter, folded: weights `a` scaled by `f` and the bias `fb`,
      which is `b - m*f`, respond to `x` with `f*(a . x - m) + b`. */
  lemma FoldedFilterResponse(a: seq<real>, sa: seq<real>, x: seq<real>, f: real, m: real, b: real, fb: real)
    requires |a| == |x| && sa == Scaled(a, f) && fb == FoldedBias(b, m, f)
    ensures Dot(sa, x) + fb == Normalized(Dot(a, x), f, m, b)
  {
    DotScaled(a, x, f);
  }


  /** With every factor one and every mean zero, folding changes nothing:
      the state denormalize_convolutional_layer leaves the statistics in
      is the neutral one whenever `fold(1, 1) == 1`. */
  lemma NeutralFoldKeeps(w: seq<real>, b: seq<real>, mean: seq<real>, f: seq<real>, K: nat)
    requires |f| * K <= |w| && |b| == |f| && |mean| == |f|
    requires forall i :: 0 <= i < |f| ==> f[i] == 1.0 && mean[i] == 0.0
    ensures ScaleFilters(w, f, K) == w && FoldMean(b, mean, f) == b
  {
    forall k | 0 <= k < |w| && K > 0 && k < |f| * K
      ensures ScaleFilters(w, f, K)[k] == w[k]
    {
      BlockOf(k, |f|, K);
    }
  }
}
