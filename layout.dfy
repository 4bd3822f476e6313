/** The buffers a layer owns and how many floats each holds: what
    make_convolutional_layer allocates for each combination of the
    batch-normalize, binary and xnor switches, what
    resize_convolutional_layer reallocates, and what the forward pass and
    the parameter update need to find there. */
module Buffers {
  import opened CInt
  import opened ConvGeometry
  import opened Maybe

  /** The switches a layer is built with. */
  datatype Flags = Flags(batchNormalize: bool, binary: bool, xnor: bool)

  /** The length of every buffer the model tracks; `None` for a buffer
      left NULL. */
  datatype Alloc = Alloc(
    weights: nat, weightUpdates: nat, biases: nat, biasUpdates: nat,
    output: nat, delta: nat,
    binaryWeights: Option<nat>, binaryInput: Option<nat>,
    scales: Option<nat>, scaleUpdates: Option<nat>,
    rollingMean: Option<nat>, rollingVariance: Option<nat>,
    x: Option<nat>, xNorm: Option<nat>)

  /** A buffer of `len` floats allocated only when `present`. */
  function When(present: bool, len: nat): Option<nat>
  {
    if present then Some(len) else None
  }

  /** The floats of one batch of outputs, `batch*outputs`. */
  function BatchOutputs(s: Shape): nat
    requires WellFormed(s)
  {
    s.batch * Outputs(s)
  }

  /** make_convolutional_layer's allocations: weights and their updates of
      `nweights`, biases and their updates of `n`, output and delta of
      `batch*outputs`; binary weights when binary or xnor, the binary
      input (`inputs*batch`) when xnor, scales when binary or
      batch-normalize, and scale updates, rolling statistics, `x` and
      `x_norm` only when batch-normalize. */
  function Allocation(s: Shape, f: Flags): Alloc
    requires WellFormed(s)
  {
    var bn := f.batchNormalize;
    Alloc(NWeights(s), NWeights(s), s.n, s.n,
          BatchOutputs(s), BatchOutputs(s),
          When(f.binary || f.xnor, NWeights(s)), When(f.xnor, Inputs(s) * s.batch),
          When(f.binary || bn, s.n), When(bn, s.n),
          When(bn, s.n), When(bn, s.n),
          When(bn, BatchOutputs(s)), When(bn, BatchOutputs(s)))
  }

  /** What the forward pass touches: `batch*outputs` floats of output,
      `nweights` weights, and with xnor the binary weights and the
      `c*h*w*batch` floats binarize_cpu writes into the binary input. */
  predicate ForwardFits(a: Alloc, s: Shape, f: Flags)
    requires WellFormed(s)
  {
    a.output >= BatchOutputs(s) && a.weights >= NWeights(s) && a.biases >= s.n &&
    (f.xnor ==>
       a.binaryWeights.Some? && a.binaryWeights.value >= NWeights(s) &&
       a.binaryInput.Some? && a.binaryInput.value >= s.c * s.h * s.w * s.batch)
  }

  /** `inputs*batch`, the binary input's length, is the `c*h*w*batch`
      that binarize_cpu writes. */
  lemma InputsCommute(s: Shape)
    ensures Inputs(s) * s.batch == s.c * s.h * s.w * s.batch
  {
    Reverse3(s.w, s.h, s.c);
  }

  /** A freshly made layer has room for everything its forward pass
      writes; in particular `inputs*batch == c*h*w*batch`. */
  lemma MadeLayerFitsForward(s: Shape, f: Flags)
    requires WellFormed(s)
    ensures ForwardFits(Allocation(s, f), s, f)
  {
    InputsCommute(s);
  }

  /** The shape after `resize_convolutional_layer(l, w, h)`. */
  function Resized(s: Shape, w: nat, h: nat): Shape
  {
    s.(w := w, h := h)
  }

  /** resize_convolutional_layer as written: output and delta, and with
      batch-normalize `x` and `x_norm`, are reallocated to the new
      `batch*outputs`; every other buffer keeps its length, the binary
      input included. */
  function ResizedAllocAsWritten(a: Alloc, s: Shape, f: Flags): Alloc
    requires WellFormed(s)
  {
    var len := BatchOutputs(s);
    a.(output := len, delta := len,
       x := if f.batchNormalize then Some(len) else a.x,
       xNorm := if f.batchNormalize then Some(len) else a.xNorm)
  }

  /** An xnor layer resized to a larger input (say from 1x1 to 2x2) keeps
      the binary input it was made with, while its next forward pass
      binarizes the new, larger `c*h*w*batch` floats into it. */
  lemma ResizeAsWrittenOverflowsBinaryInput(s: Shape, f: Flags, w: nat, h: nat)
    requires WellFormed(s) && WellFormed(Resized(s, w, h)) && f.xnor
    requires s.batch > 0 && Inputs(Resized(s, w, h)) > Inputs(s)
    ensures ResizedAllocAsWritten(Allocation(s, f), Resized(s, w, h), f).binaryInput
            == Some(Inputs(s) * s.batch)
    ensures !ForwardFits(ResizedAllocAsWritten(Allocation(s, f), Resized(s, w, h), f), Resized(s, w, h), f)
  {
    var s2 := Resized(s, w, h);
    var r := ResizedAllocAsWritten(Allocation(s, f), s2, f);
    assert r.binaryInput == Some(Inputs(s) * s.batch);
    var before, after := Inputs(s), Inputs(s2);
    assert before * s.batch < after * s.batch by {
      MulLe(before + 1, after, s.batch);
      MulSucc(before, s.batch);
    }
    InputsCommute(s2);
  }

  /** resize_convolutional_layer with the binary input reallocated to the
      new `inputs*batch` as well, when the layer has one. */
  function ResizedAlloc(a: Alloc, s: Shape, f: Flags): Alloc
    requires WellFormed(s)
  {
    var r := ResizedAllocAsWritten(a, s, f);
    r.(binaryInput := if a.binaryInput.Some? then Some(Inputs(s) * s.batch) else None)
  }

  /** Resizing a made layer leaves it with exactly the buffers
      make_convolutional_layer would have allocated for the new size, so
      the forward pass fits after any number of resizes. */
  lemma ResizeAgreesWithMake(s: Shape, f: Flags, w: nat, h: nat)
    requires WellFormed(s) && WellFormed(Resized(s, w, h))
    ensures ResizedAlloc(Allocation(s, f), Resized(s, w, h), f) == Allocation(Resized(s, w, h), f)
    ensures ForwardFits(ResizedAlloc(Allocation(s, f), Resized(s, w, h), f), Resized(s, w, h), f)
  {
    MadeLayerFitsForward(Resized(s, w, h), f);
  }

  /** Resizing keeps the weights, the biases and every per-filter buffer. */
  lemma ResizeKeepsParameters(a: Alloc, s: Shape, f: Flags)
    requires WellFormed(s)
    ensures var r := ResizedAlloc(a, s, f);
            r.weights == a.weights && r.weightUpdates == a.weightUpdates &&
            r.biases == a.biases && r.biasUpdates == a.biasUpdates &&
            r.binaryWeights == a.binaryWeights && r.scales == a.scales &&
            r.scaleUpdates == a.scaleUpdates && r.rollingMean == a.rollingMean &&
            r.rollingVariance == a.rollingVariance
  {
  }

  /** update_convolutional_layer as written enters the scales branch when
      `scales` is set, and that branch reads `n` scale updates. */
  predicate UpdateGuardAsWritten(a: Alloc)
  {
    a.scales.Some?
  }

  /** The update only reads buffers that exist. */
  predicate UpdateSafe(a: Alloc, s: Shape, guard: bool)
    requires s.groups >= 1
  {
    a.biases >= s.n && a.biasUpdates >= s.n &&
    a.weights >= NWeights(s) && a.weightUpdates >= NWeights(s) &&
    (guard ==> a.scales.Some? && a.scales.value >= s.n &&
               a.scaleUpdates.Some? && a.scaleUpdates.value >= s.n)
  }

  /** A binary layer without batch-normalize has scales but no scale
      updates, so the update as written reads through NULL. */
  lemma BinaryLayerUpdateAsWrittenUnsafe(s: Shape)
    requires WellFormed(s)
    ensures var a := Allocation(s, Flags(false, true, false));
            UpdateGuardAsWritten(a) && a.scaleUpdates == None &&
            !UpdateSafe(a, s, UpdateGuardAsWritten(a))
  {
  }

  /** The update's scales branch taken only when both `scales` and
      `scale_updates` are set. */
  predicate UpdateGuard(a: Alloc)
  {
    a.scales.Some? && a.scaleUpdates.Some?
  }

  /** With that guard the update of a made layer is always safe, and it
      trains the scales exactly when the layer is batch-normalized. */
  lemma UpdateGuardSafe(s: Shape, f: Flags)
    requires WellFormed(s)
    ensures UpdateSafe(Allocation(s, f), s, UpdateGuard(Allocation(s, f)))
    ensures UpdateGuard(Allocation(s, f)) <==> f.batchNormalize
  {
  }
}
