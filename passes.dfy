/** forward_convolutional_layer and backward_convolutional_layer on the
    CPU: the loops over samples and groups that hand each (sample, group)
    tile of the buffers to gemm, with im2col and col2im between them, and
    the steps around those loops (zeroing the output, xnor binarization,
    biases or batch normalization, the activation and its gradient). */
module Passes {
  import opened CInt
  import opened ConvGeometry
  import opened Slices
  import opened Blas
  import opened Patches
  import opened Bias
  import opened Binarize
  import opened Buffers
  import opened Tiling
  import opened Maybe

  /** The shapes whose passes are modelled: groups divide both channels
      and filters, and the kernel is at least 1x1. */
  predicate Covered(s: Shape)
  {
    WellFormed(s) && GroupsDivide(s) && s.size >= 1
  }

  /** The weights are `groups` tiles of one group's weights. */
  lemma WeightsAreGroupTiles(s: Shape)
    requires GroupsDivide(s)
    ensures NWeights(s) == 1 * (s.groups * GroupWeightLen(s))
  {
    var g, m, f := s.groups, GroupFilters(s), FilterLen(s);
    PatchRowsAreFilterLen(s);
    WeightsAreFilterBlocks(s);
    assert s.n == m * g;
    assert NWeights(s) == (m * g) * f;
  }

  /** The sizes every gemm call of the passes relies on. */
  lemma Sizes(s: Shape)
    requires Covered(s)
    ensures Fits(GroupWindow(s))
    ensures ColRows(GroupWindow(s)) == PatchRows(s) && ColCols(GroupWindow(s)) == Plane(s)
    ensures ImageLen(GroupWindow(s)) == GroupInputLen(s)
    ensures NWeights(s) == 1 * (s.groups * GroupWeightLen(s))
    ensures s.batch * Inputs(s) == s.batch * (s.groups * GroupInputLen(s))
    ensures s.batch * Outputs(s) == s.batch * (s.groups * GroupOutLen(s))
    ensures s.batch * s.n * Plane(s) == s.batch * Outputs(s)
    ensures Inputs(s) * s.batch == s.c * s.h * s.w * s.batch
  {
    PatchRowsAreFilterLen(s);
    WeightsAreGroupTiles(s);
    InputsAreGroupBlocks(s);
    OutputsAreGroupBlocks(s);
    InputsCommute(s);
    assert Outputs(s) == s.n * Plane(s);
    MulRegroup(s.batch, s.n, Plane(s));
  }

  /** Group `j`'s `m x k` weights (`l.weights + j*l.nweights/l.groups`). */
  function WeightTile(s: Shape, w: seq<real>, j: nat): (r: seq<real>)
    requires Covered(s) && j < s.groups && NWeights(s) <= |w|
    ensures |r| == GroupWeightLen(s)
  {
    WeightsAreGroupTiles(s);
    Tile(w, 0, j, 1, s.groups, GroupWeightLen(s))
  }

  /** Entry `q` of group `j`'s weights sits at the tile's start plus `q`. */
  lemma WeightTileAt(s: Shape, w: seq<real>, j: nat, q: nat)
    requires Covered(s) && j < s.groups && NWeights(s) <= |w| && q < GroupWeightLen(s)
    ensures Start(0, j, s.groups, GroupWeightLen(s)) + q < |w|
    ensures WeightTile(s, w, j)[q] == w[Start(0, j, s.groups, GroupWeightLen(s)) + q]
  {
    WeightsAreGroupTiles(s);
    assert WeightTile(s, w, j) == Tile(w, 0, j, 1, s.groups, GroupWeightLen(s));
  }

  /** Sample `i`'s group `j` of an input-shaped buffer: `c/groups` channels
      of `h x w`. */
  function InputTile(s: Shape, x: seq<real>, i: nat, j: nat): (r: seq<real>)
    requires Covered(s) && i < s.batch && j < s.groups && s.batch * Inputs(s) <= |x|
    ensures |r| == GroupInputLen(s)
  {
    Sizes(s);
    Tile(x, i, j, s.batch, s.groups, GroupInputLen(s))
  }

  /** Sample `i`'s group `j` of an output-shaped buffer: `m` filters of
      `out_h x out_w`. */
  function OutputTile(s: Shape, o: seq<real>, i: nat, j: nat): (r: seq<real>)
    requires Covered(s) && i < s.batch && j < s.groups && |o| == s.batch * Outputs(s)
    ensures |r| == GroupOutLen(s)
  {
    Sizes(s);
    Tile(o, i, j, s.batch, s.groups, GroupOutLen(s))
  }

  /** The offsets the loops compute are the tiles' starts. */
  lemma OffsetsAreTiles(s: Shape, i: nat, j: nat)
    requires Covered(s) && i < s.batch && j < s.groups
    ensures WeightOffset(s, j) == Start(0, j, s.groups, GroupWeightLen(s))
    ensures InputOffset(s, i, j) == Start(i, j, s.groups, GroupInputLen(s))
    ensures OutputOffset(s, i, j) == Start(i, j, s.groups, GroupOutLen(s))
    ensures WeightOffset(s, j) + GroupWeightLen(s) <= NWeights(s)
    ensures InputOffset(s, i, j) + GroupInputLen(s) <= s.batch * Inputs(s)
    ensures OutputOffset(s, i, j) + GroupOutLen(s) <= s.batch * Outputs(s)
  {
    WeightSliceInBounds(s, j);
    InputSliceInBounds(s, i, j);
    OutputOffsetIsBlock(s, i, j);
    OutputSliceInBounds(s, i, j);
  }

  // ---------------------------------------------------------------- forward

  /** The forward gemm of sample `i`, group `j`: the group's `m x k`
      weights times the `k x out_h*out_w` patch matrix of the sample's
      group input, added (`beta = 1`) to the output tile `o` held. */
  function GroupConv(s: Shape, w: seq<real>, x: seq<real>, o: seq<real>, i: nat, j: nat): (r: seq<real>)
    requires Covered(s) && i < s.batch && j < s.groups
    requires NWeights(s) <= |w| && s.batch * Inputs(s) <= |x| && |o| == s.batch * Outputs(s)
    ensures |r| == GroupOutLen(s)
  {
    Sizes(s);
    Gemm(false, false, GroupFilters(s), Plane(s), PatchRows(s), 1.0,
         WeightTile(s, w, j), Patch(InputTile(s, x, i, j), GroupWindow(s)),
         1.0, OutputTile(s, o, i, j))
  }

  /** The output after the batch x group loop of the forward pass. */
  function Convolved(s: Shape, w: seq<real>, x: seq<real>, o: seq<real>): (r: seq<real>)
    requires Covered(s)
    requires NWeights(s) <= |w| && s.batch * Inputs(s) <= |x| && |o| == s.batch * Outputs(s)
    ensures |r| == |o|
  {
    Sizes(s);
    seq(|o|, idx requires 0 <= idx < |o| =>
      var p := Locate(idx, s.batch, s.groups, GroupOutLen(s));
      GroupConv(s, w, x, o, p.row, p.tile)[p.at])
  }

  /** Every (sample, group) tile of the output is that pair's gemm. */
  lemma ConvolvedTile(s: Shape, w: seq<real>, x: seq<real>, o: seq<real>, i: nat, j: nat)
    requires Covered(s) && i < s.batch && j < s.groups
    requires NWeights(s) <= |w| && s.batch * Inputs(s) <= |x| && |o| == s.batch * Outputs(s)
    ensures OutputTile(s, Convolved(s, w, x, o), i, j) == GroupConv(s, w, x, o, i, j)
  {
    Sizes(s);
    var len := GroupOutLen(s);
    forall q | 0 <= q < len
      ensures OutputTile(s, Convolved(s, w, x, o), i, j)[q] == GroupConv(s, w, x, o, i, j)[q]
    {
      LocateTile(i, j, q, s.batch, s.groups, len);
    }
  }

  /** The gemm of sample `i`, group `j` on the buffers as they are, reading
      through the offsets the source computes. */
  method GroupGemm(s: Shape, weights: array<real>, input: array<real>, output: array<real>,
                   i: nat, j: nat) returns (prod: seq<real>)
    requires Covered(s) && i < s.batch && j < s.groups
    requires NWeights(s) <= weights.Length && s.batch * Inputs(s) <= input.Length
    requires output.Length == s.batch * Outputs(s)
    ensures prod == GroupConv(s, weights[..], input[..], output[..], i, j)
  {
    Sizes(s);
    OffsetsAreTiles(s, i, j);
    var m, k, plane := GroupFilters(s), PatchRows(s), Plane(s);
    var wOff, xOff, oOff := WeightOffset(s, j), InputOffset(s, i, j), OutputOffset(s, i, j);
    assert weights[wOff .. wOff + GroupWeightLen(s)] == WeightTile(s, weights[..], j);
    assert input[xOff .. xOff + GroupInputLen(s)] == InputTile(s, input[..], i, j);
    assert output[oOff .. oOff + GroupOutLen(s)] == OutputTile(s, output[..], i, j);
    var a := weights[wOff .. wOff + GroupWeightLen(s)];
    var b := Patch(input[xOff .. xOff + GroupInputLen(s)], GroupWindow(s));
    var c := output[oOff .. oOff + GroupOutLen(s)];
    prod := Gemm(false, false, m, plane, k, 1.0, a, b, 1.0, c);
  }

  /** One iteration of the forward group loop: the gemm of sample `i`,
      group `j` writes its output tile and nothing else. */
  method ConvolveGroup(s: Shape, weights: array<real>, input: array<real>, output: array<real>,
                       i: nat, j: nat, ghost o0: seq<real>)
    requires Covered(s) && i < s.batch && j < s.groups
    requires output != weights && output != input
    requires NWeights(s) <= weights.Length && s.batch * Inputs(s) <= input.Length
    requires |o0| == output.Length == s.batch * Outputs(s)
    requires output[..] == Progress(Convolved(s, weights[..], input[..], o0), o0,
                                    s.batch, s.groups, GroupOutLen(s), i, j)
    modifies output
    ensures output[..] == Progress(Convolved(s, weights[..], input[..], o0), o0,
                                   s.batch, s.groups, GroupOutLen(s), i, j + 1)
  {
    ghost var target := Convolved(s, weights[..], input[..], o0);
    ghost var len := GroupOutLen(s);
    Sizes(s);
    OffsetsAreTiles(s, i, j);
    var prod := GroupGemm(s, weights, input, output, i, j);
    assert prod == Tile(target, i, j, s.batch, s.groups, len) by {
      ProgressUnvisited(target, o0, s.batch, s.groups, len, i, j);
      ConvolvedTile(s, weights[..], input[..], o0, i, j);
    }
    ProgressStep(target, o0, s.batch, s.groups, len, i, j, output[..]);
    WriteTile(output, OutputOffset(s, i, j), prod);
  }

  /** The group loop of sample `i`. */
  method ConvolveSample(s: Shape, weights: array<real>, input: array<real>, output: array<real>,
                        i: nat, ghost o0: seq<real>)
    requires Covered(s) && i < s.batch
    requires output != weights && output != input
    requires NWeights(s) <= weights.Length && s.batch * Inputs(s) <= input.Length
    requires |o0| == output.Length == s.batch * Outputs(s)
    requires output[..] == Progress(Convolved(s, weights[..], input[..], o0), o0,
                                    s.batch, s.groups, GroupOutLen(s), i, 0)
    modifies output
    ensures output[..] == Progress(Convolved(s, weights[..], input[..], o0), o0,
                                   s.batch, s.groups, GroupOutLen(s), i + 1, 0)
  {
    var j := 0;
    while j < s.groups
      invariant j <= s.groups
      invariant output[..] == Progress(Convolved(s, weights[..], input[..], o0), o0,
                                       s.batch, s.groups, GroupOutLen(s), i, j)
    {
      ConvolveGroup(s, weights, input, output, i, j, o0);
      j := j + 1;
    }
    Sizes(s);
    ProgressNextRow(Convolved(s, weights[..], input[..], o0), o0, s.batch, s.groups, GroupOutLen(s), i);
  }

  /** The batch x group loop of forward_convolutional_layer: afterwards
      every (sample, group) tile of the output holds its gemm. */
  method ConvolveBatch(s: Shape, weights: array<real>, input: array<real>, output: array<real>)
    requires Covered(s)
    requires output != weights && output != input
    requires NWeights(s) <= weights.Length && s.batch * Inputs(s) <= input.Length
    requires output.Length == s.batch * Outputs(s)
    modifies output
    ensures output[..] == Convolved(s, weights[..], input[..], old(output[..]))
  {
    ghost var o0 := output[..];
    ghost var target := Convolved(s, weights[..], input[..], o0);
    Sizes(s);
    ProgressStart(target, o0, s.batch, s.groups, GroupOutLen(s));
    var i := 0;
    while i < s.batch
      invariant i <= s.batch
      invariant output[..] == Progress(target, o0, s.batch, s.groups, GroupOutLen(s), i, 0)
    {
      ConvolveSample(s, weights, input, output, i, o0);
      i := i + 1;
    }
    ProgressEnd(target, o0, s.batch, s.groups, GroupOutLen(s));
  }

  /** `f` applied to each of the first `count` elements. */
  function Mapped(f: real -> real, a: seq<real>, count: nat): (r: seq<real>)
    requires count <= |a|
    ensures |r| == |a|
  {
    seq(|a|, k requires 0 <= k < |a| => if k < count then f(a[k]) else a[k])
  }

  /** activate_array: each of the first `count` elements becomes its
      activation. */
  method Activate(x: array<real>, count: nat, act: real -> real)
    requires count <= x.Length
    modifies x
    ensures x[..] == Mapped(act, old(x[..]), count)
  {
    var i := 0;
    while i < count
      invariant i <= count
      invariant forall k :: 0 <= k < i ==> x[k] == act(old(x[k]))
      invariant forall k :: i <= k < x.Length ==> x[k] == old(x[k])
    {
      x[i] := act(x[i]);
      i := i + 1;
    }
  }

  /** forward_batchnorm_layer seen from the convolution: some map from the
      raw output to the normalized output of the same length. */
  type Normalizer = f: seq<real> -> seq<real> | forall x :: |f(x)| == |x| witness (x: seq<real>) => x

  /** The weights the forward gemm reads: with xnor the binarized copy
      that swap_binary puts in place of the weights. */
  function ForwardWeights(s: Shape, xnor: bool, w: seq<real>): (r: seq<real>)
    requires Covered(s) && |w| == NWeights(s)
    ensures |r| == NWeights(s)
  {
    if xnor then (WeightsAreFilterBlocks(s); BinarizeWeightsSpec(w, s.n, FilterLen(s))) else w
  }

  /** The input the forward gemm reads: with xnor the signs binarize_cpu
      writes into the binary input. */
  function ForwardInput(s: Shape, xnor: bool, x: seq<real>): (r: seq<real>)
    requires Covered(s) && s.batch * Inputs(s) <= |x|
    ensures s.batch * Inputs(s) <= |r|
  {
    if xnor then (Sizes(s); BinarizeSignSpec(x, s.c * s.h * s.w * s.batch)) else x
  }

  /** The layer's output after forward_convolutional_layer: the zeroed
      output convolved tile by tile, then normalized (batch-normalize) or
      shifted by the biases, then activated. */
  function ForwardOutput(s: Shape, xnor: bool, bn: bool, w: seq<real>, biases: seq<real>,
                         x: seq<real>, normalize: Normalizer, act: real -> real): (r: seq<real>)
    requires Covered(s) && |w| == NWeights(s) && |biases| == s.n && s.batch * Inputs(s) <= |x|
    ensures |r| == s.batch * Outputs(s)
  {
    Sizes(s);
    var conv := Convolved(s, ForwardWeights(s, xnor, w), ForwardInput(s, xnor, x),
                          Zeros(BatchOutputs(s)));
    var pre := if bn then normalize(conv) else PerFilterSpec(Shift, conv, biases, s.batch, s.n, Plane(s));
    Mapped(act, pre, s.batch * Outputs(s))
  }

  /** Output `p` of filter `f = j*m + r` of sample `b` lies at offset
      `r*plane + p` of tile `(b, j)`. */
  lemma FilterPosition(b: nat, j: nat, r: nat, p: nat, g: nat, m: nat, plane: nat)
    requires r < m && p < plane
    ensures LayoutIndex(b, j * m + r, p, g * m, plane) == Start(b, j, g, m * plane) + (r * plane + p)
    ensures r * plane + p < m * plane
  {
    var t := b * g + j;
    assert b * (g * m) + (j * m + r) == t * m + r by {
      MulRegroup(b, g, m);
    }
    assert (t * m + r) * plane + p == t * (m * plane) + (r * plane + p) by {
      MulRegroup(t, m, plane);
    }
    BlockIndex(r, m, p, plane);
  }

  /** Filter `f` is filter `f % m` of group `f / m`. */
  lemma FilterGroup(s: Shape, f: nat)
    requires Covered(s) && f < s.n
    ensures GroupFilters(s) > 0 && f / GroupFilters(s) < s.groups
    ensures f == f / GroupFilters(s) * GroupFilters(s) + f % GroupFilters(s)
    ensures s.n == s.groups * GroupFilters(s)
  {
    var m := GroupFilters(s);
    assert s.n == s.groups * m;
    if m > 0 && f / m >= s.groups {
      MulLe(s.groups, f / m, m);
    }
  }

  /** The group of filter `f`. */
  function GroupOf(s: Shape, f: nat): (j: nat)
    requires Covered(s) && f < s.n
    ensures j < s.groups
  {
    FilterGroup(s, f);
    f / GroupFilters(s)
  }

  /** The row of filter `f` in its group's weights. */
  function RowOf(s: Shape, f: nat): (r: nat)
    requires Covered(s) && f < s.n
    ensures r < GroupFilters(s) && f == GroupOf(s, f) * GroupFilters(s) + r
  {
    FilterGroup(s, f);
    f % GroupFilters(s)
  }

  /** Output `p` of filter `f` of sample `b` after the group loop over a
      zeroed output: the dot product of the filter's row of its group's
      weights with column `p` of the sample's group patch matrix. */
  lemma ConvolvedAt(s: Shape, w: seq<real>, x: seq<real>, b: nat, f: nat, p: nat)
    requires Covered(s) && |w| == NWeights(s) && s.batch * Inputs(s) <= |x|
    requires b < s.batch && f < s.n && p < Plane(s)
    ensures LayoutIndex(b, f, p, s.n, Plane(s)) < s.batch * Outputs(s)
    ensures var j := GroupOf(s, f);
            (Sizes(s);
             Convolved(s, w, x, Zeros(BatchOutputs(s)))[LayoutIndex(b, f, p, s.n, Plane(s))]
             == RowDot(WeightTile(s, w, j), false, Patch(InputTile(s, x, b, j), GroupWindow(s)), false,
                       GroupFilters(s), Plane(s), PatchRows(s), RowOf(s, f), p, PatchRows(s)))
  {
    Sizes(s);
    FilterGroup(s, f);
    LayoutIndexInRange(b, f, p, s.batch, s.n, Plane(s));
    var m, plane := GroupFilters(s), Plane(s);
    var zeros := Zeros(BatchOutputs(s));
    var conv := Convolved(s, w, x, zeros);
    var j, r := GroupOf(s, f), RowOf(s, f);
    var q := r * plane + p;
    assert LayoutIndex(b, f, p, s.n, plane) == Start(b, j, s.groups, GroupOutLen(s)) + q && q < GroupOutLen(s) by {
      FilterPosition(b, j, r, p, s.groups, m, plane);
    }
    assert conv[LayoutIndex(b, f, p, s.n, plane)] == OutputTile(s, conv, b, j)[q];
    ConvolvedTile(s, w, x, zeros, b, j);
    GroupConvOverZero(s, w, x, b, j, r, p);
  }

  /** Entry `(r, p)` of a group's gemm over a zeroed output tile is the dot
      product of row `r` of the group's weights with column `p` of its
      patch matrix. */
  lemma GroupConvOverZero(s: Shape, w: seq<real>, x: seq<real>, b: nat, j: nat, r: nat, p: nat)
    requires Covered(s) && |w| == NWeights(s) && s.batch * Inputs(s) <= |x|
    requires b < s.batch && j < s.groups && r < GroupFilters(s) && p < Plane(s)
    ensures (Sizes(s); r * Plane(s) + p < GroupOutLen(s))
    ensures (Sizes(s);
             GroupConv(s, w, x, Zeros(BatchOutputs(s)), b, j)[r * Plane(s) + p]
             == RowDot(WeightTile(s, w, j), false, Patch(InputTile(s, x, b, j), GroupWindow(s)), false,
                       GroupFilters(s), Plane(s), PatchRows(s), r, p, PatchRows(s)))
  {
    Sizes(s);
    var m, plane := GroupFilters(s), Plane(s);
    var C := OutputTile(s, Zeros(BatchOutputs(s)), b, j);
    BlockIndex(r, m, p, plane);
    assert C[r * plane + p] == 0.0;
    GemmOverZeroAt(false, false, m, plane, PatchRows(s), WeightTile(s, w, j),
                   Patch(InputTile(s, x, b, j), GroupWindow(s)), C, r, p,
                   GroupConv(s, w, x, Zeros(BatchOutputs(s)), b, j));
  }

  /** Without batch-normalize every output is the activation of its
      filter's bias plus the dot product of the filter's row of its
      group's weights with the window's column of the patch matrix of the
      sample's group input. */
  lemma ForwardAt(s: Shape, xnor: bool, w: seq<real>, biases: seq<real>, x: seq<real>,
                  normalize: Normalizer, act: real -> real, b: nat, f: nat, p: nat)
    requires Covered(s) && |w| == NWeights(s) && |biases| == s.n && s.batch * Inputs(s) <= |x|
    requires b < s.batch && f < s.n && p < Plane(s)
    ensures LayoutIndex(b, f, p, s.n, Plane(s)) < s.batch * Outputs(s)
    ensures var j := GroupOf(s, f);
            var W, X := ForwardWeights(s, xnor, w), ForwardInput(s, xnor, x);
            (Sizes(s);
             ForwardOutput(s, xnor, false, w, biases, x, normalize, act)[LayoutIndex(b, f, p, s.n, Plane(s))]
             == act(RowDot(WeightTile(s, W, j), false, Patch(InputTile(s, X, b, j), GroupWindow(s)), false,
                           GroupFilters(s), Plane(s), PatchRows(s), RowOf(s, f), p, PatchRows(s))
                    + biases[f]))
  {
    Sizes(s);
    var W, X := ForwardWeights(s, xnor, w), ForwardInput(s, xnor, x);
    var conv := Convolved(s, W, X, Zeros(BatchOutputs(s)));
    var idx := LayoutIndex(b, f, p, s.n, Plane(s));
    ConvolvedAt(s, W, X, b, f, p);
    PerFilterAt(Shift, conv, biases, s.batch, s.n, Plane(s), b, f, p);
    var pre := PerFilterSpec(Shift, conv, biases, s.batch, s.n, Plane(s));
    assert ForwardOutput(s, xnor, false, w, biases, x, normalize, act) == Mapped(act, pre, s.batch * Outputs(s));
    assert pre[idx] == conv[idx] + biases[f];
  }

  /** forward_convolutional_layer: zero the output; with xnor binarize the
      weights and the input and read those instead; run the batch x group
      loop; normalize or add the biases; activate. The layer is passed by
      value, so the closing swap_binary only restores the copy's references.
      The patch matrices come from the corrected 1x1 shortcut `Patch`;
      SourcePatchAgrees says on which layers that is the source's. */
  method ForwardPass(s: Shape, xnor: bool, bn: bool,
                     weights: array<real>, binaryWeights: array?<real>, biases: array<real>,
                     input: array<real>, binaryInput: array?<real>, output: array<real>,
                     normalize: Normalizer, act: real -> real)
    requires Covered(s)
    requires weights.Length == NWeights(s) && biases.Length == s.n
    requires output.Length == BatchOutputs(s) && s.batch * Inputs(s) <= input.Length
    requires xnor ==> binaryWeights != null && binaryWeights.Length == NWeights(s) &&
                      binaryInput != null && binaryInput.Length == Inputs(s) * s.batch
    requires output != weights && output != biases && output != input
    requires output != binaryWeights && output != binaryInput
    requires binaryWeights != null ==> binaryWeights != binaryInput
    requires binaryWeights != weights && binaryWeights != biases && binaryWeights != input
    requires binaryInput != weights && binaryInput != biases && binaryInput != input
    modifies output, if xnor then {binaryWeights, binaryInput} else {}
    ensures output[..] == ForwardOutput(s, xnor, bn, weights[..], biases[..], input[..], normalize, act)
    ensures xnor ==> binaryWeights[..] == ForwardWeights(s, xnor, weights[..]) &&
                     binaryInput[..] == ForwardInput(s, xnor, input[..])
  {
    Sizes(s);
    ghost var w0, b0, x0 := weights[..], biases[..], input[..];
    Fill(BatchOutputs(s), 0.0, output);
    assert output[..] == Zeros(BatchOutputs(s));
    var w, x := weights, input;
    if xnor {
      BinarizeBoth(s, weights, input, binaryWeights, binaryInput);
      w, x := binaryWeights, binaryInput;
    }
    assert w[..] == ForwardWeights(s, xnor, w0) && x[..] == ForwardInput(s, xnor, x0);
    assert biases[..] == b0;
    ConvolveBatch(s, w, x, output);
    assert biases[..] == b0;
    ghost var bw, bi := if xnor then binaryWeights[..] else [], if xnor then binaryInput[..] else [];
    Finish(s, bn, biases, output, normalize, act);
    assert weights[..] == w0 && biases[..] == b0 && input[..] == x0;
    assert xnor ==> binaryWeights[..] == bw && binaryInput[..] == bi;
  }

  /** The xnor step of the forward pass: binarize_weights into the binary
      weights and binarize_cpu of the `c*h*w*batch` inputs into the binary
      input. */
  method BinarizeBoth(s: Shape, weights: array<real>, input: array<real>,
                      binaryWeights: array<real>, binaryInput: array<real>)
    requires Covered(s) && weights.Length == NWeights(s) && s.batch * Inputs(s) <= input.Length
    requires binaryWeights.Length == NWeights(s) && binaryInput.Length == Inputs(s) * s.batch
    requires binaryWeights != binaryInput && binaryWeights != weights && binaryWeights != input
    requires binaryInput != weights && binaryInput != input
    modifies binaryWeights, binaryInput
    ensures binaryWeights[..] == ForwardWeights(s, true, weights[..])
    ensures binaryInput[..] == ForwardInput(s, true, input[..])
  {
    Sizes(s);
    WeightsAreFilterBlocks(s);
    BinarizeWeights(weights, s.n, s.c / s.groups * s.size * s.size, binaryWeights);
    assert binaryWeights[..] == binaryWeights[..NWeights(s)];
    ghost var bw := binaryWeights[..];
    BinarizeCpu(input, s.c * s.h * s.w * s.batch, binaryInput);
    assert binaryInput[..] == binaryInput[..s.c * s.h * s.w * s.batch];
    assert binaryWeights[..] == bw;
  }

  /** The steps of the forward pass after the group loop: normalize the
      output (batch-normalize) or add the biases, then activate it. */
  method Finish(s: Shape, bn: bool, biases: array<real>, output: array<real>,
                normalize: Normalizer, act: real -> real)
    requires Covered(s) && biases.Length == s.n && output.Length == BatchOutputs(s) && output != biases
    modifies output
    ensures (Sizes(s);
             output[..] == Mapped(act, if bn then normalize(old(output[..]))
                                       else PerFilterSpec(Shift, old(output[..]), biases[..], s.batch, s.n, Plane(s)),
                                  s.batch * Outputs(s)))
  {
    Sizes(s);
    if bn {
      var normalized := normalize(output[..]);
      ghost var before := output[..];
      WriteTile(output, 0, normalized);
      assert Overwrite(before, 0, normalized) == normalized;
    } else {
      AddBias(output, biases, s.batch, s.n, Plane(s));
    }
    Activate(output, BatchOutputs(s), act);
  }

  // --------------------------------------------------------------- backward

  /** The delta after gradient_array: each of the first `count` elements
      times the activation's derivative at the matching output. */
  function Chained(grad: real -> real, o: seq<real>, d: seq<real>, count: nat): (r: seq<real>)
    requires count <= |o| && count <= |d|
    ensures |r| == |d|
  {
    seq(|d|, k requires 0 <= k < |d| => if k < count then d[k] * grad(o[k]) else d[k])
  }

  /** gradient_array: `delta[k] *= gradient(x[k])` for the first `count`
      elements. */
  method Gradient(x: array<real>, count: nat, grad: real -> real, delta: array<real>)
    requires x != delta && count <= x.Length && count <= delta.Length
    modifies delta
    ensures delta[..] == Chained(grad, x[..], old(delta[..]), count)
  {
    ghost var d0 := delta[..];
    var i := 0;
    while i < count
      invariant i <= count
      invariant forall k :: 0 <= k < i ==> delta[k] == d0[k] * grad(x[k])
      invariant forall k :: i <= k < delta.Length ==> delta[k] == d0[k]
    {
      delta[i] := delta[i] * grad(x[i]);
      i := i + 1;
    }
    assert forall k :: 0 <= k < delta.Length ==> delta[..][k] == Chained(grad, x[..], d0, count)[k];
  }

  /** Group `j`'s weight updates after the first `upto` samples: each
      sample adds (`beta = 1`) its delta tile times the transposed patch
      matrix of its group input. */
  function WeightGradTile(s: Shape, d: seq<real>, x: seq<real>, wu: seq<real>, j: nat, upto: nat): (r: seq<real>)
    requires Covered(s) && j < s.groups && upto <= s.batch
    requires |d| == s.batch * Outputs(s) && s.batch * Inputs(s) <= |x| && NWeights(s) <= |wu|
    ensures |r| == GroupWeightLen(s)
    decreases upto
  {
    if upto == 0 then WeightTile(s, wu, j)
    else
      Sizes(s);
      Gemm(false, true, GroupFilters(s), PatchRows(s), Plane(s), 1.0,
           OutputTile(s, d, upto - 1, j), Patch(InputTile(s, x, upto - 1, j), GroupWindow(s)),
           1.0, WeightGradTile(s, d, x, wu, j, upto - 1))
  }

  /** The weight updates after the first `upto` samples of the backward
      loop. */
  function WeightGrad(s: Shape, d: seq<real>, x: seq<real>, wu: seq<real>, upto: nat): (r: seq<real>)
    requires Covered(s) && upto <= s.batch
    requires |d| == s.batch * Outputs(s) && s.batch * Inputs(s) <= |x| && |wu| == NWeights(s)
    ensures |r| == |wu| == 1 * (s.groups * GroupWeightLen(s))
  {
    Sizes(s);
    seq(|wu|, idx requires 0 <= idx < |wu| =>
      var p := Locate(idx, 1, s.groups, GroupWeightLen(s));
      WeightGradTile(s, d, x, wu, p.tile, upto)[p.at])
  }

  /** Group `j`'s tile of the weight updates is its accumulated gradient. */
  lemma WeightGradTileOf(s: Shape, d: seq<real>, x: seq<real>, wu: seq<real>, upto: nat, j: nat)
    requires Covered(s) && upto <= s.batch && j < s.groups
    requires |d| == s.batch * Outputs(s) && s.batch * Inputs(s) <= |x| && |wu| == NWeights(s)
    ensures WeightTile(s, WeightGrad(s, d, x, wu, upto), j) == WeightGradTile(s, d, x, wu, j, upto)
  {
    Sizes(s);
    var len := GroupWeightLen(s);
    var grad := WeightGrad(s, d, x, wu, upto);
    var tile := WeightGradTile(s, d, x, wu, j, upto);
    forall q | 0 <= q < len
      ensures WeightTile(s, grad, j)[q] == tile[q]
    {
      LocateTile(0, j, q, 1, s.groups, len);
      var idx := Start(0, j, s.groups, len) + q;
      assert grad[idx] == tile[q];
      WeightTileAt(s, grad, j, q);
    }
  }

  /** Before any sample the weight updates are unchanged. */
  lemma WeightGradStart(s: Shape, d: seq<real>, x: seq<real>, wu: seq<real>)
    requires Covered(s)
    requires |d| == s.batch * Outputs(s) && s.batch * Inputs(s) <= |x| && |wu| == NWeights(s)
    ensures WeightGrad(s, d, x, wu, 0) == wu
  {
    Sizes(s);
    var len := GroupWeightLen(s);
    forall idx | 0 <= idx < |wu|
      ensures WeightGrad(s, d, x, wu, 0)[idx] == wu[idx]
    {
      var p := Locate(idx, 1, s.groups, len);
      assert WeightTile(s, wu, p.tile)[p.at] == wu[idx];
    }
  }

  /** Sample `i`'s own contribution to group `j`'s weight gradient: its
      delta tile times the transposed patch matrix of its group input. */
  function SampleWeightGrad(s: Shape, d: seq<real>, x: seq<real>, i: nat, j: nat): (r: seq<real>)
    requires Covered(s) && i < s.batch && j < s.groups
    requires |d| == s.batch * Outputs(s) && s.batch * Inputs(s) <= |x|
    ensures |r| == GroupWeightLen(s)
  {
    Sizes(s);
    Gemm(false, true, GroupFilters(s), PatchRows(s), Plane(s), 1.0,
         OutputTile(s, d, i, j), Patch(InputTile(s, x, i, j), GroupWindow(s)),
         0.0, Zeros(GroupWeightLen(s)))
  }

  /** Because the weight gemm runs with `beta = 1`, every sample adds its
      own contribution to what the earlier samples left: entry `q` of
      group `j`'s weight updates after `upto + 1` samples is the entry
      after `upto` samples plus sample `upto`'s product. */
  lemma WeightGradAccumulates(s: Shape, d: seq<real>, x: seq<real>, wu: seq<real>,
                              upto: nat, j: nat, q: nat)
    requires Covered(s) && upto < s.batch && j < s.groups && q < GroupWeightLen(s)
    requires |d| == s.batch * Outputs(s) && s.batch * Inputs(s) <= |x| && |wu| == NWeights(s)
    ensures WeightTile(s, WeightGrad(s, d, x, wu, upto + 1), j)[q]
            == WeightTile(s, WeightGrad(s, d, x, wu, upto), j)[q] + SampleWeightGrad(s, d, x, upto, j)[q]
  {
    Sizes(s);
    WeightGradTileOf(s, d, x, wu, upto + 1, j);
    WeightGradTileOf(s, d, x, wu, upto, j);
    var m, k, plane := GroupFilters(s), PatchRows(s), Plane(s);
    var A, B := OutputTile(s, d, upto, j), Patch(InputTile(s, x, upto, j), GroupWindow(s));
    var before := WeightGradTile(s, d, x, wu, j, upto);
    GemmBetaOneAccumulates(false, true, m, k, plane, 1.0, A, B, before);
    GemmBetaZeroOverwrites(false, true, m, k, plane, 1.0, A, B, before, Zeros(GroupWeightLen(s)));
  }

  /** The input gradient of sample `i`, group `j`: the transposed group
      weights times the delta tile (`beta = 0`, so the workspace's old
      contents do not matter), scattered back by col2im and added to the
      gradient `xd` already held. */
  function GroupInputGrad(s: Shape, w: seq<real>, d: seq<real>, xd: seq<real>, i: nat, j: nat): (r: seq<real>)
    requires Covered(s) && i < s.batch && j < s.groups
    requires |w| == NWeights(s) && |d| == s.batch * Outputs(s) && s.batch * Inputs(s) <= |xd|
    ensures |r| == GroupInputLen(s)
  {
    Sizes(s);
    InputGrad(GroupInputProduct(s, w, d, i, j), InputTile(s, xd, i, j), GroupWindow(s))
  }

  /** The `k x out_h*out_w` product of sample `i`, group `j` that the
      backward pass scatters into the network's delta: the transposed
      group weights times the delta tile. */
  function GroupInputProduct(s: Shape, w: seq<real>, d: seq<real>, i: nat, j: nat): (r: seq<real>)
    requires Covered(s) && i < s.batch && j < s.groups
    requires |w| == NWeights(s) && |d| == s.batch * Outputs(s)
    ensures |r| == PatchRows(s) * Plane(s)
  {
    Sizes(s);
    Gemm(true, false, PatchRows(s), Plane(s), GroupFilters(s), 1.0,
         WeightTile(s, w, j), OutputTile(s, d, i, j), 0.0, Zeros(PatchRows(s) * Plane(s)))
  }

  /** The network's delta after the backward loop. */
  function InputGradient(s: Shape, w: seq<real>, d: seq<real>, xd: seq<real>): (r: seq<real>)
    requires Covered(s)
    requires |w| == NWeights(s) && |d| == s.batch * Outputs(s) && s.batch * Inputs(s) <= |xd|
    ensures |r| == |xd| && s.batch * (s.groups * GroupInputLen(s)) <= |r|
  {
    Sizes(s);
    seq(|xd|, idx requires 0 <= idx < |xd| =>
      if idx < s.batch * Inputs(s) then
        var p := Locate(idx, s.batch, s.groups, GroupInputLen(s));
        GroupInputGrad(s, w, d, xd, p.row, p.tile)[p.at]
      else xd[idx])
  }

  /** Every (sample, group) tile of the network's delta receives col2im of
      that pair's product, added to what it held (for a 1x1 kernel too,
      unlike the source; see SourceInputGradAgrees). */
  lemma InputGradientTile(s: Shape, w: seq<real>, d: seq<real>, xd: seq<real>, i: nat, j: nat)
    requires Covered(s) && i < s.batch && j < s.groups
    requires |w| == NWeights(s) && |d| == s.batch * Outputs(s) && s.batch * Inputs(s) <= |xd|
    ensures InputTile(s, InputGradient(s, w, d, xd), i, j) == GroupInputGrad(s, w, d, xd, i, j)
  {
    Sizes(s);
    var len := GroupInputLen(s);
    forall q | 0 <= q < len
      ensures InputTile(s, InputGradient(s, w, d, xd), i, j)[q] == GroupInputGrad(s, w, d, xd, i, j)[q]
    {
      LocateTile(i, j, q, s.batch, s.groups, len);
    }
  }

  /** The weight-gradient gemm of sample `i`, group `j`
      (`gemm(0,1,m,n,k,1,a,k,b,k,1,c,n)`): when group `j`'s weight updates
      hold the gradient of the first `i` samples, it yields the gradient
      of the first `i + 1`. */
  method WeightGemm(s: Shape, delta: array<real>, input: array<real>, weightUpdates: array<real>,
                    i: nat, j: nat, ghost wu0: seq<real>) returns (prod: seq<real>)
    requires Covered(s) && i < s.batch && j < s.groups
    requires delta.Length == s.batch * Outputs(s) && s.batch * Inputs(s) <= input.Length
    requires |wu0| == weightUpdates.Length == NWeights(s)
    requires WeightTile(s, weightUpdates[..], j) == WeightGradTile(s, delta[..], input[..], wu0, j, i)
    ensures prod == WeightGradTile(s, delta[..], input[..], wu0, j, i + 1)
  {
    Sizes(s);
    OffsetsAreTiles(s, i, j);
    var m, k, plane := GroupFilters(s), PatchRows(s), Plane(s);
    var wOff, xOff, oOff := WeightOffset(s, j), InputOffset(s, i, j), OutputOffset(s, i, j);
    assert weightUpdates[wOff .. wOff + GroupWeightLen(s)] == WeightTile(s, weightUpdates[..], j);
    assert input[xOff .. xOff + GroupInputLen(s)] == InputTile(s, input[..], i, j);
    assert delta[oOff .. oOff + GroupOutLen(s)] == OutputTile(s, delta[..], i, j);
    var a := delta[oOff .. oOff + GroupOutLen(s)];
    var b := Patch(input[xOff .. xOff + GroupInputLen(s)], GroupWindow(s));
    var c := weightUpdates[wOff .. wOff + GroupWeightLen(s)];
    prod := Gemm(false, true, m, k, plane, 1.0, a, b, 1.0, c);
  }

  /** The first half of one iteration of the backward group loop: sample
      `i` adds its share to group `j`'s weight updates. */
  method AccumulateWeights(s: Shape, delta: array<real>, input: array<real>, weightUpdates: array<real>,
                           i: nat, j: nat, ghost wu0: seq<real>, ghost target: seq<real>, ghost init: seq<real>)
    requires Covered(s) && i < s.batch && j < s.groups
    requires weightUpdates != delta && weightUpdates != input
    requires delta.Length == s.batch * Outputs(s) && s.batch * Inputs(s) <= input.Length
    requires |wu0| == weightUpdates.Length == NWeights(s)
    requires target == WeightGrad(s, delta[..], input[..], wu0, i + 1)
    requires init == WeightGrad(s, delta[..], input[..], wu0, i)
    requires weightUpdates[..] == Progress(target, init, 1, s.groups, GroupWeightLen(s), 0, j)
    modifies weightUpdates
    ensures |init| == 1 * (s.groups * GroupWeightLen(s))
    ensures weightUpdates[..] == Progress(target, init, 1, s.groups, GroupWeightLen(s), 0, j + 1)
  {
    ghost var len := GroupWeightLen(s);
    Sizes(s);
    assert WeightTile(s, weightUpdates[..], j) == WeightGradTile(s, delta[..], input[..], wu0, j, i) by {
      ProgressUnvisited(target, init, 1, s.groups, len, 0, j);
      WeightGradTileOf(s, delta[..], input[..], wu0, i, j);
    }
    OffsetsAreTiles(s, i, j);
    var prod := WeightGemm(s, delta, input, weightUpdates, i, j, wu0);
    assert prod == Tile(target, 0, j, 1, s.groups, len) by {
      WeightGradTileOf(s, delta[..], input[..], wu0, i + 1, j);
    }
    ProgressStep(target, init, 1, s.groups, len, 0, j, weightUpdates[..]);
    WriteTile(weightUpdates, WeightOffset(s, j), prod);
  }

  /** The input-gradient gemm and col2im of sample `i`, group `j` on the
      buffers as they are. */
  method InputGemm(s: Shape, weights: array<real>, delta: array<real>, netDelta: array<real>,
                   i: nat, j: nat) returns (grad: seq<real>)
    requires Covered(s) && i < s.batch && j < s.groups
    requires weights.Length == NWeights(s) && delta.Length == s.batch * Outputs(s)
    requires s.batch * Inputs(s) <= netDelta.Length
    ensures grad == GroupInputGrad(s, weights[..], delta[..], netDelta[..], i, j)
  {
    Sizes(s);
    OffsetsAreTiles(s, i, j);
    var m, k, plane := GroupFilters(s), PatchRows(s), Plane(s);
    var wOff, xOff, oOff := WeightOffset(s, j), InputOffset(s, i, j), OutputOffset(s, i, j);
    assert weights[wOff .. wOff + GroupWeightLen(s)] == WeightTile(s, weights[..], j);
    assert netDelta[xOff .. xOff + GroupInputLen(s)] == InputTile(s, netDelta[..], i, j);
    assert delta[oOff .. oOff + GroupOutLen(s)] == OutputTile(s, delta[..], i, j);
    var a := weights[wOff .. wOff + GroupWeightLen(s)];
    var b := delta[oOff .. oOff + GroupOutLen(s)];
    var prod := Gemm(true, false, k, plane, m, 1.0, a, b, 0.0, Zeros(k * plane));
    grad := InputGrad(prod, netDelta[xOff .. xOff + GroupInputLen(s)], GroupWindow(s));
  }

  /** The second half of one iteration of the backward group loop: the
      input gradient of sample `i`, group `j` lands in its tile of the
      network's delta. */
  method AccumulateInput(s: Shape, weights: array<real>, delta: array<real>, netDelta: array<real>,
                         i: nat, j: nat, ghost xd0: seq<real>, ghost target: seq<real>)
    requires Covered(s) && i < s.batch && j < s.groups
    requires netDelta != weights && netDelta != delta
    requires weights.Length == NWeights(s) && delta.Length == s.batch * Outputs(s)
    requires |xd0| == netDelta.Length && s.batch * Inputs(s) <= netDelta.Length
    requires target == InputGradient(s, weights[..], delta[..], xd0)
    requires netDelta[..] == Progress(target, xd0, s.batch, s.groups, GroupInputLen(s), i, j)
    modifies netDelta
    ensures |target| == |xd0| && s.batch * (s.groups * GroupInputLen(s)) <= |xd0|
    ensures netDelta[..] == Progress(target, xd0, s.batch, s.groups, GroupInputLen(s), i, j + 1)
  {
    ghost var len := GroupInputLen(s);
    Sizes(s);
    var grad := InputGemm(s, weights, delta, netDelta, i, j);
    assert grad == GroupInputGrad(s, weights[..], delta[..], xd0, i, j) by {
      ProgressUnvisited(target, xd0, s.batch, s.groups, len, i, j);
    }
    OffsetsAreTiles(s, i, j);
    assert grad == Tile(target, i, j, s.batch, s.groups, len) by {
      InputGradientTile(s, weights[..], delta[..], xd0, i, j);
    }
    ProgressStep(target, xd0, s.batch, s.groups, len, i, j, netDelta[..]);
    WriteTile(netDelta, InputOffset(s, i, j), grad);
  }

  /** The group loop of sample `i` in backward_convolutional_layer. */
  method BackwardSample(s: Shape, weights: array<real>, delta: array<real>, input: array<real>,
                        weightUpdates: array<real>, netDelta: array?<real>, i: nat,
                        ghost wu0: seq<real>, ghost xd0: seq<real>)
    requires Covered(s) && i < s.batch
    requires weights.Length == NWeights(s) && delta.Length == s.batch * Outputs(s)
    requires s.batch * Inputs(s) <= input.Length
    requires |wu0| == weightUpdates.Length == NWeights(s)
    requires weightUpdates != weights && weightUpdates != delta && weightUpdates != input
    requires netDelta != null ==> |xd0| == netDelta.Length && s.batch * Inputs(s) <= netDelta.Length
    requires netDelta != weights && netDelta != delta && netDelta != input && netDelta != weightUpdates
    requires weightUpdates[..] == WeightGrad(s, delta[..], input[..], wu0, i)
    requires netDelta != null ==>
               netDelta[..] == Progress(InputGradient(s, weights[..], delta[..], xd0), xd0,
                                        s.batch, s.groups, GroupInputLen(s), i, 0)
    modifies weightUpdates, netDelta
    ensures weightUpdates[..] == WeightGrad(s, delta[..], input[..], wu0, i + 1)
    ensures netDelta != null ==>
              netDelta[..] == Progress(InputGradient(s, weights[..], delta[..], xd0), xd0,
                                       s.batch, s.groups, GroupInputLen(s), i + 1, 0)
  {
    ghost var w, d, x := weights[..], delta[..], input[..];
    ghost var target := WeightGrad(s, d, x, wu0, i + 1);
    ghost var init := WeightGrad(s, d, x, wu0, i);
    ghost var ig := if netDelta != null then InputGradient(s, w, d, xd0) else xd0;
    ghost var len := GroupWeightLen(s);
    ProgressStart(target, init, 1, s.groups, len);
    var j := 0;
    while j < s.groups
      invariant j <= s.groups
      invariant weights[..] == w && delta[..] == d && input[..] == x
      invariant weightUpdates[..] == Progress(target, init, 1, s.groups, len, 0, j)
      invariant netDelta != null ==>
                  netDelta[..] == Progress(ig, xd0, s.batch, s.groups, GroupInputLen(s), i, j)
    {
      AccumulateWeights(s, delta, input, weightUpdates, i, j, wu0, target, init);
      if netDelta != null {
        AccumulateInput(s, weights, delta, netDelta, i, j, xd0, ig);
      }
      assert weights[..] == w && delta[..] == d && input[..] == x;
      j := j + 1;
    }
    ProgressNextRow(target, init, 1, s.groups, len, 0);
    ProgressEnd(target, init, 1, s.groups, len);
    if netDelta != null {
      Sizes(s);
      ProgressNextRow(ig, xd0, s.batch, s.groups, GroupInputLen(s), i);
    }
  }

  /** The batch x group loop of backward_convolutional_layer: afterwards
      the weight updates hold the whole batch's gradient and, when the
      network has a delta, every tile of it has received its input
      gradient. */
  method BackwardBatch(s: Shape, weights: array<real>, delta: array<real>, input: array<real>,
                       weightUpdates: array<real>, netDelta: array?<real>)
    requires Covered(s)
    requires weights.Length == NWeights(s) && delta.Length == s.batch * Outputs(s)
    requires s.batch * Inputs(s) <= input.Length && weightUpdates.Length == NWeights(s)
    requires weightUpdates != weights && weightUpdates != delta && weightUpdates != input
    requires netDelta != null ==> s.batch * Inputs(s) <= netDelta.Length
    requires netDelta != weights && netDelta != delta && netDelta != input && netDelta != weightUpdates
    modifies weightUpdates, netDelta
    ensures weightUpdates[..] == WeightGrad(s, delta[..], input[..], old(weightUpdates[..]), s.batch)
    ensures netDelta != null ==>
              netDelta[..] == InputGradient(s, weights[..], delta[..], old(netDelta[..]))
  {
    ghost var w, d, x := weights[..], delta[..], input[..];
    ghost var wu0 := weightUpdates[..];
    ghost var xd0 := if netDelta != null then netDelta[..] else [];
    WeightGradStart(s, d, x, wu0);
    Sizes(s);
    if netDelta != null {
      ProgressStart(InputGradient(s, w, d, xd0), xd0, s.batch, s.groups, GroupInputLen(s));
    }
    var i := 0;
    while i < s.batch
      invariant i <= s.batch
      invariant weights[..] == w && delta[..] == d && input[..] == x
      invariant weightUpdates[..] == WeightGrad(s, d, x, wu0, i)
      invariant netDelta != null ==>
                  netDelta[..] == Progress(InputGradient(s, w, d, xd0), xd0,
                                           s.batch, s.groups, GroupInputLen(s), i, 0)
    {
      BackwardSample(s, weights, delta, input, weightUpdates, netDelta, i, wu0, xd0);
      assert weights[..] == w && delta[..] == d && input[..] == x;
      i := i + 1;
      assert weightUpdates[..] == WeightGrad(s, d, x, wu0, i);
    }
    if netDelta != null {
      ProgressEnd(InputGradient(s, w, d, xd0), xd0, s.batch, s.groups, GroupInputLen(s));
    }
  }

  /** The delta after gradient_array and, with batch-normalize, after
      backward_batchnorm_layer. */
  function BackwardDelta(s: Shape, bn: bool, o: seq<real>, d: seq<real>,
                         grad: real -> real, normalizeBack: Normalizer): (r: seq<real>)
    requires WellFormed(s) && |o| == |d| == BatchOutputs(s)
    ensures |r| == |d|
  {
    var chained := Chained(grad, o, d, BatchOutputs(s));
    if bn then normalizeBack(chained) else chained
  }

  /** backward_convolutional_layer: chain the activation's gradient into
      the delta; normalize it (batch-normalize) or accumulate the bias
      gradient; then the batch x group loop accumulates the weight
      gradient and, when the network has a delta, the input gradient.
      Both use the corrected 1x1 shortcuts (`Patch`, and `InputGrad`, which
      accumulates); SourcePatchAgrees and SourceInputGradAgrees say on
      which layers that is the source's. */
  method BackwardPass(s: Shape, bn: bool, weights: array<real>, weightUpdates: array<real>,
                      biasUpdates: array<real>, output: array<real>, delta: array<real>,
                      input: array<real>, netDelta: array?<real>,
                      grad: real -> real, normalizeBack: Normalizer)
    requires Covered(s)
    requires weights.Length == weightUpdates.Length == NWeights(s) && biasUpdates.Length == s.n
    requires output.Length == delta.Length == BatchOutputs(s) && s.batch * Inputs(s) <= input.Length
    requires netDelta != null ==> s.batch * Inputs(s) <= netDelta.Length
    requires delta != weights && delta != weightUpdates && delta != biasUpdates && delta != output && delta != input
    requires weightUpdates != weights && weightUpdates != biasUpdates && weightUpdates != input && weightUpdates != output
    requires biasUpdates != weights && biasUpdates != input && biasUpdates != output
    requires netDelta != weights && netDelta != delta && netDelta != input && netDelta != weightUpdates
    requires netDelta != biasUpdates && netDelta != output
    modifies delta, weightUpdates, biasUpdates, netDelta
    ensures delta[..] == BackwardDelta(s, bn, output[..], old(delta[..]), grad, normalizeBack)
    ensures (Sizes(s);
             !bn ==> biasUpdates[..] == BackwardBiasSpec(old(biasUpdates[..]), delta[..], s.batch, s.n, Plane(s)))
    ensures weightUpdates[..] == WeightGrad(s, delta[..], input[..], old(weightUpdates[..]), s.batch)
    ensures netDelta != null ==>
              netDelta[..] == InputGradient(s, weights[..], delta[..], old(netDelta[..]))
  {
    Sizes(s);
    ghost var want := BackwardDelta(s, bn, output[..], delta[..], grad, normalizeBack);
    Gradient(output, BatchOutputs(s), grad, delta);
    if bn {
      var normalized := normalizeBack(delta[..]);
      ghost var before := delta[..];
      WriteTile(delta, 0, normalized);
      assert Overwrite(before, 0, normalized) == normalized;
    } else {
      BackwardBias(biasUpdates, delta, s.batch, s.n, Plane(s));
    }
    BackwardBatch(s, weights, delta, input, weightUpdates, netDelta);
    assert delta[..] == want && output[..] == old(output[..]);
  }

  // ------------------------------------------------ the shortcut as written

  /** The passes read every patch matrix through the corrected shortcut
      `Patch`. The source's matrix (`PatchAsWritten`, read at the tile's
      offset into the whole input) is the same whenever the kernel is not
      1x1, or is 1x1 with stride 1 and no padding; ShortcutWrongUnderStride
      and ShortcutOverReadsUnderPadding show the remaining layers. */
  lemma SourcePatchAgrees(s: Shape, x: seq<real>, i: nat, j: nat)
    requires Covered(s) && i < s.batch && j < s.groups && s.batch * Inputs(s) <= |x|
    requires s.size != 1 || (s.stride == 1 && s.pad == 0)
    ensures (Sizes(s); OffsetsAreTiles(s, i, j);
             PatchAsWritten(x, InputOffset(s, i, j), GroupWindow(s))
             == Some(Patch(InputTile(s, x, i, j), GroupWindow(s))))
  {
    Sizes(s);
    OffsetsAreTiles(s, i, j);
    var win, off := GroupWindow(s), InputOffset(s, i, j);
    var tile := InputTile(s, x, i, j);
    assert x[off .. off + ImageLen(win)] == tile;
    if UnitWindow(win) {
      Im2ColUnitIsIdentity(tile, win);
    }
  }

  /** The passes add every input gradient into the network's delta. The
      source's size-1 gemm writes it over the tile instead
      (`InputGradAsWritten`); both give the same tile whenever the kernel
      is not 1x1, or is 1x1 with stride 1, no padding and a tile that
      still holds zeros. InputGradShortcutOverwrites shows a tile that
      does not. */
  lemma SourceInputGradAgrees(s: Shape, w: seq<real>, d: seq<real>, xd: seq<real>, i: nat, j: nat)
    requires Covered(s) && i < s.batch && j < s.groups
    requires |w| == NWeights(s) && |d| == s.batch * Outputs(s) && s.batch * Inputs(s) <= |xd|
    requires s.size != 1 || (s.stride == 1 && s.pad == 0 && InputTile(s, xd, i, j) == Zeros(GroupInputLen(s)))
    ensures (Sizes(s);
             InputGradAsWritten(GroupInputProduct(s, w, d, i, j), InputTile(s, xd, i, j), GroupWindow(s))
             == Some(GroupInputGrad(s, w, d, xd, i, j)))
  {
    Sizes(s);
    var win, prod, tile := GroupWindow(s), GroupInputProduct(s, w, d, i, j), InputTile(s, xd, i, j);
    if UnitWindow(win) {
      UnitWindowSource(win, 0);
      assert prod + tile[|prod| ..] == prod;
      assert AddSeq(tile, prod) == prod;
    }
  }
}
