/** Offsets of the per-sample, per-group slices that the batch x group loops
    of forward_convolutional_layer and backward_convolutional_layer hand to
    gemm, im2col and col2im, and the facts that make those loops safe:
    every slice is in bounds, slices of different (sample, group) pairs are
    disjoint, and together the output slices tile the whole output. */
module Slices {
  import opened CInt
  import opened ConvGeometry

  /** Channels and filters both split evenly into the groups. */
  predicate GroupsDivide(s: Shape)
  {
    s.groups >= 1 && s.c % s.groups == 0 && s.n % s.groups == 0
  }

  /** Filters per group (`m`). */
  function GroupFilters(s: Shape): nat
    requires s.groups >= 1
  {
    s.n / s.groups
  }

  /** Output positions per channel (`out_h*out_w`). */
  function Plane(s: Shape): nat
    requires WellFormed(s)
  {
    OutH(s) * OutW(s)
  }

  /** Output (and delta) floats that one sample's group produces (`m` rows of
      `out_h*out_w`). */
  function GroupOutLen(s: Shape): nat
    requires WellFormed(s)
  {
    GroupFilters(s) * Plane(s)
  }

  /** Weights of one group (`m` filters of `k` weights). */
  function GroupWeightLen(s: Shape): nat
    requires s.groups >= 1
  {
    GroupFilters(s) * PatchRows(s)
  }

  /** Input (and input-gradient) floats of one sample's group. */
  function GroupInputLen(s: Shape): nat
    requires s.groups >= 1
  {
    s.c / s.groups * s.h * s.w
  }

  /** Start of sample `i`, group `j` in `output` and `delta`. */
  function OutputOffset(s: Shape, i: nat, j: nat): int
    requires WellFormed(s)
  {
    (i * s.groups + j) * Plane(s) * GroupFilters(s)
  }

  /** Start of group `j` in `weights` and `weight_updates`
      (`j*nweights/groups`, division last). */
  function WeightOffset(s: Shape, j: nat): int
    requires s.groups >= 1
  {
    j * NWeights(s) / s.groups
  }

  /** Start of sample `i`, group `j` in the input and input gradient
      (`(i*groups + j)*c/groups*h*w`, evaluated left to right). */
  function InputOffset(s: Shape, i: nat, j: nat): int
    requires s.groups >= 1
  {
    (i * s.groups + j) * s.c / s.groups * s.h * s.w
  }

  /** The output offset is block number `i*groups + j` of `GroupOutLen`. */
  lemma OutputOffsetIsBlock(s: Shape, i: nat, j: nat)
    requires WellFormed(s)
    ensures OutputOffset(s, i, j) == (i * s.groups + j) * GroupOutLen(s)
  {
    MulRegroup(i * s.groups + j, Plane(s), GroupFilters(s));
  }

  /** One sample's output is `groups` group blocks. */
  lemma OutputsAreGroupBlocks(s: Shape)
    requires WellFormed(s) && GroupsDivide(s)
    ensures Outputs(s) == s.groups * GroupOutLen(s)
  {
    var m := GroupFilters(s);
    assert s.n == m * s.groups;
    calc {
      Outputs(s);
      Plane(s) * s.n;
      Plane(s) * (m * s.groups);
      { assert Plane(s) * (m * s.groups) == s.groups * (m * Plane(s)); }
      s.groups * (m * Plane(s));
    }
  }

  /** Sample `i`, group `j` addresses `[OutputOffset, OutputOffset + m*out_h*out_w)`,
      which lies inside the `batch*outputs` floats of `output` and `delta`. */
  lemma OutputSliceInBounds(s: Shape, i: nat, j: nat)
    requires WellFormed(s) && GroupsDivide(s)
    requires i < s.batch && j < s.groups
    ensures 0 <= OutputOffset(s, i, j)
    ensures OutputOffset(s, i, j) + GroupOutLen(s) <= s.batch * Outputs(s)
  {
    OutputOffsetIsBlock(s, i, j);
    OutputsAreGroupBlocks(s);
    NestedBlockInBounds(i, j, s.groups, s.batch, GroupOutLen(s));
  }

  /** Different (sample, group) pairs write disjoint output slices. */
  lemma OutputSlicesDisjoint(s: Shape, i: nat, j: nat, i2: nat, j2: nat, q: nat, r: nat)
    requires WellFormed(s)
    requires j < s.groups && j2 < s.groups && (i, j) != (i2, j2)
    requires q < GroupOutLen(s) && r < GroupOutLen(s)
    ensures OutputOffset(s, i, j) + q != OutputOffset(s, i2, j2) + r
  {
    OutputOffsetIsBlock(s, i, j);
    OutputOffsetIsBlock(s, i2, j2);
    if i * s.groups + j == i2 * s.groups + j2 {
      BlockSplit(i, j, s.groups);
      BlockSplit(i2, j2, s.groups);
    }
    BlocksDisjoint(i * s.groups + j, i2 * s.groups + j2, q, r, GroupOutLen(s));
  }

  /** Every output element lies in the slice of some sample `i < batch` and
      group `j < groups`: the slices tile `[0, batch*outputs)`. */
  lemma OutputSlicesCover(s: Shape, idx: int) returns (i: nat, j: nat, q: nat)
    requires WellFormed(s) && GroupsDivide(s)
    requires 0 <= idx < s.batch * Outputs(s)
    ensures i < s.batch && j < s.groups && q < GroupOutLen(s)
    ensures idx == OutputOffset(s, i, j) + q
  {
    var len := GroupOutLen(s);
    OutputsAreGroupBlocks(s);
    NestedBlockOf(idx, s.batch, s.groups, len);
    var t := idx / len;
    i, j, q := t / s.groups, t % s.groups, idx % len;
    OutputOffsetIsBlock(s, i, j);
  }

  /** Group `j`'s weights start at block `j` of `GroupWeightLen`, and the
      `m x k` matrix the gemm reads there lies inside `nweights`. */
  lemma WeightSliceInBounds(s: Shape, j: nat)
    requires GroupsDivide(s) && j < s.groups
    ensures WeightOffset(s, j) == j * GroupWeightLen(s)
    ensures 0 <= WeightOffset(s, j)
    ensures WeightOffset(s, j) + GroupWeightLen(s) <= NWeights(s)
  {
    PatchRowsAreFilterLen(s);
    WeightsAreFilterBlocks(s);
    assert s.n == GroupFilters(s) * s.groups;
    GroupBlockOffset(j, s.groups, GroupFilters(s), FilterLen(s), NWeights(s), GroupWeightLen(s));
  }

  /** `j*N/g` is the start of block `j` when `N` is `g` blocks of `m*f`. */
  lemma GroupBlockOffset(j: nat, g: nat, m: nat, f: nat, N: nat, len: nat)
    requires j < g && N == (m * g) * f && len == m * f
    ensures j * N / g == j * len && 0 <= j * len && j * len + len <= N
  {
    MulLe(0, j, len);
    MulRegroup(m, g, f);
    assert N == len * g;
    MulRegroup(j, len, g);
    assert j * N == (j * len) * g;
    MulDivCancel(j * len, g);
    MulLe(j + 1, g, len);
    MulSucc(j, len);
  }

  /** One sample's input is `groups` group blocks. */
  lemma InputsAreGroupBlocks(s: Shape)
    requires GroupsDivide(s)
    ensures Inputs(s) == s.groups * GroupInputLen(s)
  {
    assert s.c == s.c / s.groups * s.groups;
  }

  /** Group `j` of sample `i` starts at block `i*groups + j` of the input, and
      its `c/groups` channels of `h*w` lie inside `batch*inputs`. */
  lemma InputSliceInBounds(s: Shape, i: nat, j: nat)
    requires GroupsDivide(s) && i < s.batch && j < s.groups
    ensures InputOffset(s, i, j) == (i * s.groups + j) * GroupInputLen(s)
    ensures 0 <= InputOffset(s, i, j)
    ensures InputOffset(s, i, j) + GroupInputLen(s) <= s.batch * Inputs(s)
  {
    var g, t, q := s.groups, i * s.groups + j, s.c / s.groups;
    assert t * s.c == (t * q) * g;
    MulDivCancel(t * q, g);
    InputsAreGroupBlocks(s);
    NestedBlockInBounds(i, j, g, s.batch, GroupInputLen(s));
  }
}
