/** Output geometry and the buffer sizes derived from a layer's shape
    (convolutional_out_height/width, the counts set by
    make_convolutional_layer and resize_convolutional_layer, and the
    CPU branch of get_workspace_size). */
module ConvGeometry {
  import opened CInt

  /** `sizeof(float)` in bytes. */
  const FloatBytes: nat := 4

  /** The hyper-parameters a layer is built from. */
  datatype Shape = Shape(
    batch: nat, h: nat, w: nat, c: nat, n: nat,
    groups: nat, size: nat, stride: nat, pad: int)

  /** Number of positions a window of `size` takes along an input of `len`
      padded by `pad` on each side, moving `stride` at a time, computed with
      C's truncating division as the source does. */
  function OutDim(len: int, pad: int, size: int, stride: int): int
    requires stride >= 1
  {
    Div(len + 2 * pad - size, stride) + 1
  }

  /** When the window fits the padded input there is at least one
      position, the last position still fits and one more would not. When
      it does not fit but overhangs by less than one stride, truncation
      toward zero still gives one position; otherwise there is none. */
  lemma OutDimBounds(len: int, pad: int, size: int, stride: int)
    requires stride >= 1
    ensures var r := OutDim(len, pad, size, stride);
            len + 2 * pad >= size ==>
              r >= 1 && (r - 1) * stride + size <= len + 2 * pad < r * stride + size
    ensures size - stride < len + 2 * pad < size ==> OutDim(len, pad, size, stride) == 1
    ensures len + 2 * pad <= size - stride ==> OutDim(len, pad, size, stride) <= 0
  {
    var a := len + 2 * pad - size;
    DivTruncates(a, stride);
    var q := Div(a, stride);
    assert OutDim(len, pad, size, stride) == q + 1;
    MulSucc(q, stride);
    if a < 0 && a > -stride {
      assert Div(a, stride) == 0;
    }
    if a <= -stride {
      LowerBound(1, -a - stride, stride);
    }
  }

  /** The shape has a divisor-safe group count and stride, and a non-empty
      output plane. */
  predicate WellFormed(s: Shape)
  {
    s.groups >= 1 && s.stride >= 1 &&
    OutDim(s.h, s.pad, s.size, s.stride) >= 1 &&
    OutDim(s.w, s.pad, s.size, s.stride) >= 1
  }

  function OutH(s: Shape): nat
    requires WellFormed(s)
  {
    OutDim(s.h, s.pad, s.size, s.stride)
  }

  function OutW(s: Shape): nat
    requires WellFormed(s)
  {
    OutDim(s.w, s.pad, s.size, s.stride)
  }

  /** Weights of one filter: `c/groups` input channels of `size*size`. */
  function FilterLen(s: Shape): nat
    requires s.groups >= 1
  {
    s.c / s.groups * s.size * s.size
  }

  /** `nweights`: the weight count, with the division by `groups` first. */
  function NWeights(s: Shape): nat
    requires s.groups >= 1
  {
    s.c / s.groups * s.n * s.size * s.size
  }

  /** `outputs`: one sample's output volume, `out_h*out_w*out_c` with `out_c == n`. */
  function Outputs(s: Shape): nat
    requires WellFormed(s)
  {
    OutH(s) * OutW(s) * s.n
  }

  /** `inputs`: one sample's input volume. */
  function Inputs(s: Shape): nat
  {
    s.w * s.h * s.c
  }

  /** Rows of the patch matrix as the forward pass computes them
      (`size*size*c/groups`: the division comes last). */
  function PatchRows(s: Shape): nat
    requires s.groups >= 1
  {
    s.size * s.size * s.c / s.groups
  }

  /** CPU workspace requirement in bytes: all multiplications, then the
      division by `groups`, then the float size. */
  function WorkspaceBytes(s: Shape): nat
    requires WellFormed(s)
  {
    var plane: nat := OutH(s) * OutW(s);
    var window: nat := plane * s.size;
    var patch: nat := window * s.size;
    var total: nat := patch * s.c;
    total / s.groups * FloatBytes
  }

  /** The two worked examples of the output formula. */
  lemma OutDimExamples()
    ensures OutDim(5, 0, 3, 1) == 3
    ensures OutDim(5, 1, 3, 2) == 3
  {
  }

  /** A 1x1 window with stride 1 and no padding keeps the plane size. */
  lemma UnitKernelKeepsPlane(len: nat)
    ensures OutDim(len, 0, 1, 1) == len
  {
  }

  /** The weights split into `n` filter blocks of `FilterLen` each. */
  lemma WeightsAreFilterBlocks(s: Shape)
    requires s.groups >= 1
    ensures NWeights(s) == s.n * FilterLen(s)
  {
    var q := s.c / s.groups;
    calc {
      NWeights(s);
      q * s.n * s.size * s.size;
      { assert q * s.n == s.n * q; }
      s.n * q * s.size * s.size;
      s.n * (q * s.size * s.size);
    }
  }

  /** The workspace count `plane*size*size*c/groups` against the patch matrix
      `(size*size*c/groups) x plane`, on plain numbers. */
  lemma WorkspaceCount(plane: nat, size: nat, c: nat, g: nat)
    requires 0 < g
    ensures plane * size * size * c / g >= (size * size * c / g) * plane
    ensures c % g == 0 ==> size * size * c / g == c / g * size * size
    ensures c % g == 0 ==> plane * size * size * c / g == (c / g * size * size) * plane
  {
    var k := size * size * c;
    MulRegroup(plane, size, size);
    assert plane * size * size * c == plane * k;
    DivAfterMul(plane, k, g);
    if c % g == 0 {
      var q := c / g;
      DivAfterMul(size * size, c, g);
      assert k % g == 0 by {
        assert k == (size * size * q) * g;
        BlockSplit(size * size * q, 0, g);
      }
    }
  }

  /** When `groups` divides `c`, the forward pass's patch rows equal the
      length of one filter. */
  lemma PatchRowsAreFilterLen(s: Shape)
    requires s.groups >= 1 && s.c % s.groups == 0
    ensures PatchRows(s) == FilterLen(s)
  {
    WorkspaceCount(0, s.size, s.c, s.groups);
  }

  /** The workspace always holds the forward pass's patch matrix of
      `PatchRows` rows and `out_h*out_w` columns, whether or not `groups`
      divides `c`. */
  lemma WorkspaceHoldsPatchMatrix(s: Shape)
    requires WellFormed(s)
    ensures WorkspaceBytes(s) >= FloatBytes * (PatchRows(s) * (OutH(s) * OutW(s)))
  {
    WorkspaceCount(OutH(s) * OutW(s), s.size, s.c, s.groups);
  }

  /** When `groups` divides `c`, the forward pass's patch rows equal the
      length of one filter, and the workspace is exactly one filter-length
      by `out_h*out_w` floats. */
  lemma WorkspaceMatchesFilters(s: Shape)
    requires WellFormed(s) && s.c % s.groups == 0
    ensures PatchRows(s) == FilterLen(s)
    ensures WorkspaceBytes(s) == FloatBytes * (FilterLen(s) * (OutH(s) * OutW(s)))
  {
    WorkspaceCount(OutH(s) * OutW(s), s.size, s.c, s.groups);
  }
}
