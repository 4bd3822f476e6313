/** The patch matrix the layer multiplies its weights with, and the way the
    input gradient is scattered back: the contracts of im2col_cpu and
    col2im_cpu (their bodies are in im2col.c and col2im.c, which are not
    part of this model), the `size == 1` shortcuts that the forward and
    backward passes take instead of calling them, and when those
    shortcuts are exact. */
module Patches {
  import opened CInt
  import opened ConvGeometry
  import opened Maybe

  /** The geometry im2col and col2im are called with: `channels` planes of
      `height x width`, a `ksize x ksize` window moved `stride` at a time
      over the input padded by `pad`. */
  datatype Window = Window(channels: nat, height: nat, width: nat, ksize: nat, stride: nat, pad: int)

  /** A window that fits the padded input at least once in each direction. */
  predicate Fits(win: Window)
  {
    win.ksize >= 1 && win.stride >= 1 &&
    OutDim(win.height, win.pad, win.ksize, win.stride) >= 1 &&
    OutDim(win.width, win.pad, win.ksize, win.stride) >= 1
  }

  /** `height_col` and `width_col`: the window positions along each axis. */
  function ColHeight(win: Window): nat
    requires Fits(win)
  {
    OutDim(win.height, win.pad, win.ksize, win.stride)
  }

  function ColWidth(win: Window): nat
    requires Fits(win)
  {
    OutDim(win.width, win.pad, win.ksize, win.stride)
  }

  /** `channels_col = channels*ksize*ksize`: rows of the patch matrix. */
  function ColRows(win: Window): nat
  {
    win.channels * win.ksize * win.ksize
  }

  /** Columns of the patch matrix: one per window position. */
  function ColCols(win: Window): nat
    requires Fits(win)
  {
    ColHeight(win) * ColWidth(win)
  }

  /** Floats in the input image. */
  function ImageLen(win: Window): nat
  {
    win.channels * win.height * win.width
  }

  /** Position of pixel `(c_im, row, col)` in the image,
      `col + width*(row + height*c_im)`. */
  function PixelIndex(win: Window, cIm: nat, row: nat, col: nat): (p: nat)
    requires cIm < win.channels && row < win.height && col < win.width
    ensures p < ImageLen(win)
  {
    BlockIndex(cIm, win.channels, row, win.height);
    assert row + win.height * cIm == cIm * win.height + row;
    BlockIndex(row + win.height * cIm, win.channels * win.height, col, win.width);
    col + win.width * (row + win.height * cIm)
  }

  /** The image element that entry `idx` of the patch matrix copies (im2col)
      and adds into (col2im). Entry `idx` is row `c`, window position
      `(h, w)`; row `c` is kernel offset `(c/ksize % ksize, c % ksize)` of
      image channel `c/ksize/ksize`. `None` when the window sits on the
      padding, where im2col reads 0 and col2im adds nothing. */
  function ColSource(win: Window, idx: nat): (src: Option<nat>)
    requires Fits(win) && idx < ColRows(win) * ColCols(win)
    ensures src.Some? ==> src.value < ImageLen(win)
  {
    var hc, wc := ColHeight(win), ColWidth(win);
    MulRegroup(ColRows(win), hc, wc);
    BlockOf(idx, ColRows(win) * hc, wc);
    BlockOf(idx / wc, ColRows(win), hc);
    var w, h, c := idx % wc, idx / wc % hc, idx / wc / hc;
    DivBounds(c, win.ksize);
    BlockOf(c, win.channels * win.ksize, win.ksize);
    BlockOf(c / win.ksize, win.channels, win.ksize);
    var wOffset, hOffset, cIm := c % win.ksize, c / win.ksize % win.ksize, c / win.ksize / win.ksize;
    var row, col := hOffset + h * win.stride - win.pad, wOffset + w * win.stride - win.pad;
    if row < 0 || col < 0 || row >= win.height || col >= win.width then None
    else Some(PixelIndex(win, cIm, row, col))
  }

  /** `im2col_cpu`: the `ColRows x ColCols` patch matrix of an image. */
  function Im2Col(im: seq<real>, win: Window): (col: seq<real>)
    requires Fits(win) && |im| == ImageLen(win)
    ensures |col| == ColRows(win) * ColCols(win)
  {
    seq(ColRows(win) * ColCols(win), idx requires 0 <= idx < ColRows(win) * ColCols(win) =>
      match ColSource(win, idx)
      case None => 0.0
      case Some(p) => im[p])
  }

  /** `col2im_cpu` over the first `upto` entries of `col`: each entry is
      added into the image element it came from, in order. */
  function Col2ImUpTo(col: seq<real>, im: seq<real>, win: Window, upto: nat): (r: seq<real>)
    requires Fits(win) && |im| == ImageLen(win) && |col| == ColRows(win) * ColCols(win)
    requires upto <= |col|
    ensures |r| == |im|
  {
    if upto == 0 then im
    else
      var r := Col2ImUpTo(col, im, win, upto - 1);
      match ColSource(win, upto - 1)
      case None => r
      case Some(p) => r[p := r[p] + col[upto - 1]]
  }

  /** `col2im_cpu`: every entry of `col` added into `im`. */
  function Col2Im(col: seq<real>, im: seq<real>, win: Window): (r: seq<real>)
    requires Fits(win) && |im| == ImageLen(win) && |col| == ColRows(win) * ColCols(win)
    ensures |r| == |im|
  {
    Col2ImUpTo(col, im, win, |col|)
  }

  /** Elementwise sum of two sequences of the same length. */
  function AddSeq(a: seq<real>, b: seq<real>): (r: seq<real>)
    requires |a| == |b|
    ensures |r| == |a| && forall k :: 0 <= k < |a| ==> r[k] == a[k] + b[k]
  {
    seq(|a|, k requires 0 <= k < |a| => a[k] + b[k])
  }

  /** The window of the forward and backward calls: `c/groups` channels of
      the layer's input plane with the layer's kernel. */
  function GroupWindow(s: Shape): Window
    requires s.groups >= 1
  {
    Window(s.c / s.groups, s.h, s.w, s.size, s.stride, s.pad)
  }

  /** A 1x1 window with stride 1 and no padding. */
  predicate UnitWindow(win: Window)
  {
    win.ksize == 1 && win.stride == 1 && win.pad == 0
  }

  /** Under a unit window the patch matrix has the image's shape and every
      entry comes from the image element at the same position. */
  lemma UnitWindowSource(win: Window, idx: nat)
    requires Fits(win) && UnitWindow(win)
    ensures ColHeight(win) == win.height && ColWidth(win) == win.width
    ensures ColRows(win) * ColCols(win) == ImageLen(win)
    ensures idx < ImageLen(win) ==> ColSource(win, idx) == Some(idx)
  {
    UnitKernelKeepsPlane(win.height);
    UnitKernelKeepsPlane(win.width);
    var ch, hh, ww := win.channels, win.height, win.width;
    assert ColRows(win) == ch;
    MulRegroup(ch, hh, ww);
    if idx < ImageLen(win) {
      BlockOf(idx, ch * hh, ww);
      BlockOf(idx / ww, ch, hh);
      var x, y, c := idx % ww, idx / ww % hh, idx / ww / hh;
      assert c / 1 / 1 == c && c % 1 == 0 && c / 1 % 1 == 0;
      assert x + ww * (y + hh * c) == idx by {
        assert idx / ww == c * hh + y;
        assert idx == (idx / ww) * ww + x;
        assert (c * hh + y) * ww == ww * (y + hh * c);
      }
    }
  }

  /** im2col under a unit window copies the image unchanged: this is what
      makes the `size == 1` shortcut of the forward pass exact. */
  lemma Im2ColUnitIsIdentity(im: seq<real>, win: Window)
    requires Fits(win) && UnitWindow(win) && |im| == ImageLen(win)
    ensures Im2Col(im, win) == im
  {
    UnitWindowSource(win, 0);
    forall idx | 0 <= idx < |im|
      ensures Im2Col(im, win)[idx] == im[idx]
    {
      UnitWindowSource(win, idx);
    }
  }

  /** col2im under a unit window adds the first `upto` entries of `col` to
      the image elements at the same positions and leaves the rest. */
  lemma {:induction false} Col2ImUnitUpTo(col: seq<real>, im: seq<real>, win: Window, upto: nat)
    requires Fits(win) && UnitWindow(win) && |im| == ImageLen(win) && |col| == |im| && upto <= |col|
    ensures ColRows(win) * ColCols(win) == |col|
    ensures forall k :: 0 <= k < |im| ==>
              Col2ImUpTo(col, im, win, upto)[k] == if k < upto then im[k] + col[k] else im[k]
  {
    UnitWindowSource(win, 0);
    if upto > 0 {
      Col2ImUnitUpTo(col, im, win, upto - 1);
      UnitWindowSource(win, upto - 1);
    }
  }

  /** col2im under a unit window adds `col` to the image elementwise. */
  lemma Col2ImUnitIsAdd(col: seq<real>, im: seq<real>, win: Window)
    requires Fits(win) && UnitWindow(win) && |im| == ImageLen(win) && |col| == |im|
    ensures ColRows(win) * ColCols(win) == |col|
    ensures Col2Im(col, im, win) == AddSeq(im, col)
  {
    Col2ImUnitUpTo(col, im, win, |col|);
  }

  /** The matrix the forward and backward passes read for one sample's
      group, as written: with `size == 1` the gemm reads the
      `ColRows*ColCols` floats that start at the group's input offset `off`
      in the whole input, whatever the stride and padding; `None` when that
      runs past the end of the input. Otherwise it is im2col of the
      group's `ImageLen` floats. */
  function PatchAsWritten(input: seq<real>, off: nat, win: Window): (b: Option<seq<real>>)
    requires Fits(win) && off + ImageLen(win) <= |input|
    ensures b.Some? ==> |b.value| == ColRows(win) * ColCols(win)
  {
    var len: nat := ColRows(win) * ColCols(win);
    var imageEnd: nat := off + ImageLen(win);
    if win.ksize == 1 then
      if off + len <= |input| then Some(input[off .. off + len]) else None
    else Some(Im2Col(input[off .. imageEnd], win))
  }

  /** With stride 2 over a 4x4 single-channel image the shortcut reads the
      first four pixels `im[0..4)`, while the 2x2 positions of the window
      are pixels 0, 2, 8 and 10: entry 1 of the matrix is `im[1]` instead
      of `im[2]`. */
  lemma ShortcutWrongUnderStride()
    ensures var win := Window(1, 4, 4, 1, 2, 0);
            var im := [0.0, 1.0, 2.0, 3.0, 4.0, 5.0, 6.0, 7.0,
                       8.0, 9.0, 10.0, 11.0, 12.0, 13.0, 14.0, 15.0];
            Fits(win) &&
            PatchAsWritten(im, 0, win) == Some(im[0 .. 4]) &&
            Im2Col(im, win)[1] == 2.0 && im[1] == 1.0
  {
    var win := Window(1, 4, 4, 1, 2, 0);
    var im := [0.0, 1.0, 2.0, 3.0, 4.0, 5.0, 6.0, 7.0,
               8.0, 9.0, 10.0, 11.0, 12.0, 13.0, 14.0, 15.0];
    StrideTwoSource();
    assert Im2Col(im, win)[1] == im[2];
  }

  /** The 2x2 positions of a 1x1 window moved 2 at a time over a 4x4 image:
      entry 1 of the patch matrix is pixel 2. */
  lemma StrideTwoSource()
    ensures var win := Window(1, 4, 4, 1, 2, 0);
            Fits(win) && ColRows(win) * ColCols(win) == 4 && ColSource(win, 1) == Some(2)
  {
    var win := Window(1, 4, 4, 1, 2, 0);
    assert OutDim(4, 0, 1, 2) == 2;
    assert ColHeight(win) == 2 && ColWidth(win) == 2;
  }

  /** With padding 1 around a single pixel the window has 3x3 positions, so
      the shortcut reads nine floats from an input of one. */
  lemma ShortcutOverReadsUnderPadding()
    ensures var win := Window(1, 1, 1, 1, 1, 1);
            Fits(win) && ColRows(win) * ColCols(win) == 9 &&
            PatchAsWritten([5.0], 0, win) == None
  {
    assert OutDim(1, 1, 1, 1) == 3;
  }

  /** The patch matrix with the shortcut taken only where it is exact: for
      a unit window the image itself, otherwise im2col. */
  function Patch(im: seq<real>, win: Window): (b: seq<real>)
    requires Fits(win) && |im| == ImageLen(win)
    ensures |b| == ColRows(win) * ColCols(win)
  {
    if UnitWindow(win) then (Im2ColUnitIsIdentity(im, win); im) else Im2Col(im, win)
  }

  /** The corrected shortcut always yields im2col's matrix. */
  lemma PatchIsIm2Col(im: seq<real>, win: Window)
    requires Fits(win) && |im| == ImageLen(win)
    ensures Patch(im, win) == Im2Col(im, win)
  {
    if UnitWindow(win) {
      Im2ColUnitIsIdentity(im, win);
    }
  }

  /** The input gradient of one sample's group after the backward pass, as
      written: `prod` is the `ColRows x ColCols` product `W^T * delta`; with
      `size == 1` gemm writes it over `imd` with `beta = 0` (`None` when it
      does not fit), otherwise col2im adds it into `imd`. */
  function InputGradAsWritten(prod: seq<real>, imd: seq<real>, win: Window): (r: Option<seq<real>>)
    requires Fits(win) && |imd| == ImageLen(win) && |prod| == ColRows(win) * ColCols(win)
    ensures r.Some? ==> |r.value| == |imd|
  {
    if win.ksize == 1 then
      if |prod| <= |imd| then Some(prod + imd[|prod| ..]) else None
    else Some(Col2Im(prod, imd, win))
  }

  /** A single 1x1 pixel whose input gradient already holds 1 and receives
      2: col2im would leave 3, the shortcut leaves 2, dropping what other
      consumers of the input accumulated before. */
  lemma InputGradShortcutOverwrites()
    ensures var win := Window(1, 1, 1, 1, 1, 0);
            Fits(win) && ColRows(win) * ColCols(win) == 1 &&
            InputGradAsWritten([2.0], [1.0], win) == Some([2.0]) &&
            Col2Im([2.0], [1.0], win) == [3.0]
  {
    var win := Window(1, 1, 1, 1, 1, 0);
    Col2ImUnitIsAdd([2.0], [1.0], win);
    assert [2.0] + [1.0][1 ..] == [2.0];
  }

  /** The input gradient with the shortcut accumulating like col2im: for a
      unit window `imd + prod`, otherwise col2im. */
  function InputGrad(prod: seq<real>, imd: seq<real>, win: Window): (r: seq<real>)
    requires Fits(win) && |imd| == ImageLen(win) && |prod| == ColRows(win) * ColCols(win)
    ensures |r| == |imd|
  {
    if UnitWindow(win) then (UnitWindowSource(win, 0); AddSeq(imd, prod)) else Col2Im(prod, imd, win)
  }

  /** The corrected shortcut always agrees with col2im. */
  lemma InputGradIsCol2Im(prod: seq<real>, imd: seq<real>, win: Window)
    requires Fits(win) && |imd| == ImageLen(win) && |prod| == ColRows(win) * ColCols(win)
    ensures InputGrad(prod, imd, win) == Col2Im(prod, imd, win)
  {
    if UnitWindow(win) {
      UnitWindowSource(win, 0);
      Col2ImUnitIsAdd(prod, imd, win);
    }
  }
}
