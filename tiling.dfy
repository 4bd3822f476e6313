/** Buffers cut into equal tiles, `rows` rows of `g` tiles of `len` floats,
    as the layer's output, delta, input and weights are cut per sample and
    per group, and the state of a buffer part-way through a row-major loop
    that rewrites it tile by tile. */
module Tiling {
  import opened CInt

  /** Where an element lies: its row, its tile within the row and its
      offset within the tile. */
  datatype Spot = Spot(row: nat, tile: nat, at: nat)

  /** The spot of element `idx`. */
  function Locate(idx: nat, rows: nat, g: nat, len: nat): (p: Spot)
    requires idx < rows * (g * len) && g > 0
    ensures p.row < rows && p.tile < g && p.at < len
    ensures idx == (p.row * g + p.tile) * len + p.at
  {
    NestedBlockOf(idx, rows, g, len);
    var t := idx / len;
    Spot(t / g, t % g, idx % len)
  }

  /** Where tile `(i, j)` starts. */
  function Start(i: nat, j: nat, g: nat, len: nat): nat
  {
    (i * g + j) * len
  }

  /** Element `q` of tile `(i, j)` has exactly that spot. */
  lemma LocateTile(i: nat, j: nat, q: nat, rows: nat, g: nat, len: nat)
    requires i < rows && j < g && q < len
    ensures Start(i, j, g, len) + q < rows * (g * len)
    ensures Locate(Start(i, j, g, len) + q, rows, g, len) == Spot(i, j, q)
  {
    NestedBlockInBounds(i, j, g, rows, len);
    BlockSplit(i * g + j, q, len);
    BlockSplit(i, j, g);
  }

  /** Tile `(i, j)` of `a`. */
  function Tile(a: seq<real>, i: nat, j: nat, rows: nat, g: nat, len: nat): (r: seq<real>)
    requires i < rows && j < g && rows * (g * len) <= |a|
    ensures |r| == len
    ensures Start(i, j, g, len) + len <= |a|
    ensures forall q :: 0 <= q < len ==> r[q] == a[Start(i, j, g, len) + q]
  {
    NestedBlockInBounds(i, j, g, rows, len);
    var lo := Start(i, j, g, len);
    a[lo .. lo + len]
  }

  /** A spot the loop `for i < rows, for j < g` reaches before tile `(i, j)`. */
  predicate Before(p: Spot, i: nat, j: nat)
  {
    p.row < i || (p.row == i && p.tile < j)
  }

  /** The buffer when the loop is about to rewrite tile `(i, j)`: tiles
      already visited hold `target`, every other element still holds `init`. */
  function Progress(target: seq<real>, init: seq<real>, rows: nat, g: nat, len: nat,
                    i: nat, j: nat): (r: seq<real>)
    requires |target| == |init| && rows * (g * len) <= |init| && g > 0
    ensures |r| == |init|
  {
    seq(|init|, idx requires 0 <= idx < |init| =>
      if idx < rows * (g * len) && Before(Locate(idx, rows, g, len), i, j) then target[idx]
      else init[idx])
  }

  /** Before the first tile nothing has changed. */
  lemma ProgressStart(target: seq<real>, init: seq<real>, rows: nat, g: nat, len: nat)
    requires |target| == |init| && rows * (g * len) <= |init| && g > 0
    ensures Progress(target, init, rows, g, len, 0, 0) == init
  {
  }

  /** Finishing row `i` is starting row `i + 1`. */
  lemma ProgressNextRow(target: seq<real>, init: seq<real>, rows: nat, g: nat, len: nat, i: nat)
    requires |target| == |init| && rows * (g * len) <= |init| && g > 0
    ensures Progress(target, init, rows, g, len, i, g) == Progress(target, init, rows, g, len, i + 1, 0)
  {
  }

  /** After the last row the buffer is `target`, when `target` leaves the
      elements past the tiles alone. */
  lemma ProgressEnd(target: seq<real>, init: seq<real>, rows: nat, g: nat, len: nat)
    requires |target| == |init| && rows * (g * len) <= |init| && g > 0
    requires forall idx :: rows * (g * len) <= idx < |init| ==> target[idx] == init[idx]
    ensures Progress(target, init, rows, g, len, rows, 0) == target
  {
  }

  /** The tile about to be rewritten still holds its initial contents. */
  lemma ProgressUnvisited(target: seq<real>, init: seq<real>, rows: nat, g: nat, len: nat,
                          i: nat, j: nat)
    requires |target| == |init| && rows * (g * len) <= |init| && g > 0
    requires i < rows && j < g
    ensures Tile(Progress(target, init, rows, g, len, i, j), i, j, rows, g, len)
            == Tile(init, i, j, rows, g, len)
  {
    var cur := Progress(target, init, rows, g, len, i, j);
    forall q | 0 <= q < len
      ensures Tile(cur, i, j, rows, g, len)[q] == Tile(init, i, j, rows, g, len)[q]
    {
      LocateTile(i, j, q, rows, g, len);
    }
  }

  /** `a` with the `|vals|` elements from `off` on replaced by `vals`. */
  function Overwrite(a: seq<real>, off: nat, vals: seq<real>): (r: seq<real>)
    requires off + |vals| <= |a|
    ensures |r| == |a|
  {
    a[..off] + vals + a[off + |vals|..]
  }

  /** Writing `target`'s tile `(i, j)` over the buffer advances the loop
      by one tile. */
  lemma ProgressStep(target: seq<real>, init: seq<real>, rows: nat, g: nat, len: nat,
                     i: nat, j: nat, before: seq<real>)
    requires |target| == |init| && rows * (g * len) <= |init| && g > 0
    requires i < rows && j < g
    requires before == Progress(target, init, rows, g, len, i, j)
    ensures Start(i, j, g, len) + len <= |before|
    ensures Overwrite(before, Start(i, j, g, len), Tile(target, i, j, rows, g, len))
            == Progress(target, init, rows, g, len, i, j + 1)
  {
    var lo, tile := Start(i, j, g, len), Tile(target, i, j, rows, g, len);
    var after := Overwrite(before, lo, tile);
    var next := Progress(target, init, rows, g, len, i, j + 1);
    forall idx | 0 <= idx < |after|
      ensures after[idx] == next[idx]
    {
      if lo <= idx < lo + len {
        LocateTile(i, j, idx - lo, rows, g, len);
        assert after[idx] == tile[idx - lo];
      } else {
        assert after[idx] == before[idx];
      }
    }
  }

  /** Copies `vals` into `a` from `off` on, as the gemm calls write their
      `C` tile; nothing else changes. */
  method WriteTile(a: array<real>, off: nat, vals: seq<real>)
    requires off + |vals| <= a.Length
    modifies a
    ensures a[..] == Overwrite(old(a[..]), off, vals)
  {
    forall idx | off <= idx < off + |vals| {
      a[idx] := vals[idx - off];
    }
    assert forall k :: 0 <= k < a.Length ==> a[..][k] == Overwrite(old(a[..]), off, vals)[k];
  }
}
