/** Integer arithmetic as the C source performs it, and the few nonlinear
    facts about it that the rest of the model relies on. */
module CInt {

  /** C's integer `/` for a positive divisor: the quotient is truncated toward
      zero, so for a negative dividend it rounds up (Dafny's `/` rounds down). */
  function Div(a: int, b: int): int
    requires b > 0
  {
    if a >= 0 then a / b else -((-a) / b)
  }

  /** The truncated quotient brackets the dividend from below for a
      non-negative dividend and from above for a negative one. */
  lemma DivTruncates(a: int, b: int)
    requires b > 0
    ensures 0 <= a ==> 0 <= Div(a, b) && Div(a, b) * b <= a < Div(a, b) * b + b
    ensures a < 0 ==> Div(a, b) <= 0 && Div(a, b) * b - b < a <= Div(a, b) * b
  {
    if a >= 0 {
      DivBounds(a, b);
    } else {
      var m := -a;
      var q := m / b;
      assert m == q * b + m % b;
      DivBounds(m, b);
      NegMul(q, b);
    }
  }

  /** On a non-negative dividend C's and Dafny's division agree. */
  lemma DivOfNonneg(a: int, b: int)
    requires 0 <= a && 0 < b
    ensures Div(a, b) == a / b
  {
  }

  /** The quotient of naturals is a natural no larger than the dividend. */
  lemma DivBounds(a: int, b: int)
    requires 0 <= a && 0 < b
    ensures 0 <= a / b <= a
  {
    var q, r := a / b, a % b;
    assert a == q * b + r && 0 <= r < b;
    if q < 0 {
      MulLe(q + 1, 0, b);
    } else {
      MulLe(1, b, q);
    }
  }

  /** Negating a factor negates the product. */
  lemma NegMul(a: int, b: int)
    ensures (-a) * b == -(a * b)
  {
  }

  /** Multiplication by a non-negative factor is monotone. */
  lemma MulLe(a: int, b: int, c: int)
    requires a <= b && 0 <= c
    ensures a * c <= b * c
  {
  }

  /** Reassociating and commuting a product of three factors. */
  lemma MulRegroup(a: int, b: int, c: int)
    ensures a * b * c == a * (c * b)
    ensures a * b * c == (a * c) * b
    ensures a * (b * c) == a * b * c
  {
  }

  /** A product of three factors taken in reverse order. */
  lemma Reverse3(a: int, b: int, c: int)
    ensures a * b * c == c * b * a
  {
  }

  /** One more block adds one block length. */
  lemma MulSucc(a: int, b: int)
    ensures (a + 1) * b == a * b + b
  {
  }

  /** Position `q` of block `t` in a row-major layout of `count` blocks of
      `len` elements lies inside the layout. */
  lemma BlockIndex(t: int, count: int, q: int, len: int)
    requires 0 <= t < count && 0 <= q < len
    ensures 0 <= t * len + q < count * len
  {
    MulLe(t + 1, count, len);
  }

  /** Block `i*g + j` of a layout of `batch` rows of `g` blocks of `len`
      ends inside the layout. */
  lemma NestedBlockInBounds(i: int, j: int, g: int, batch: int, len: int)
    requires 0 <= i < batch && 0 <= j < g && 0 <= len
    ensures 0 <= (i * g + j) * len
    ensures (i * g + j) * len + len <= batch * (g * len)
  {
    var t := i * g + j;
    MulLe(i + 1, batch, g);
    assert (i + 1) * g == i * g + g;
    assert t + 1 <= batch * g;
    MulLe(t + 1, batch * g, len);
    assert (t + 1) * len == t * len + len;
    MulRegroup(batch, g, len);
    MulLe(0, t, len);
  }

  /** The block and the position within it are recovered by `/` and `%`. */
  lemma BlockSplit(t: int, q: int, len: int)
    requires 0 <= t && 0 <= q < len
    ensures (t * len + q) / len == t && (t * len + q) % len == q
  {
    var x := t * len + q;
    var d, r := x / len, x % len;
    assert x == d * len + r;
    if d > t {
      MulLe(t + 1, d, len);
    } else if d < t {
      MulLe(d + 1, t, len);
    }
  }

  /** Dividing a multiple of `g` by `g` recovers the factor. */
  lemma MulDivCancel(x: int, g: int)
    requires 0 <= x && 0 < g
    ensures (x * g) / g == x
  {
    BlockSplit(x, 0, g);
  }

  /** Every index of a layout of blocks of `len` lies in block `idx / len`. */
  lemma BlockOf(idx: int, count: int, len: int)
    requires 0 <= idx < count * len && 0 < len
    ensures 0 <= idx / len < count && idx == (idx / len) * len + idx % len
  {
    if idx / len >= count {
      MulLe(count, idx / len, len);
    }
  }

  /** An index of a layout of `batch` rows of `g` blocks of `len` lies in
      block `t = idx / len`, which is block `t % g` of row `t / g`. */
  lemma NestedBlockOf(idx: int, batch: int, g: int, len: int)
    requires 0 <= idx < batch * (g * len) && 0 < g && 0 <= batch
    ensures 0 < len
    ensures var t := idx / len;
            0 <= t / g < batch && 0 <= t % g < g &&
            idx == (t / g * g + t % g) * len + idx % len
  {
    MulRegroup(batch, g, len);
    if len <= 0 {
      MulLe(0, batch * g, -len);
    }
    BlockOf(idx, batch * g, len);
    var t := idx / len;
    BlockOf(t, batch, g);
  }

  /** An index of a `batch x n x size` layout lies at element `k % size` of
      filter `(k / size) % n` of sample `(k / size) / n`. */
  lemma LayoutOf(k: int, batch: nat, n: nat, size: nat)
    requires 0 <= k < batch * n * size
    ensures 0 < n && 0 < size
    ensures var t := k / size;
            0 <= t / n < batch && 0 <= t % n < n && 0 <= k % size < size &&
            k == (t / n * n + t % n) * size + k % size
  {
    MulRegroup(batch, n, size);
    NestedBlockOf(k, batch, n, size);
  }

  /** Blocks with different numbers do not overlap. */
  lemma BlocksDisjoint(t: int, u: int, q: int, r: int, len: int)
    requires 0 <= t && 0 <= u && t != u && 0 <= q < len && 0 <= r < len
    ensures t * len + q != u * len + r
  {
    if t * len + q == u * len + r {
      BlockSplit(t, q, len);
      BlockSplit(u, r, len);
    }
  }

  /** Dividing after a multiplication never loses more than dividing first:
      `(a*b)/g >= a*(b/g)`, with equality when `g` divides `b`. */
  lemma DivAfterMul(a: nat, b: nat, g: nat)
    requires 0 < g
    ensures (a * b) / g >= a * (b / g)
    ensures b % g == 0 ==> (a * b) / g == a * (b / g)
  {
    var q, r := b / g, b % g;
    assert b == q * g + r;
    assert a * b == (a * q) * g + a * r by {
      assert a * b == a * (q * g + r);
    }
    assert a * r >= 0;
    LowerBound(a * q, a * r, g);
    if r == 0 {
      BlockSplit(a * q, 0, g);
    }
  }

  /** `(x*g + y)/g >= x` for non-negative `y`. */
  lemma LowerBound(x: nat, y: nat, g: nat)
    requires 0 < g
    ensures (x * g + y) / g >= x
  {
    var d := (x * g + y) / g;
    assert x * g + y == d * g + (x * g + y) % g;
    if d < x {
      MulLe(d + 1, x, g);
    }
  }
}
