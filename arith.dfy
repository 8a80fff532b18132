/** Facts about products, quotients and remainders that the index arithmetic of both
    lattices rests on. */
module Arith {

  /** `w * a` grows with `a`. */
  lemma MulMonotone(w: nat, a: int, b: int)
    requires a <= b
    ensures w * a <= w * b
  {
    assert w * b - w * a == w * (b - a);
  }

  /** Division by `w` recovers the quotient and the remainder of `w * q + r`. */
  lemma DivModOf(w: nat, q: int, r: int)
    requires w > 0 && 0 <= r < w
    ensures (w * q + r) / w == q && (w * q + r) % w == r
  {
    var n := w * q + r;
    var d := n / w;
    assert w * d + n % w == n;
    if d < q {
      MulMonotone(w, d + 1, q);
      assert false;
    } else if d > q {
      MulMonotone(w, q + 1, d);
      assert false;
    }
  }

  /** A number below `w * k` has a quotient by `w` below `k`, and it is `w` times that
      quotient plus the remainder. */
  lemma QuotientBelow(n: int, w: nat, k: int)
    requires w > 0 && 0 <= n < w * k
    ensures 0 <= n / w < k && n == w * (n / w) + n % w
  {
    var q := n / w;
    if q >= k {
      MulMonotone(w, k, q);
      assert false;
    }
  }

  /** Cell (x, y) of a row-major `width` by `height` grid sits at `width * y + x`: inside the
      grid, in column `x` and row `y`, in the first `width` cells exactly when y = 0 and in the
      last `width` cells exactly when y = height - 1. */
  lemma {:induction false} RowMajor(width: nat, height: nat, x: nat, y: nat)
    requires x < width && y < height
    ensures width * y + x < width * height
    ensures (width * y + x) % width == x && (width * y + x) / width == y
    ensures (width * y + x < width) == (y == 0)
    ensures (width * y + x >= width * height - width) == (y == height - 1)
  {
    DivModOf(width, y, x);
    MulMonotone(width, y + 1, height);
    assert width * (y + 1) == width * y + width;
    assert width * (height - 1) == width * height - width;
    if y > 0 {
      MulMonotone(width, 1, y);
    }
    if y < height - 1 {
      MulMonotone(width, y + 1, height - 1);
    }
  }
}
