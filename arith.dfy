/** Small facts of ordered-field arithmetic that the solver does not find
    unaided; the geometric lemmas elsewhere are built from them. A product
    is passed in as its own variable `p` (with `p == a * b` required), which
    keeps the solver's reasoning at the call site linear. */
module Arith {
  lemma MulPos(a: real, b: real, p: real)
    requires a > 0.0 && b > 0.0 && p == a * b
    ensures p > 0.0
  {
  }

  lemma MulNeg(a: real, b: real, p: real)
    requires a < 0.0 && b < 0.0 && p == a * b
    ensures p > 0.0
  {
  }

  lemma MulNonNeg(a: real, b: real, p: real)
    requires a >= 0.0 && b >= 0.0 && p == a * b
    ensures p >= 0.0
  {
  }

  /** A product of two non-negative numbers is positive exactly when both are. */
  lemma ProductSign(a: real, b: real, p: real)
    requires a >= 0.0 && b >= 0.0 && p == a * b
    ensures p >= 0.0
    ensures p > 0.0 <==> a > 0.0 && b > 0.0
  {
    if a > 0.0 && b > 0.0 {
      MulPos(a, b, p);
    } else if a == 0.0 {
      assert p == 0.0 * b;
    } else {
      assert p == a * 0.0;
    }
  }

  /** The sign of a square `p == m * m`. */
  lemma SquareSign(m: real, p: real)
    requires p == m * m
    ensures p >= 0.0
    ensures m != 0.0 ==> p > 0.0
    ensures m == 0.0 ==> p == 0.0
  {
    if m > 0.0 {
      MulPos(m, m, p);
    } else if m < 0.0 {
      MulNeg(m, m, p);
    }
  }

  /** For `b >= 0`, `a^2 <= b^2` bounds `a` by `b` in absolute value. */
  lemma SquareBound(a: real, b: real, aa: real, bb: real)
    requires aa == a * a && bb == b * b
    requires b >= 0.0 && aa <= bb
    ensures -b <= a <= b
  {
    if a > b {
      var p := (a - b) * (a + b);
      assert p == aa - bb;
      MulPos(a - b, a + b, p);
    } else if a < -b {
      var p := (-a - b) * (-a + b);
      assert p == aa - bb;
      MulPos(-a - b, -a + b, p);
    }
  }

  lemma DivMul(a: real, m: real)
    requires m != 0.0
    ensures a / m * m == a
  {
  }

  lemma DivSquare(a: real, m: real)
    requires m != 0.0
    ensures (a / m) * (a / m) * (m * m) == a * a
  {
    var q := a / m;
    assert q * m == a;
    assert (q * q) * (m * m) == (q * m) * (q * m);
  }

  /** `-m <= d <= m` with `m > 0` puts `d / m` in [-1, 1]. */
  lemma DivUnitBounds(d: real, m: real)
    requires m > 0.0 && -m <= d <= m
    ensures -1.0 <= d / m <= 1.0
  {
    var q := d / m;
    assert q * m == d;
    if q > 1.0 {
      MulPos(q - 1.0, m, (q - 1.0) * m);
    } else if q < -1.0 {
      MulPos(-1.0 - q, m, (-1.0 - q) * m);
    }
  }

  /** `0 <= p <= q` with `q > 0` puts `p / q` in [0, 1]. */
  lemma DivFraction(p: real, q: real)
    requires q > 0.0 && 0.0 <= p <= q
    ensures 0.0 <= p / q <= 1.0
  {
    var f := p / q;
    assert f * q == p;
    if f < 0.0 {
      MulPos(-f, q, -f * q);
    } else if f > 1.0 {
      MulPos(f - 1.0, q, (f - 1.0) * q);
    }
  }

  /** Comparing `u` with the ratio `q / p` is comparing `u * p` with `q`,
      the direction flipping with the sign of `p`. */
  lemma DivBound(p: real, q: real, u: real)
    requires p != 0.0
    ensures p < 0.0 ==> (q / p <= u <==> u * p <= q)
    ensures p > 0.0 ==> (u <= q / p <==> u * p <= q)
  {
    var r := q / p;
    assert r * p == q;
    assert u * p - q == (u - r) * p;
    if p < 0.0 {
      if u - r > 0.0 {
        MulPos(u - r, -p, (u - r) * -p);
      } else if u - r < 0.0 {
        MulNeg(u - r, p, (u - r) * p);
      }
    } else {
      if u - r > 0.0 {
        MulPos(u - r, p, (u - r) * p);
      } else if u - r < 0.0 {
        MulPos(r - u, p, (r - u) * p);
      }
    }
  }

  /** Following a line of slope `k` from (a0, b0) towards (a1, b1), the
      ordinate reached at any abscissa between a0 and a1 lies between b0
      and b1. */
  lemma Interpolate(a0: real, b0: real, a1: real, b1: real, a: real, k: real)
    requires a0 != a1 && k * (a1 - a0) == b1 - b0
    requires a0 <= a <= a1 || a1 <= a <= a0
    ensures b0 <= b1 ==> b0 <= k * (a - a0) + b0 <= b1
    ensures b1 <= b0 ==> b1 <= k * (a - a0) + b0 <= b0
  {
    var m := Offset(a0, b0, a1, b1, a, k);
  }

  /** The ordinate offset `k * (a - a0)` as a fraction of `b1 - b0`. */
  lemma Offset(a0: real, b0: real, a1: real, b1: real, a: real, k: real) returns (m: real)
    requires a0 != a1 && k * (a1 - a0) == b1 - b0
    requires a0 <= a <= a1 || a1 <= a <= a0
    ensures m == k * (a - a0)
    ensures b0 <= b1 ==> b0 <= b0 + m <= b1
    ensures b1 <= b0 ==> b1 <= b0 + m <= b0
  {
    var d := a - a0;
    var t := Fraction(a0, a1, a);
    m := t * (b1 - b0);
    assert k * d == m by {
      calc {
        k * d;
        k * (t * (a1 - a0));
        t * (k * (a1 - a0));
        m;
      }
    }
    BetweenEnds(b0, b1, t, m);
  }

  /** The position of `a` along [a0, a1] as a fraction in [0, 1]. */
  lemma Fraction(a0: real, a1: real, a: real) returns (t: real)
    requires a0 != a1
    requires a0 <= a <= a1 || a1 <= a <= a0
    ensures 0.0 <= t <= 1.0 && t * (a1 - a0) == a - a0
  {
    if a0 < a1 {
      t := (a - a0) / (a1 - a0);
      DivFraction(a - a0, a1 - a0);
    } else {
      t := (a0 - a) / (a0 - a1);
      DivFraction(a0 - a, a0 - a1);
      assert t * (a0 - a1) == a0 - a;
    }
  }

  /** `b0 + t * (b1 - b0)`, given as `b0 + m`, lies between b0 and b1. */
  lemma BetweenEnds(b0: real, b1: real, t: real, m: real)
    requires 0.0 <= t <= 1.0 && m == t * (b1 - b0)
    ensures b0 <= b1 ==> b0 <= b0 + m <= b1
    ensures b1 <= b0 ==> b1 <= b0 + m <= b0
  {
    if b0 <= b1 {
      MulNonNeg(t, b1 - b0, m);
      MulNonNeg(1.0 - t, b1 - b0, (1.0 - t) * (b1 - b0));
    } else {
      MulNonNeg(t, b0 - b1, t * (b0 - b1));
      MulNonNeg(1.0 - t, b0 - b1, (1.0 - t) * (b0 - b1));
    }
  }

  /** A non-zero common factor cancels. */
  lemma Cancel(a: real, b: real, c: real)
    requires c != 0.0 && a * c == b * c
    ensures a == b
  {
    assert (a - b) * c == 0.0;
    if a - b > 0.0 {
      if c > 0.0 { MulPos(a - b, c, (a - b) * c); } else { MulPos(a - b, -c, (a - b) * -c); }
    } else if a - b < 0.0 {
      if c > 0.0 { MulPos(b - a, c, (b - a) * c); } else { MulNeg(a - b, c, (a - b) * c); }
    }
  }

  /** `Interpolate` for two end ordinates in [lo, hi]. */
  lemma InterpolateWithin(a0: real, b0: real, a1: real, b1: real, a: real, k: real, lo: real, hi: real)
    requires a0 != a1 && k * (a1 - a0) == b1 - b0
    requires a0 <= a <= a1 || a1 <= a <= a0
    requires lo <= b0 <= hi && lo <= b1 <= hi
    ensures lo <= k * (a - a0) + b0 <= hi
  {
    var m := Offset(a0, b0, a1, b1, a, k);
  }
}
