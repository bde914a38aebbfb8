/**
  Finite sums, means and centred inner products over sequences of reals:
  the quantities an ordinary-least-squares fit is built from.

  Every sum is accumulated from the front, one element at a time, in the
  order an iterator sum or an index loop visits the elements. A sum of
  products is the inner product `Dot` of two sequences; deviations from a
  mean are the sequence `Centred(s, m)`.
 */
module Stats {

  /** Sum of the elements of `s`. */
  function Sum(s: seq<real>): real
    decreases |s|
  {
    if |s| == 0 then 0.0 else Sum(s[..|s| - 1]) + s[|s| - 1]
  }

  /** Arithmetic mean of a non-empty sequence. */
  function Mean(s: seq<real>): real
    requires |s| > 0
  {
    Sum(s) / (|s| as real)
  }

  /** Σ a[i] * b[i]. */
  function Dot(a: seq<real>, b: seq<real>): real
    requires |a| == |b|
  {
    DotRec(a, b)
  }

  // The recursion behind `Dot`. `Dot` itself is not recursive, so a `Dot`
  // term stands for one value wherever it occurs, also inside a product.
  function DotRec(a: seq<real>, b: seq<real>): real
    requires |a| == |b|
    decreases |a|
  {
    if |a| == 0 then 0.0 else DotRec(a[..|a| - 1], b[..|a| - 1]) + a[|a| - 1] * b[|a| - 1]
  }

  /** The deviations s[i] - m. */
  function Centred(s: seq<real>, m: real): (d: seq<real>)
    ensures |d| == |s|
    ensures forall i :: 0 <= i < |s| ==> d[i] == s[i] - m
  {
    seq(|s|, i requires 0 <= i < |s| => s[i] - m)
  }

  /** The elementwise multiple c * s[i]. */
  function Scale(s: seq<real>, c: real): (r: seq<real>)
    ensures |r| == |s|
    ensures forall i :: 0 <= i < |s| ==> r[i] == c * s[i]
  {
    seq(|s|, i requires 0 <= i < |s| => c * s[i])
  }

  /** The elementwise difference u[i] - v[i]. */
  function Minus(u: seq<real>, v: seq<real>): (r: seq<real>)
    requires |u| == |v|
    ensures |r| == |u|
    ensures forall i :: 0 <= i < |u| ==> r[i] == u[i] - v[i]
  {
    seq(|u|, i requires 0 <= i < |u| => u[i] - v[i])
  }

  /** Co-deviation Σ (x[i] - x̄)(y[i] - ȳ) of `x` and `y` about their own means. */
  function Sxy(x: seq<real>, y: seq<real>): real
    requires |x| == |y| > 0
  {
    Dot(Centred(x, Mean(x)), Centred(y, Mean(y)))
  }

  /** Sum of squared deviations Σ (s[i] - s̄)² (Sxx, or Syy for the y axis). */
  function Sxx(s: seq<real>): real
    requires |s| > 0
  {
    Dot(Centred(s, Mean(s)), Centred(s, Mean(s)))
  }

  /** Every element of `s` equals `c`. */
  predicate Constant(s: seq<real>, c: real) {
    forall i :: 0 <= i < |s| ==> s[i] == c
  }

  /** `y` lies exactly on the line `m * x + k`, element by element. */
  predicate OnLine(y: seq<real>, x: seq<real>, m: real, k: real) {
    |y| == |x| && forall i :: 0 <= i < |x| ==> y[i] == m * x[i] + k
  }

  // ---------------------------------------------------------------------
  // One step of the front-to-back accumulation
  // ---------------------------------------------------------------------

  lemma SumStep(s: seq<real>, i: nat)
    requires i < |s|
    ensures Sum(s[..i + 1]) == Sum(s[..i]) + s[i]
  {
    assert s[..i + 1][..i] == s[..i];
  }

  lemma DotStep(a: seq<real>, b: seq<real>, i: nat)
    requires |a| == |b| && i < |a|
    ensures Dot(a[..i + 1], b[..i + 1]) == Dot(a[..i], b[..i]) + a[i] * b[i]
  {
    assert a[..i + 1][..i] == a[..i];
    assert b[..i + 1][..i] == b[..i];
  }

  /** One step of the inner product of two deviation sequences. */
  lemma CentredStep(x: seq<real>, y: seq<real>, mx: real, my: real, i: nat)
    requires |x| == |y| && i < |x|
    ensures Dot(Centred(x, mx)[..i + 1], Centred(y, my)[..i + 1])
            == Dot(Centred(x, mx)[..i], Centred(y, my)[..i]) + (x[i] - mx) * (y[i] - my)
  {
    DotStep(Centred(x, mx), Centred(y, my), i);
  }

  lemma DotLast(a: seq<real>, b: seq<real>)
    requires |a| == |b| > 0
    ensures Dot(a, b) == Dot(a[..|a| - 1], b[..|a| - 1]) + a[|a| - 1] * b[|a| - 1]
  {
  }

  // ---------------------------------------------------------------------
  // Means
  // ---------------------------------------------------------------------

  lemma {:induction false} SumOnLine(y: seq<real>, x: seq<real>, m: real, k: real)
    requires OnLine(y, x, m, k)
    ensures Sum(y) == m * Sum(x) + k * (|x| as real)
    decreases |x|
  {
    if |x| > 0 {
      var n := |x| - 1;
      assert OnLine(y[..n], x[..n], m, k);
      SumOnLine(y[..n], x[..n], m, k);
      AffineStep(Sum(y), Sum(y[..n]), y[n], Sum(x), Sum(x[..n]), x[n], m, k, n as real);
    }
  }

  lemma AffineStep(sy: real, sy0: real, yn: real, sx: real, sx0: real, xn: real, m: real, k: real, n: real)
    requires sy == sy0 + yn && sx == sx0 + xn
    requires sy0 == m * sx0 + k * n && yn == m * xn + k
    ensures sy == m * sx + k * (n + 1.0)
  {
  }

  /** The mean commutes with an affine map of the data. */
  lemma MeanOnLine(y: seq<real>, x: seq<real>, m: real, k: real)
    requires |x| > 0 && OnLine(y, x, m, k)
    ensures Mean(y) == m * Mean(x) + k
  {
    SumOnLine(y, x, m, k);
    DivideAffine(Sum(y), Sum(x), m, k, |x| as real);
  }

  lemma DivideAffine(sy: real, sx: real, m: real, k: real, n: real)
    requires n > 0.0 && sy == m * sx + k * n
    ensures sy / n == m * (sx / n) + k
  {
  }

  /** The mean of a constant sequence is that constant. */
  lemma MeanConstant(s: seq<real>, c: real)
    requires |s| > 0 && Constant(s, c)
    ensures Mean(s) == c
  {
    assert OnLine(s, s, 0.0, c);
    MeanOnLine(s, s, 0.0, c);
  }

  /** Deviations of an affine image `c * y + k` are the deviations of `y` scaled by `c`. */
  lemma CentredOnLine(z: seq<real>, y: seq<real>, c: real, k: real)
    requires |y| > 0 && OnLine(z, y, c, k)
    ensures Centred(z, Mean(z)) == Scale(Centred(y, Mean(y)), c)
  {
    MeanOnLine(z, y, c, k);
    forall i | 0 <= i < |y|
      ensures Centred(z, Mean(z))[i] == Scale(Centred(y, Mean(y)), c)[i]
    {
      LinearDeviation(z[i], y[i], Mean(z), Mean(y), c, k);
    }
  }

  lemma LinearDeviation(zi: real, yi: real, mz: real, my: real, c: real, k: real)
    requires zi == c * yi + k && mz == c * my + k
    ensures zi - mz == c * (yi - my)
  {
  }

  // ---------------------------------------------------------------------
  // Bilinearity of Dot
  // ---------------------------------------------------------------------

  lemma {:induction false} DotSymmetric(a: seq<real>, b: seq<real>)
    requires |a| == |b|
    ensures Dot(a, b) == Dot(b, a)
    decreases |a|
  {
    if |a| > 0 {
      var n := |a| - 1;
      DotSymmetric(a[..n], b[..n]);
    }
  }

  /** A prefix of a scaled sequence is the scaled prefix. */
  lemma ScalePrefix(v: seq<real>, c: real, n: nat)
    requires n <= |v|
    ensures Scale(v, c)[..n] == Scale(v[..n], c)
  {
    assert forall i | 0 <= i < n :: Scale(v, c)[..n][i] == Scale(v[..n], c)[i];
  }

  /**
    The product c * v as a named function. Two products whose factors are
    provably, but not syntactically, equal are then equal by congruence,
    which keeps the proofs below free of non-linear reasoning.
   */
  function Times(c: real, v: real): real {
    c * v
  }

  /** Scaling one side of an inner product scales the product. */
  lemma {:induction false} DotScaled(u: seq<real>, v: seq<real>, c: real)
    requires |u| == |v|
    ensures Dot(u, Scale(v, c)) == Times(c, Dot(u, v))
    decreases |u|
  {
    if |u| > 0 {
      var n := |u| - 1;
      var sv := Scale(v, c);
      DotLast(u, sv);
      DotLast(u, v);
      ScalePrefix(v, c, n);
      DotScaled(u[..n], v[..n], c);
      ScaleStep(Dot(u, sv), Dot(u[..n], sv[..n]), Dot(u, v), Dot(u[..n], v[..n]), u[n], v[n], sv[n], c);
    }
  }

  /** One accumulation step of a sum that is `c` times another. */
  lemma ScaleStep(s: real, s0: real, d: real, d0: real, un: real, vn: real, wn: real, c: real)
    requires s == s0 + un * wn && d == d0 + un * vn
    requires s0 == Times(c, d0) && wn == c * vn
    ensures s == Times(c, d)
  {
  }

  lemma DotScaleBoth(a: seq<real>, c: real)
    ensures Dot(Scale(a, c), Scale(a, c)) == c * c * Dot(a, a)
  {
    var sa := Scale(a, c);
    DotScaled(sa, a, c);  // Σ sa·sa = c·Σ sa·a
    DotSymmetric(sa, a);
    DotScaled(a, a, c);   // Σ a·sa  = c·Σ a·a
    TimesTwice(c, Dot(a, a));
  }

  lemma TimesTwice(c: real, d: real)
    ensures Times(c, Times(c, d)) == c * c * d
  {
  }

  lemma {:induction false} DotMinusLeft(u: seq<real>, v: seq<real>, w: seq<real>)
    requires |u| == |v| == |w|
    ensures Dot(Minus(u, v), w) == Dot(u, w) - Dot(v, w)
    decreases |u|
  {
    if |u| > 0 {
      var n := |u| - 1;
      assert Minus(u, v)[..n] == Minus(u[..n], v[..n]);
      DotMinusLeft(u[..n], v[..n], w[..n]);
      assert (u[n] - v[n]) * w[n] == u[n] * w[n] - v[n] * w[n];
    }
  }

  lemma {:induction false} DotMinusRight(w: seq<real>, u: seq<real>, v: seq<real>)
    requires |u| == |v| == |w|
    ensures Dot(w, Minus(u, v)) == Dot(w, u) - Dot(w, v)
    decreases |u|
  {
    if |u| > 0 {
      var n := |u| - 1;
      assert Minus(u, v)[..n] == Minus(u[..n], v[..n]);
      DotMinusRight(w[..n], u[..n], v[..n]);
      assert w[n] * (u[n] - v[n]) == w[n] * u[n] - w[n] * v[n];
    }
  }

  /** A sum of squares is never negative. */
  lemma {:induction false} DotSelfNonNegative(a: seq<real>)
    ensures Dot(a, a) >= 0.0
    decreases |a|
  {
    if |a| > 0 {
      var n := |a| - 1;
      DotSelfNonNegative(a[..n]);
      SquareNonNegative(a[n]);
    }
  }

  lemma SquareNonNegative(e: real)
    ensures e * e >= 0.0
  {
    if e < 0.0 {
      assert e * e == (-e) * (-e);
    }
  }

  // ---------------------------------------------------------------------
  // Residuals of a line through the centroid, and Cauchy–Schwarz
  // ---------------------------------------------------------------------

  /** The residuals b[i] - t * a[i] of the line of slope `t` through the origin of the deviations. */
  function Residuals(a: seq<real>, b: seq<real>, t: real): (r: seq<real>)
    requires |a| == |b|
    ensures |r| == |a|
  {
    Minus(b, Scale(a, t))
  }

  /** The quadratic t²·aa − 2t·ab + bb in the slope `t`. */
  function Quadratic(aa: real, ab: real, bb: real, t: real): real {
    t * t * aa - 2.0 * t * ab + bb
  }

  /** The squared residuals of slope `t` are the quadratic t²·Σa² − 2t·Σab + Σb². */
  lemma ResidualsExpand(a: seq<real>, b: seq<real>, t: real)
    requires |a| == |b|
    ensures var r := Residuals(a, b, t);
            Dot(r, r) == Quadratic(Dot(a, a), Dot(a, b), Dot(b, b), t)
  {
    var ta := Scale(a, t);
    SquareOfDifference(b, ta);
    DotScaled(b, a, t);  // Σ b·ta = t·Σ b·a
    DotSymmetric(b, a);
    DotScaleBoth(a, t);  // Σ ta·ta = t²·Σ a·a
    CollectQuadratic(Dot(Minus(b, ta), Minus(b, ta)), Dot(b, b), Dot(b, ta), Dot(ta, ta), t, Dot(a, b), Dot(a, a));
  }

  /** Σ (u − v)² = Σu² − 2·Σuv + Σv². */
  lemma SquareOfDifference(u: seq<real>, v: seq<real>)
    requires |u| == |v|
    ensures Dot(Minus(u, v), Minus(u, v)) == Dot(u, u) - 2.0 * Dot(u, v) + Dot(v, v)
  {
    var r := Minus(u, v);
    DotMinusLeft(u, v, r);   // Σ r·r = Σ u·r − Σ v·r
    DotMinusRight(u, u, v);  // Σ u·r = Σ u·u − Σ u·v
    DotMinusRight(v, u, v);  // Σ v·r = Σ v·u − Σ v·v
    DotSymmetric(v, u);
  }

  lemma CollectQuadratic(rr: real, bb: real, p: real, q: real, t: real, ab: real, aa: real)
    requires rr == bb - 2.0 * p + q && p == Times(t, ab) && q == t * t * aa
    ensures rr == Quadratic(aa, ab, bb, t)
  {
  }

  /** Cauchy–Schwarz: (Σab)² ≤ Σa² · Σb². */
  lemma CauchySchwarz(a: seq<real>, b: seq<real>)
    requires |a| == |b|
    ensures Dot(a, b) * Dot(a, b) <= Dot(a, a) * Dot(b, b)
  {
    DotSelfNonNegative(a);
    DotSelfNonNegative(b);
    var t := TestSlope(Dot(a, a), Dot(a, b), Dot(b, b));
    ResidualsExpand(a, b, t);
    DotSelfNonNegative(Residuals(a, b, t));
    DiscriminantBound(Dot(a, a), Dot(a, b), Dot(b, b), t, Dot(Residuals(a, b, t), Residuals(a, b, t)));
  }

  /** The slope at which the residual quadratic is evaluated: its vertex, or a point that makes it negative if the data are degenerate. */
  function TestSlope(aa: real, ab: real, bb: real): real {
    if aa != 0.0 then ab / aa else if ab == 0.0 then 0.0 else (bb + 1.0) / (2.0 * ab)
  }

  /**
    A quadratic t²·A − 2t·C + B that is non-negative at the chosen point
    (its vertex C/A, or a point that makes it −1 when A is zero) has
    discriminant C² − A·B ≤ 0.
   */
  lemma DiscriminantBound(aa: real, ab: real, bb: real, t: real, q: real)
    requires aa >= 0.0 && bb >= 0.0
    requires t == TestSlope(aa, ab, bb)
    requires q == Quadratic(aa, ab, bb, t) && q >= 0.0
    ensures ab * ab <= aa * bb
  {
    if aa == 0.0 {
      if ab != 0.0 {
        assert false;
      }
    } else {
      assert t * aa == ab;
      assert t * t * aa == t * ab;
      assert bb >= t * ab;
      assert aa * bb >= aa * (t * ab);
      assert aa * (t * ab) == ab * ab;
    }
  }

  // ---------------------------------------------------------------------
  // Centred moments
  // ---------------------------------------------------------------------

  /** A sum of squared deviations is never negative. */
  lemma SxxNonNegative(s: seq<real>)
    requires |s| > 0
    ensures Sxx(s) >= 0.0
  {
    DotSelfNonNegative(Centred(s, Mean(s)));
  }

  /** Sxy² never exceeds Sxx · Syy. */
  lemma MomentBounds(x: seq<real>, y: seq<real>)
    requires |x| == |y| > 0
    ensures Sxy(x, y) * Sxy(x, y) <= Sxx(x) * Sxx(y)
  {
    CentredCauchySchwarz(x, y, Mean(x), Mean(y));
  }

  // The lemmas below take the centres as parameters: a mean in the
  // context brings its division into every product the solver sees.

  lemma CentredCauchySchwarz(x: seq<real>, y: seq<real>, mx: real, my: real)
    requires |x| == |y|
    ensures Dot(Centred(x, mx), Centred(y, my)) * Dot(Centred(x, mx), Centred(y, my))
            <= Dot(Centred(x, mx), Centred(x, mx)) * Dot(Centred(y, my), Centred(y, my))
  {
    CauchySchwarz(Centred(x, mx), Centred(y, my));
  }

  /**
    Replacing `y` by the affine image `z = c * y + k` multiplies its
    co-deviation with any `x` by `c` and its own sum of squares by c².
   */
  lemma AffineMoments(x: seq<real>, y: seq<real>, z: seq<real>, c: real, k: real)
    requires |x| == |y| > 0 && OnLine(z, y, c, k)
    ensures Sxy(x, z) == c * Sxy(x, y)
    ensures Sxx(z) == c * c * Sxx(y)
  {
    CentredOnLine(z, y, c, k);
    DotScaled(Centred(x, Mean(x)), Centred(y, Mean(y)), c);
    DotScaled(Centred(z, Mean(z)), Centred(y, Mean(y)), c);
    DotSymmetric(Centred(z, Mean(z)), Centred(y, Mean(y)));
    DotScaled(Centred(y, Mean(y)), Centred(y, Mean(y)), c);
    TimesTwice(c, Sxx(y));
  }

  // ---------------------------------------------------------------------
  // A spread in the data bounds the sum of squares from below
  // ---------------------------------------------------------------------

  lemma {:induction false} SquaresAtLeastOneTerm(a: seq<real>, i: nat)
    requires i < |a|
    ensures Dot(a, a) >= a[i] * a[i]
    decreases |a|
  {
    var n := |a| - 1;
    SquareNonNegative(a[n]);
    DotLast(a, a);
    if i == n {
      DotSelfNonNegative(a[..n]);
    } else {
      assert a[..n][i] == a[i];
      SquaresAtLeastOneTerm(a[..n], i);
    }
  }

  lemma {:induction false} SquaresAtLeastTwoTerms(a: seq<real>, i: nat, j: nat)
    requires i < j < |a|
    ensures Dot(a, a) >= a[i] * a[i] + a[j] * a[j]
    decreases |a|
  {
    var n := |a| - 1;
    SquareNonNegative(a[n]);
    DotLast(a, a);
    assert a[..n][i] == a[i];
    if j == n {
      SquaresAtLeastOneTerm(a[..n], i);
    } else {
      assert a[..n][j] == a[j];
      SquaresAtLeastTwoTerms(a[..n], i, j);
    }
  }

  /** Two samples `d` apart force Sxx ≥ d²/2, so spread-out data keeps Sxx away from zero. */
  lemma SpreadBound(x: seq<real>, i: nat, j: nat)
    requires i < j < |x|
    ensures 2.0 * Sxx(x) >= (x[i] - x[j]) * (x[i] - x[j])
  {
    var d := Centred(x, Mean(x));
    SquaresAtLeastTwoTerms(d, i, j);
    TwoSquares(d[i], d[j], x[i] - x[j]);
  }

  lemma TwoSquares(p: real, q: real, d: real)
    requires d == p - q
    ensures 2.0 * (p * p + q * q) >= d * d
  {
    assert 2.0 * (p * p + q * q) - d * d == (p + q) * (p + q);
    SquareNonNegative(p + q);
  }
}
