/**
  Ordinary least-squares fit of a series `y` against a time axis `x`:
  the slope of the regression line and the coefficient of determination
  r², each with the guard against a (near-)zero spread that keeps them
  finite.

  Arithmetic is exact (`real`). The guard threshold is the double-precision
  machine epsilon, written out exactly.
 */
module Regression {
  import opened Stats

  /** The machine epsilon of IEEE-754 double precision, 2^-52. */
  const EPS: real := 1.0 / 4503599627370496.0

  function Abs(v: real): (a: real)
    ensures a >= 0.0 && (a == v || a == -v)
  {
    if v < 0.0 then -v else v
  }

  /** The pair a fit returns: the slope and r². */
  datatype Fit = Fit(slope: real, r2: real)

  /**
    The spread of `s` is too small to divide by. An empty series has no
    spread at all: its sum of squared deviations is the empty sum 0.
   */
  predicate Flat(s: seq<real>) {
    |s| == 0 || Abs(Sxx(s)) < EPS
  }

  /**
    Least-squares fit of `y` against `x`.

    The slope is Sxy / Sxx, or 0 when the spread of `x` is below EPS;
    r² is the squared correlation Sxy² / (Sxx · Syy), or 0 when either
    spread is below EPS. Taking the square root of Sxx · Syy and squaring
    the quotient again is exact over the reals, so r² is written without
    the root.
   */
  function LinearRegression(x: seq<real>, y: seq<real>): (f: Fit)
    requires |x| == |y|
    ensures 0.0 <= f.r2 <= 1.0
    ensures Flat(x) ==> f.slope == 0.0
    ensures !Flat(x) ==> f.slope * Sxx(x) == Sxy(x, y)
    ensures Flat(x) || Flat(y) ==> f.r2 == 0.0
  {
    var slope := if Flat(x) then 0.0 else Sxy(x, y) / Sxx(x);
    var r2 := if Flat(x) || Flat(y) then 0.0 else SquaredCorrelation(x, y);
    Fit(slope, r2)
  }

  /**
    The squared correlation coefficient r² = Sxy² / (Sxx · Syy) of two
    series with spread. By Cauchy–Schwarz it lies in [0, 1].
   */
  function SquaredCorrelation(x: seq<real>, y: seq<real>): (r2: real)
    requires |x| == |y| > 0 && !Flat(x) && !Flat(y)
    ensures 0.0 <= r2 <= 1.0
    ensures r2 * (Sxx(x) * Sxx(y)) == Sxy(x, y) * Sxy(x, y)
  {
    SxxNonNegative(x);
    SxxNonNegative(y);
    MomentBounds(x, y);
    UnitRatio(Sxy(x, y), Sxx(x), Sxx(y));
    Sxy(x, y) * Sxy(x, y) / (Sxx(x) * Sxx(y))
  }

  lemma UnitRatio(s: real, a: real, b: real)
    requires s * s <= a * b && a > 0.0 && b > 0.0
    ensures 0.0 <= s * s / (a * b) <= 1.0
  {
    SquareNonNegative(s);
    assert a * b > 0.0;
  }

  /**
    The fit as the source computes it: two summing passes for the means,
    one pass accumulating the three sums of deviation products, then the
    guarded divisions. It returns exactly `LinearRegression(x, y)`.
   */
  method LinearRegressionLoop(x: seq<real>, y: seq<real>) returns (slope: real, r2: real)
    requires |x| == |y|
    ensures Fit(slope, r2) == LinearRegression(x, y)
  {
    var n := |x| as real;
    var sumX := SumLoop(x);
    var sumY := SumLoop(y);
    // For empty input the means are 0 / 0; the loop below never reads them.
    var xMean := if n == 0.0 then 0.0 else sumX / n;
    var yMean := if n == 0.0 then 0.0 else sumY / n;

    var ssXY, ssXX, ssYY := DeviationSums(x, y, xMean, yMean);
    slope := if Abs(ssXX) < EPS then 0.0 else ssXY / ssXX;
    r2 := if Abs(ssXX) < EPS || Abs(ssYY) < EPS then 0.0 else ssXY * ssXY / (ssXX * ssYY);
    if |x| > 0 {
      FitFromSums(x, y, ssXY, ssXX, ssYY);
    }
  }

  /** The guarded divisions on the three deviation sums reproduce the fit. */
  lemma FitFromSums(x: seq<real>, y: seq<real>, sxy: real, sxx: real, syy: real)
    requires |x| == |y| > 0 && sxy == Sxy(x, y) && sxx == Sxx(x) && syy == Sxx(y)
    ensures LinearRegression(x, y)
            == Fit(if Abs(sxx) < EPS then 0.0 else sxy / sxx,
                   if Abs(sxx) < EPS || Abs(syy) < EPS then 0.0 else sxy * sxy / (sxx * syy))
  {
    assert Flat(x) <==> Abs(sxx) < EPS;
    assert Flat(y) <==> Abs(syy) < EPS;
    if !Flat(x) && !Flat(y) {
      assert SquaredCorrelation(x, y) == sxy * sxy / (sxx * syy);
    }
  }

  /** One pass accumulating Σ dx·dy, Σ dx² and Σ dy² about the given centres. */
  method DeviationSums(x: seq<real>, y: seq<real>, xMean: real, yMean: real)
    returns (ssXY: real, ssXX: real, ssYY: real)
    requires |x| == |y|
    ensures ssXY == Dot(Centred(x, xMean), Centred(y, yMean))
    ensures ssXX == Dot(Centred(x, xMean), Centred(x, xMean))
    ensures ssYY == Dot(Centred(y, yMean), Centred(y, yMean))
  {
    ssXY, ssXX, ssYY := 0.0, 0.0, 0.0;
    var i := 0;
    while i < |x|
      invariant 0 <= i <= |x|
      invariant ssXY == Dot(Centred(x, xMean)[..i], Centred(y, yMean)[..i])
      invariant ssXX == Dot(Centred(x, xMean)[..i], Centred(x, xMean)[..i])
      invariant ssYY == Dot(Centred(y, yMean)[..i], Centred(y, yMean)[..i])
    {
      var dx := x[i] - xMean;
      var dy := y[i] - yMean;
      CentredStep(x, y, xMean, yMean, i);
      CentredStep(x, x, xMean, xMean, i);
      CentredStep(y, y, yMean, yMean, i);
      ssXY := ssXY + dx * dy;
      ssXX := ssXX + dx * dx;
      ssYY := ssYY + dy * dy;
      i := i + 1;
    }
    assert Centred(x, xMean)[..|x|] == Centred(x, xMean);
    assert Centred(y, yMean)[..|x|] == Centred(y, yMean);
  }

  /** Front-to-back summation, as an iterator sum does it. */
  method SumLoop(s: seq<real>) returns (total: real)
    ensures total == Sum(s)
  {
    total := 0.0;
    var i := 0;
    while i < |s|
      invariant 0 <= i <= |s|
      invariant total == Sum(s[..i])
    {
      SumStep(s, i);
      total := total + s[i];
      i := i + 1;
    }
    assert s[..|s|] == s;
  }

  // ---------------------------------------------------------------------
  // What the fit means
  // ---------------------------------------------------------------------

  /**
    Σ ((y[i] - ȳ) - t (x[i] - x̄))²: the squared residuals of `y` about the
    line of slope `t` through the centroid (x̄, ȳ).
   */
  function ResidualSquares(x: seq<real>, y: seq<real>, t: real): real
    requires |x| == |y| > 0
  {
    var r := Residuals(Centred(x, Mean(x)), Centred(y, Mean(y)), t);
    Dot(r, r)
  }

  /** No line through the centroid fits `y` with smaller squared residuals than the fitted slope. */
  lemma LeastSquares(x: seq<real>, y: seq<real>, t: real)
    requires |x| == |y| > 0 && !Flat(x)
    ensures ResidualSquares(x, y, LinearRegression(x, y).slope) <= ResidualSquares(x, y, t)
  {
    SxxNonNegative(x);
    var m := LinearRegression(x, y).slope;
    LeastSquaresCentred(Centred(x, Mean(x)), Centred(y, Mean(y)), m, t);
  }

  lemma LeastSquaresCentred(dx: seq<real>, dy: seq<real>, m: real, t: real)
    requires |dx| == |dy| && Dot(dx, dx) > 0.0 && m * Dot(dx, dx) == Dot(dx, dy)
    ensures var rm, rt := Residuals(dx, dy, m), Residuals(dx, dy, t);
            Dot(rm, rm) <= Dot(rt, rt)
  {
    ResidualsExpand(dx, dy, m);
    ResidualsExpand(dx, dy, t);
    VertexMinimum(Dot(dx, dx), Dot(dx, dy), Dot(dy, dy), m, t);
  }

  /** A quadratic with positive leading coefficient is smallest at its vertex. */
  lemma VertexMinimum(aa: real, ab: real, bb: real, m: real, t: real)
    requires aa > 0.0 && m * aa == ab
    ensures Quadratic(aa, ab, bb, m) <= Quadratic(aa, ab, bb, t)
  {
    assert Quadratic(aa, ab, bb, t) - Quadratic(aa, ab, bb, m) == (t - m) * (t - m) * aa;
    SquareNonNegative(t - m);
  }

  /**
    r² is the fraction of the spread of `y` that the fitted line explains:
    r² · Syy = Syy - Σ residual², that is r² = 1 - RSS / Syy.
   */
  lemma ExplainedVariance(x: seq<real>, y: seq<real>)
    requires |x| == |y| > 0 && !Flat(x) && !Flat(y)
    ensures var f := LinearRegression(x, y);
            f.r2 * Sxx(y) == Sxx(y) - ResidualSquares(x, y, f.slope)
  {
    SxxNonNegative(x);
    SxxNonNegative(y);
    var f := LinearRegression(x, y);
    ResidualsExpand(Centred(x, Mean(x)), Centred(y, Mean(y)), f.slope);
    ExplainedFraction(Sxx(x), Sxy(x, y), Sxx(y), f.slope, ResidualSquares(x, y, f.slope));
  }

  lemma ExplainedFraction(aa: real, ab: real, bb: real, m: real, q: real)
    requires aa > 0.0 && bb > 0.0 && m * aa == ab
    requires q == Quadratic(aa, ab, bb, m)
    ensures ab * ab / (aa * bb) * bb == bb - q
  {
    assert m == ab / aa;
    assert q == bb - ab * ab / aa;
  }

  // ---------------------------------------------------------------------
  // Degenerate and exact data
  // ---------------------------------------------------------------------

  /** When every sample has the same time stamp there is no trend to fit: slope 0 and r² 0. */
  lemma ConstantTime(x: seq<real>, y: seq<real>, c: real)
    requires |x| == |y| > 0 && Constant(x, c)
    ensures Flat(x)
    ensures LinearRegression(x, y) == Fit(0.0, 0.0)
  {
    assert OnLine(x, x, 0.0, c);
    AffineMoments(x, x, x, 0.0, c);
  }

  /** A series that never changes has slope 0 and r² 0, whatever the time axis. */
  lemma ConstantSeries(x: seq<real>, y: seq<real>, c: real)
    requires |x| == |y| > 0 && Constant(y, c)
    ensures Flat(y)
    ensures LinearRegression(x, y) == Fit(0.0, 0.0)
  {
    assert OnLine(y, x, 0.0, c);
    AffineMoments(x, x, y, 0.0, c);
  }

  /**
    Data lying exactly on the line m·x + k give back the slope m; r² is 1
    unless the spread of y, m²·Sxx, falls below EPS, and then it is 0.
   */
  lemma ExactLine(x: seq<real>, y: seq<real>, m: real, k: real)
    requires |x| > 0 && OnLine(y, x, m, k) && !Flat(x)
    ensures Sxx(y) == m * m * Sxx(x)
    ensures LinearRegression(x, y).slope == m
    ensures LinearRegression(x, y).r2 == 1.0 <==> !Flat(y)
    ensures Flat(y) <==> LinearRegression(x, y).r2 == 0.0
  {
    AffineMoments(x, x, y, m, k);
    SxxNonNegative(x);
    RecoveredSlope(Sxx(x), Sxy(x, x), m, Sxy(x, y));
    if !Flat(y) {
      PerfectCorrelation(SquaredCorrelation(x, y), Sxx(x), Sxy(x, x), m, Sxy(x, y), Sxx(y));
    }
  }

  lemma RecoveredSlope(a: real, a': real, m: real, s: real)
    requires a > 0.0 && a' == a && s == m * a'
    ensures s / a == m
  {
  }

  lemma PerfectCorrelation(r: real, a: real, a': real, m: real, s: real, b: real)
    requires a > 0.0 && a' == a && s == m * a' && b == m * m * a && b != 0.0
    requires r * (a * b) == s * s
    ensures r == 1.0
  {
    assert s * s == a * b;
  }

  /**
    Replacing the series by an affine image c·y + k (a change of unit, an
    offset) multiplies the slope by c.
   */
  lemma AffineSlope(x: seq<real>, y: seq<real>, z: seq<real>, c: real, k: real)
    requires |x| == |y| > 0 && OnLine(z, y, c, k)
    ensures LinearRegression(x, z).slope == c * LinearRegression(x, y).slope
  {
    AffineMoments(x, y, z, c, k);
    if !Flat(x) {
      ScaledQuotient(Sxy(x, z), Sxy(x, y), Sxx(x), c);
    }
  }

  lemma ScaledQuotient(p: real, q: real, a: real, c: real)
    requires a != 0.0 && p == c * q
    ensures p / a == c * (q / a)
  {
  }

  /** An affine image c·y + k of a series has the same r² as long as neither series is flat. */
  lemma AffineCorrelation(x: seq<real>, y: seq<real>, z: seq<real>, c: real, k: real)
    requires |x| == |y| > 0 && OnLine(z, y, c, k) && !Flat(y) && !Flat(z)
    ensures LinearRegression(x, z).r2 == LinearRegression(x, y).r2
  {
    if !Flat(x) {
      AffineMoments(x, y, z, c, k);
      ScaledCorrelation(SquaredCorrelation(x, z), SquaredCorrelation(x, y), Sxy(x, z), Sxy(x, y), Sxx(x), Sxx(z), Sxx(y), c);
    }
  }

  lemma ScaledCorrelation(rz: real, ry: real, p: real, q: real, a: real, bz: real, b: real, c: real)
    requires a != 0.0 && b != 0.0 && bz != 0.0 && p == c * q && bz == c * c * b
    requires rz * (a * bz) == p * p && ry * (a * b) == q * q
    ensures rz == ry
  {
    assert c * c != 0.0;
    assert rz * (a * bz) == (c * c) * (rz * (a * b));
    assert p * p == (c * c) * (q * q);
    assert rz * (a * b) == q * q;
  }
}
