/**
  The fit on the two small data sets its unit tests use: five points on
  the line y = 2x + 1, and the same time axis with noisy readings.
 */
module RegressionExamples {
  import opened Stats
  import opened Regression

  /** Five points on y = 2x + 1 give slope 2 and r² = 1. */
  lemma PerfectLine()
    ensures LinearRegression([0.0, 1.0, 2.0, 3.0, 4.0], [1.0, 3.0, 5.0, 7.0, 9.0]) == Fit(2.0, 1.0)
  {
    var x, y := [0.0, 1.0, 2.0, 3.0, 4.0], [1.0, 3.0, 5.0, 7.0, 9.0];
    assert OnLine(y, x, 2.0, 1.0);
    SpreadBound(x, 0, 4);
    ExactLine(x, y, 2.0, 1.0);
  }

  /** Readings scattered about y = 2x + 1 still give slope 2; r² = 400/407, above 0.95. */
  lemma NoisyLine()
    ensures LinearRegression([0.0, 1.0, 2.0, 3.0, 4.0], [1.0, 2.5, 5.5, 6.5, 9.0]) == Fit(2.0, 400.0 / 407.0)
    ensures 400.0 / 407.0 > 0.95
  {
    var x, y := [0.0, 1.0, 2.0, 3.0, 4.0], [1.0, 2.5, 5.5, 6.5, 9.0];
    SumOfFive(0.0, 1.0, 2.0, 3.0, 4.0);
    SumOfFive(1.0, 2.5, 5.5, 6.5, 9.0);
    var dx, dy := [-2.0, -1.0, 0.0, 1.0, 2.0], [-3.9, -2.4, 0.6, 1.6, 4.1];
    assert Centred(x, Mean(x)) == dx;
    assert Centred(y, Mean(y)) == dy;
    DotOfFive(dx, dx);
    DotOfFive(dx, dy);
    DotOfFive(dy, dy);
    assert Sxx(x) == 10.0 && Sxy(x, y) == 20.0 && Sxx(y) == 40.7;
    assert !Flat(x) && !Flat(y);
    assert SquaredCorrelation(x, y) == 400.0 / 407.0;
  }

  lemma SumOfFive(a: real, b: real, c: real, d: real, e: real)
    ensures Sum([a, b, c, d, e]) == a + b + c + d + e
  {
    var s := [a, b, c, d, e];
    assert s[..0] == [];
    SumStep(s, 0);
    SumStep(s, 1);
    SumStep(s, 2);
    SumStep(s, 3);
    SumStep(s, 4);
    assert s[..5] == s;
  }

  lemma DotOfFive(u: seq<real>, v: seq<real>)
    requires |u| == |v| == 5
    ensures Dot(u, v) == u[0] * v[0] + u[1] * v[1] + u[2] * v[2] + u[3] * v[3] + u[4] * v[4]
  {
    DotLast(u, v);
    DotLast(u[..4], v[..4]);
    DotLast(u[..3], v[..3]);
    DotLast(u[..2], v[..2]);
    DotLast(u[..1], v[..1]);
    assert u[..4][..3] == u[..3] && v[..4][..3] == v[..3];
    assert u[..3][..2] == u[..2] && v[..3][..2] == v[..2];
    assert u[..2][..1] == u[..1] && v[..2][..1] == v[..1];
    assert u[..1][..0] == [] && v[..1][..0] == [];
  }
}
