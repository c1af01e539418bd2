/** The least-squares line of the trace diagnosis and its coefficient of determination. */
module AffineFit {
  import opened Basics
  import opened Reals
  import opened Vectors
  import opened Correlation

  datatype Fit = Fit(alpha: real, beta: real, r2: real)

  /** alpha*x + beta, component by component. */
  function Predicted(alpha: real, beta: real, x: seq<real>): seq<real> {
    Combine(alpha, x, beta, Ones(|x|))
  }

  function Residuals(alpha: real, beta: real, x: seq<real>, y: seq<real>): (e: seq<real>)
    requires |x| == |y|
    ensures |e| == |x|
  {
    Combine(1.0, y, -1.0, Predicted(alpha, beta, x))
  }

  function SquaredError(alpha: real, beta: real, x: seq<real>, y: seq<real>): real
    requires |x| == |y|
  {
    Dot(Residuals(alpha, beta, x, y), Residuals(alpha, beta, x, y))
  }

  function RSquared(residual: real, total: real): real {
    if total <= GUARD && residual <= GUARD then 1.0
    else 1.0 - residual / (if total > GUARD then total else GUARD)
  }

  /** None for fewer than two points; the flat line when the x values do not vary enough. */
  function FitLine(x: seq<real>, y: seq<real>): Option<Fit>
    requires |x| == |y|
  {
    if |x| < 2 then None else
    var variance := Dot(Centre(x), Centre(x));
    if variance <= GUARD then Some(Fit(0.0, Mean(y), 0.0)) else
    var alpha := Dot(Centre(x), Centre(y)) / variance;
    var beta := Mean(y) - alpha * Mean(x);
    Some(Fit(alpha, beta, RSquared(SquaredError(alpha, beta, x, y), Dot(Centre(y), Centre(y)))))
  }

  /** The slope and intercept that FitLine uses when the guard passes. */
  ghost predicate Fitted(x: seq<real>, y: seq<real>, alpha: real, beta: real) {
    && |x| == |y| >= 2 && Dot(Centre(x), Centre(x)) > 0.0
    && alpha == Dot(Centre(x), Centre(y)) / Dot(Centre(x), Centre(x))
    && beta == Mean(y) - alpha * Mean(x)
  }

  // ----- The residuals

  lemma ResidualComponent(alpha: real, mx: real, my: real, v: real, u: real)
    ensures 1.0 * u + -1.0 * (alpha * v + (my - alpha * mx) * 1.0) ==
            1.0 * (1.0 * u + -my * 1.0) + -alpha * (1.0 * v + -mx * 1.0)
  {
  }

  /** The residuals are c(y) - alpha c(x). */
  lemma ResidualsCentred(x: seq<real>, y: seq<real>, alpha: real, beta: real)
    requires |x| == |y| > 0 && beta == Mean(y) - alpha * Mean(x)
    ensures Residuals(alpha, beta, x, y) == Combine(1.0, Centre(y), -alpha, Centre(x))
  {
    hide Mean;
    forall i | 0 <= i < |x|
      ensures Residuals(alpha, beta, x, y)[i] == Combine(1.0, Centre(y), -alpha, Centre(x))[i]
    {
      ResidualComponent(alpha, Mean(x), Mean(y), x[i], y[i]);
    }
    assert Residuals(alpha, beta, x, y) == Combine(1.0, Centre(y), -alpha, Centre(x));
  }

  lemma {:induction false} OnesDot(x: seq<real>)
    ensures Dot(Ones(|x|), x) == Total(x)
  {
    forall i | 0 <= i < |x| ensures Times(Ones(|x|), x)[i] == x[i] {
    }
    assert Times(Ones(|x|), x) == x;
  }

  /** The normal equations: residuals sum to zero and are orthogonal to x. */
  lemma NormalEquations(x: seq<real>, y: seq<real>, alpha: real, beta: real)
    requires Fitted(x, y, alpha, beta)
    ensures Total(Residuals(alpha, beta, x, y)) == 0.0
    ensures Dot(x, Residuals(alpha, beta, x, y)) == 0.0
  {
    hide Total, Times, Centre, Residuals;
    var cx, cy, e := Centre(x), Centre(y), Residuals(alpha, beta, x, y);
    ResidualsCentred(x, y, alpha, beta);
    CentreTotal(x);
    CentreTotal(y);
    TotalCombine(1.0, cy, -alpha, cx);
    DotCombine(1.0, cy, -alpha, cx, x);
    CentreDot(x, x);
    CentreDot(x, y);
    DotSymmetric(cx, x);
    DotSymmetric(cy, x);
    DotSymmetric(e, x);
  }

  lemma Expand(e: seq<real>, d: seq<real>)
    requires |e| == |d| && Dot(d, e) == 0.0
    ensures Dot(Combine(1.0, e, 1.0, d), Combine(1.0, e, 1.0, d)) == Dot(e, e) + Dot(d, d)
  {
    hide Times, Total;
    var s := Combine(1.0, e, 1.0, d);
    DotCombine(1.0, e, 1.0, d, s);
    DotSymmetric(e, s);
    DotSymmetric(d, s);
    DotCombine(1.0, e, 1.0, d, e);
    DotCombine(1.0, e, 1.0, d, d);
    DotSymmetric(e, d);
  }

  lemma OtherLine(alpha: real, beta: real, a: real, b: real, v: real, u: real)
    ensures 1.0 * u + -1.0 * (a * v + b * 1.0) ==
            1.0 * (1.0 * u + -1.0 * (alpha * v + beta * 1.0)) + 1.0 * ((alpha - a) * v + (beta - b) * 1.0)
  {
  }

  /** A line that satisfies the normal equations has the least squared error of all. */
  lemma NormalIsLeast(x: seq<real>, y: seq<real>, alpha: real, beta: real, a: real, b: real)
    requires |x| == |y|
    requires Total(Residuals(alpha, beta, x, y)) == 0.0 && Dot(x, Residuals(alpha, beta, x, y)) == 0.0
    ensures SquaredError(alpha, beta, x, y) <= SquaredError(a, b, x, y)
  {
    hide Dot, Total, Centre, Mean;
    var e := Residuals(alpha, beta, x, y);
    var d := Combine(alpha - a, x, beta - b, Ones(|x|));
    forall i | 0 <= i < |x| ensures Residuals(a, b, x, y)[i] == Combine(1.0, e, 1.0, d)[i] {
      OtherLine(alpha, beta, a, b, x[i], y[i]);
    }
    assert Residuals(a, b, x, y) == Combine(1.0, e, 1.0, d);
    DotCombine(alpha - a, x, beta - b, Ones(|x|), e);
    OnesDot(e);
    Expand(e, d);
    SquaresNonNegative(d);
  }

  /** No line has a smaller squared error. */
  lemma LeastSquares(x: seq<real>, y: seq<real>, alpha: real, beta: real, a: real, b: real)
    requires Fitted(x, y, alpha, beta)
    ensures SquaredError(alpha, beta, x, y) <= SquaredError(a, b, x, y)
  {
    NormalEquations(x, y, alpha, beta);
    NormalIsLeast(x, y, alpha, beta, a, b);
  }

  // ----- R squared

  /** The residual sum of squares is what the line leaves of the total. */
  lemma ResidualSquares(x: seq<real>, y: seq<real>, alpha: real, beta: real)
    requires Fitted(x, y, alpha, beta)
    ensures var xx, xy, yy := Dot(Centre(x), Centre(x)), Dot(Centre(x), Centre(y)), Dot(Centre(y), Centre(y));
            SquaredError(alpha, beta, x, y) == yy - alpha * xy && alpha * xx == xy
  {
    hide Times, Total, Centre, Residuals;
    var cx, cy, e := Centre(x), Centre(y), Residuals(alpha, beta, x, y);
    ResidualsCentred(x, y, alpha, beta);
    DotCombine(1.0, cy, -alpha, cx, e);
    DotSymmetric(cy, e);
    DotSymmetric(cx, e);
    DotCombine(1.0, cy, -alpha, cx, cy);
    DotCombine(1.0, cy, -alpha, cx, cx);
    DotSymmetric(cx, cy);
    Cross(alpha, Dot(cx, cx), Dot(cx, cy), Dot(cy, cy));
  }

  lemma Cross(alpha: real, xx: real, xy: real, yy: real)
    requires xx > 0.0 && alpha == xy / xx
    ensures alpha * xx == xy
    ensures 1.0 * (1.0 * yy + -alpha * xy) + -alpha * (1.0 * xy + -alpha * xx) == yy - alpha * xy
  {
  }

  lemma Fraction(residual: real, total: real, bound: real)
    requires 0.0 <= residual <= total <= bound && bound > 0.0
    ensures 0.0 <= 1.0 - residual / bound <= 1.0
  {
  }

  lemma ExplainedShare(alpha: real, xx: real, xy: real, yy: real)
    requires xx > 0.0 && yy > 0.0 && alpha * xx == xy
    ensures (1.0 - (yy - alpha * xy) / yy) * (xx * yy) == xy * xy
  {
    assert (1.0 - (yy - alpha * xy) / yy) * yy == alpha * xy;
    assert (1.0 - (yy - alpha * xy) / yy) * (xx * yy) == xx * ((1.0 - (yy - alpha * xy) / yy) * yy);
    assert xx * (alpha * xy) == (alpha * xx) * xy;
  }

  lemma ResidualRange(x: seq<real>, y: seq<real>, alpha: real, beta: real)
    requires Fitted(x, y, alpha, beta)
    ensures 0.0 <= SquaredError(alpha, beta, x, y) <= Dot(Centre(y), Centre(y))
  {
    var xx, xy := Dot(Centre(x), Centre(x)), Dot(Centre(x), Centre(y));
    ResidualSquares(x, y, alpha, beta);
    SquaresNonNegative(Residuals(alpha, beta, x, y));
    ShareNonNegative(alpha, xx, xy);
  }

  lemma ShareNonNegative(alpha: real, xx: real, xy: real)
    requires xx > 0.0 && alpha * xx == xy
    ensures alpha * xy >= 0.0
  {
    var square := alpha * alpha;
    SquareNonNegative(alpha, square);
    NonNegative(square, xx, square * xx);
    assert alpha * xy == square * xx;
  }

  /** On every branch R squared lies between 0 and 1. */
  lemma RSquaredRange(x: seq<real>, y: seq<real>)
    requires |x| == |y| >= 2
    ensures FitLine(x, y).Some? && 0.0 <= FitLine(x, y).value.r2 <= 1.0
  {
    hide Total, Times;
    var variance := Dot(Centre(x), Centre(x));
    if variance > GUARD {
      var alpha := Dot(Centre(x), Centre(y)) / variance;
      var beta := Mean(y) - alpha * Mean(x);
      ResidualRange(x, y, alpha, beta);
      var residual, total := SquaredError(alpha, beta, x, y), Dot(Centre(y), Centre(y));
      Fraction(residual, total, if total > GUARD then total else GUARD);
      assert FitLine(x, y).value.alpha == alpha && FitLine(x, y).value.beta == beta;
    }
  }

  /** When both sides vary enough, R squared is the square of Pearson's coefficient. */
  lemma RSquaredAboveGuards(x: seq<real>, y: seq<real>)
    requires |x| == |y| >= 2
    requires Dot(Centre(x), Centre(x)) > GUARD && Dot(Centre(y), Centre(y)) > GUARD
    ensures Pearson(x, y).Some?
    ensures var c := Pearson(x, y).value; FitLine(x, y).value.r2 * c.den2 == c.num * c.num
  {
    hide Dot, Centre, Mean;
    var xx, xy, yy := Dot(Centre(x), Centre(x)), Dot(Centre(x), Centre(y)), Dot(Centre(y), Centre(y));
    var alpha := xy / xx;
    var beta := Mean(y) - alpha * Mean(x);
    Positive(xx, yy, xx * yy);
    ResidualSquares(x, y, alpha, beta);
    ExplainedShare(alpha, xx, xy, yy);
  }

  /** When y does not, R squared is 1. */
  lemma RSquaredFlatTarget(x: seq<real>, y: seq<real>)
    requires |x| == |y| >= 2
    requires Dot(Centre(x), Centre(x)) > GUARD && Dot(Centre(y), Centre(y)) <= GUARD
    ensures FitLine(x, y).value.r2 == 1.0
  {
    hide Dot, Centre, Mean, SquaredError;
    FitLineIsFitted(x, y);
    var f := FitLine(x, y).value;
    ResidualRange(x, y, f.alpha, f.beta);
  }

  /**
   R squared is the square of Pearson's coefficient exactly when x varies enough and y does too or lies
   on the line, or when x does not and x and y do not vary together.
   */
  lemma RSquaredIsCorrelation(x: seq<real>, y: seq<real>)
    requires Pearson(x, y).Some?
    ensures FitLine(x, y).Some?
    ensures var c := Pearson(x, y).value;
            var xx, xy, yy := Dot(Centre(x), Centre(x)), Dot(Centre(x), Centre(y)), Dot(Centre(y), Centre(y));
            FitLine(x, y).value.r2 * c.den2 == c.num * c.num <==>
              if xx > GUARD then yy > GUARD || xy * xy == xx * yy else xy == 0.0
  {
    hide Dot, Centre, Mean, SquaredError, RSquared;
    var xx, xy, yy := Dot(Centre(x), Centre(x)), Dot(Centre(x), Centre(y)), Dot(Centre(y), Centre(y));
    if xx <= GUARD {
      if xy * xy == 0.0 {
        ZeroSquare(xy, 0.0);
      }
    } else if yy > GUARD {
      RSquaredAboveGuards(x, y);
    } else {
      RSquaredFlatTarget(x, y);
    }
  }

  // ----- The line that is returned

  /** Above the variance guard the returned line is the fitted one. */
  lemma FitLineIsFitted(x: seq<real>, y: seq<real>)
    requires |x| == |y| >= 2 && Dot(Centre(x), Centre(x)) > GUARD
    ensures var f := FitLine(x, y); f.Some? && Fitted(x, y, f.value.alpha, f.value.beta)
  {
  }

  /** The flat line through the mean satisfies the normal equations when x and y do not vary together. */
  lemma FlatLine(x: seq<real>, y: seq<real>)
    requires |x| == |y| > 0 && Dot(Centre(x), Centre(y)) == 0.0
    ensures Total(Residuals(0.0, Mean(y), x, y)) == 0.0 && Dot(x, Residuals(0.0, Mean(y), x, y)) == 0.0
  {
    FlatResiduals(x, y);
    hide *;
    CentreTotal(y);
    CentreDot(x, y);
  }

  lemma FlatResiduals(x: seq<real>, y: seq<real>)
    requires |x| == |y| > 0
    ensures Residuals(0.0, Mean(y), x, y) == Centre(y)
  {
    hide Mean;
    ResidualsCentred(x, y, 0.0, Mean(y));
    assert Combine(1.0, Centre(y), -0.0, Centre(x)) == Centre(y);
  }

  /**
   The returned line is a least-squares line exactly when the variance guard passes or x and y do
   not vary together at all; the guard's flat line misses any slope in between.
   */
  lemma FitLineIsOptimal(x: seq<real>, y: seq<real>)
    requires |x| == |y| >= 2
    ensures FitLine(x, y).Some?
    ensures (forall a, b ::
              SquaredError(FitLine(x, y).value.alpha, FitLine(x, y).value.beta, x, y) <= SquaredError(a, b, x, y)) <==>
            Dot(Centre(x), Centre(x)) > GUARD || Dot(Centre(x), Centre(y)) == 0.0
  {
    var f := FitLine(x, y).value;
    var xx, xy := Dot(Centre(x), Centre(x)), Dot(Centre(x), Centre(y));
    if xx > GUARD {
      FitLineIsFitted(x, y);
      hide *;
      forall a, b ensures SquaredError(f.alpha, f.beta, x, y) <= SquaredError(a, b, x, y) {
        LeastSquares(x, y, f.alpha, f.beta, a, b);
      }
    } else if xy == 0.0 {
      assert f.alpha == 0.0 && f.beta == Mean(y);
      hide *;
      FlatLine(x, y);
      forall a, b ensures SquaredError(f.alpha, f.beta, x, y) <= SquaredError(a, b, x, y) {
        NormalIsLeast(x, y, 0.0, Mean(y), a, b);
      }
    } else {
      assert f.alpha == 0.0 && f.beta == Mean(y);
      MissedSlope(x, y);
    }
  }

  lemma MissedSlope(x: seq<real>, y: seq<real>)
    requires |x| == |y| >= 2 && Dot(Centre(x), Centre(y)) != 0.0
    ensures exists a, b :: SquaredError(a, b, x, y) < SquaredError(0.0, Mean(y), x, y)
  {
    FlatResiduals(x, y);
    assert SquaredError(0.0, Mean(y), x, y) == Dot(Centre(y), Centre(y));
    hide Dot, Centre, Mean, Residuals, SquaredError;
    var xx, xy := Dot(Centre(x), Centre(x)), Dot(Centre(x), Centre(y));
    SquaresNonNegative(Centre(x));
    CauchySchwarz(Centre(x), Centre(y));
    Spreads(xx, xy, Dot(Centre(y), Centre(y)));
    var alpha := xy / xx;
    var beta := Mean(y) - alpha * Mean(x);
    ResidualSquares(x, y, alpha, beta);
    Explains(xx, xy, alpha);
    assert SquaredError(alpha, beta, x, y) < SquaredError(0.0, Mean(y), x, y);
  }

  /** Two points a millionth apart: the guard returns the flat line, and another line fits better. */
  lemma GuardMissesSlope()
    ensures var x, y := [0.0, 0.000001], [0.0, 1.0];
            && Dot(Centre(x), Centre(x)) <= GUARD && FitLine(x, y) == Some(Fit(0.0, 0.5, 0.0))
            && exists a, b :: SquaredError(a, b, x, y) < SquaredError(0.0, 0.5, x, y)
  {
    var x, y := [0.0, 0.000001], [0.0, 1.0];
    CentredTwo(0.0, 0.000001);
    CentredTwo(0.0, 1.0);
    hide Centre, Mean, SquaredError, Times, Total;
    TwoDot(Centre(x), Centre(x));
    TwoDot(Centre(x), Centre(y));
    MissedSlope(x, y);
  }

  /** Through two points the line is the secant, unless they are closer than a square of 2e-12: then it is flat. */
  lemma TwoPoints(a: real, b: real, c: real, d: real)
    ensures var f := FitLine([a, b], [c, d]);
            && f.Some?
            && if (b - a) * (b - a) <= 0.000000000002
               then f.value.alpha == 0.0 && f.value.beta == (c + d) / 2.0
               else f.value.alpha * (b - a) == d - c && f.value.alpha * a + f.value.beta == c
  {
    var x, y := [a, b], [c, d];
    CentredTwo(a, b);
    CentredTwo(c, d);
    hide Centre, Mean, Times, Total, SquaredError, RSquared;
    TwoDot(Centre(x), Centre(x));
    TwoDot(Centre(x), Centre(y));
    var u, v := b - a, d - c;
    assert Centre(x) == [-u / 2.0, u / 2.0] && Centre(y) == [-v / 2.0, v / 2.0];
    var xx, xy := Dot(Centre(x), Centre(x)), Dot(Centre(x), Centre(y));
    HalfProducts(u, v);
    assert xx == u * u / 2.0 && xy == u * v / 2.0;
    if u * u > 0.000000000002 {
      SecantSlope(u, v, u * u, u * v, xy / xx);
      Secant(a, b, c, d, xy / xx);
    }
  }

  lemma HalfProducts(u: real, v: real)
    ensures (-u / 2.0) * (-u / 2.0) + (u / 2.0) * (u / 2.0) == u * u / 2.0
    ensures (-u / 2.0) * (-v / 2.0) + (u / 2.0) * (v / 2.0) == u * v / 2.0
  {
  }

  /** The slope of the secant, with u*u and u*v as names. */
  lemma SecantSlope(u: real, v: real, uu: real, uv: real, alpha: real)
    requires uu == u * u && uv == u * v && uu > 0.0 && alpha == (uv / 2.0) / (uu / 2.0)
    ensures alpha * u == v
  {
    Quotient(uv / 2.0, uu / 2.0);
    SameProduct(u, alpha, uu, uv);
    if u > 0.0 {
      Cancel(u, alpha * u, v);
    } else if u < 0.0 {
      Opposite(u, alpha * u, v);
      Cancel(-u, alpha * u, v);
    }
  }

  lemma Quotient(p: real, q: real)
    requires q > 0.0
    ensures (p / q) * q == p
  {
  }

  lemma SameProduct(u: real, alpha: real, uu: real, uv: real)
    requires uu == u * u && alpha * (uu / 2.0) == uv / 2.0
    ensures u * (alpha * u) == uv
  {
    assert u * (alpha * u) == alpha * uu;
    assert alpha * uu == 2.0 * (alpha * (uu / 2.0));
  }

  lemma Opposite(u: real, a: real, b: real)
    requires u * a == u * b
    ensures -u * a == -u * b
  {
  }

  lemma Secant(a: real, b: real, c: real, d: real, alpha: real)
    requires alpha * (b - a) == d - c
    ensures alpha * a + ((c + d) / 2.0 - alpha * ((a + b) / 2.0)) == c
  {
    assert alpha * ((a + b) / 2.0) == alpha * a + alpha * (b - a) / 2.0;
  }

  lemma Spreads(xx: real, xy: real, yy: real)
    requires xy != 0.0 && xx >= 0.0 && xy * xy <= xx * yy
    ensures xx > 0.0
  {
    var square, bound := xy * xy, xx * yy;
    assert xx == 0.0 ==> bound == 0.0;
    if xy > 0.0 {
      Positive(xy, xy, square);
    } else {
      BothNegative(xy, xy, square);
    }
  }

  lemma Explains(xx: real, xy: real, alpha: real)
    requires xx > 0.0 && xy != 0.0 && alpha * xx == xy
    ensures alpha * xy > 0.0
  {
    if alpha > 0.0 {
      Positive(alpha, xx, xy);
      Positive(alpha, xy, alpha * xy);
    } else if alpha < 0.0 {
      Negative(xx, alpha, xy);
      BothNegative(alpha, xy, alpha * xy);
    }
  }
}
