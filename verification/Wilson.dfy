/**
 The Wilson score interval over the reals. math.sqrt is represented by its contract: the
 root is any non-negative real whose square is the radicand.
 */
module Wilson {
  import opened Basics
  import opened Reals

  const Z := 1.959963984540054

  datatype Interval = Interval(low: real, high: real)

  function Proportion(successes: int, total: int): real
    requires total > 0
  {
    successes as real / total as real
  }

  /** z*z / total. */
  function Shrink(total: int): (c: real)
    requires total > 0
    ensures c > 0.0
  {
    Z * Z / total as real
  }

  function Radicand(successes: int, total: int): real
    requires total > 0
  {
    var p := Proportion(successes, total);
    (p * (1.0 - p) + Z * Z / (4.0 * total as real)) / total as real
  }

  ghost predicate IsRoot(root: real, value: real) {
    root >= 0.0 && root * root == value
  }

  function Centre(successes: int, total: int): real
    requires total > 0
  {
    (Proportion(successes, total) + Z * Z / (2.0 * total as real)) / (1.0 + Z * Z / total as real)
  }

  function Radius(total: int, root: real): real
    requires total > 0
  {
    Z * root / (1.0 + Z * Z / total as real)
  }

  /** None without a sample. */
  function Wilson95(successes: int, total: int, root: real): Option<Interval> {
    if total <= 0 then None else
    var centre, radius := Centre(successes, total), Radius(total, root);
    Some(Interval(if centre - radius > 0.0 then centre - radius else 0.0,
                  if centre + radius < 1.0 then centre + radius else 1.0))
  }

  /** The score test: how far x is from being rejected, for an observed proportion p. */
  function Score(p: real, c: real, x: real): real {
    (p - x) * (p - x) - c * (x * (1.0 - x))
  }

  // ----- The score polynomial and its two roots

  lemma CompleteSquare(p: real, c: real, x: real, m: real)
    requires c > 0.0 && m * (1.0 + c) == p + c / 2.0
    ensures (1.0 + c) * Score(p, c, x) ==
            (1.0 + c) * (1.0 + c) * ((x - m) * (x - m)) - (c * (p * (1.0 - p)) + c * c / 4.0)
  {
    var d := 1.0 + c;
    assert Score(p, c, x) == d * (x * x) - 2.0 * (p + c / 2.0) * x + p * p;
    assert d * Score(p, c, x) == d * (d * (x * x)) - d * (2.0 * (m * d) * x) + d * (p * p);
    assert d * d * ((x - m) * (x - m)) == d * (d * (x * x)) - d * (2.0 * (m * d) * x) + (m * d) * (m * d);
    assert (m * d) * (m * d) == p * p + p * c + c * c / 4.0;
  }

  /** Score(x) = (1 + c) (x - low) (x - high). */
  lemma ScoreFactors(p: real, c: real, x: real, m: real, r: real)
    requires c > 0.0 && m * (1.0 + c) == p + c / 2.0
    requires (1.0 + c) * (1.0 + c) * (r * r) == c * (p * (1.0 - p)) + c * c / 4.0
    ensures Score(p, c, x) == (1.0 + c) * ((x - (m - r)) * (x - (m + r)))
  {
    var d := 1.0 + c;
    CompleteSquare(p, c, x, m);
    assert (x - (m - r)) * (x - (m + r)) == (x - m) * (x - m) - r * r;
    assert d * Score(p, c, x) == d * (d * ((x - (m - r)) * (x - (m + r))));
    Cancel(d, Score(p, c, x), d * ((x - (m - r)) * (x - (m + r))));
  }

  // ----- The interval before clamping

  function Low(successes: int, total: int, root: real): real
    requires total > 0
  {
    Centre(successes, total) - Radius(total, root)
  }

  function High(successes: int, total: int, root: real): real
    requires total > 0
  {
    Centre(successes, total) + Radius(total, root)
  }

  lemma CentreEquation(successes: int, total: int)
    requires total > 0
    ensures Centre(successes, total) * (1.0 + Shrink(total)) == Proportion(successes, total) + Shrink(total) / 2.0
    ensures 0 <= successes <= total ==> 0.0 <= Proportion(successes, total) <= 1.0
    ensures Proportion(total - successes, total) == 1.0 - Proportion(successes, total)
  {
  }

  lemma RadiusEquation(successes: int, total: int, root: real)
    requires total > 0 && IsRoot(root, Radicand(successes, total))
    ensures var p, c, r := Proportion(successes, total), Shrink(total), Radius(total, root);
            r >= 0.0 && (1.0 + c) * (1.0 + c) * (r * r) == c * (p * (1.0 - p)) + c * c / 4.0
  {
    var p, c, r := Proportion(successes, total), Shrink(total), Radius(total, root);
    var d := 1.0 + c;
    assert r * d == Z * root;
    assert (r * d) * (r * d) == Z * Z * (root * root);
    assert d * d * (r * r) == (r * d) * (r * d);
    SplitRadicand(p, total as real);
  }

  lemma SplitRadicand(p: real, n: real)
    requires n > 0.0
    ensures var c := Z * Z / n;
            Z * Z * ((p * (1.0 - p) + Z * Z / (4.0 * n)) / n) == c * (p * (1.0 - p)) + c * c / 4.0
  {
    var c, q := Z * Z / n, p * (1.0 - p);
    assert Z * Z / (4.0 * n) == c / 4.0;
    assert Z * Z * ((q + c / 4.0) / n) == c * (q + c / 4.0);
    assert c * (q + c / 4.0) == c * q + c * c / 4.0;
  }

  /** Both endpoints are roots of the score polynomial, for every x. */
  lemma ScoreAt(successes: int, total: int, root: real, x: real)
    requires total > 0 && IsRoot(root, Radicand(successes, total))
    ensures Score(Proportion(successes, total), Shrink(total), x) ==
            (1.0 + Shrink(total)) * ((x - Low(successes, total, root)) * (x - High(successes, total, root)))
    ensures Low(successes, total, root) <= High(successes, total, root)
  {
    hide Radius, Centre, Proportion, Shrink, Score, Radicand;
    CentreEquation(successes, total);
    RadiusEquation(successes, total, root);
    ScoreFactors(Proportion(successes, total), Shrink(total), x, Centre(successes, total), Radius(total, root));
  }

  /** A parabola is non-positive exactly between its roots. */
  lemma Between(d: real, x: real, low: real, high: real)
    requires d > 0.0 && low <= high
    ensures d * ((x - low) * (x - high)) <= 0.0 <==> low <= x <= high
    ensures d * ((x - low) * (x - high)) < 0.0 ==> low < x < high
  {
    var q := (x - low) * (x - high);
    if x < low {
      BothNegative(x - low, x - high, q);
      Positive(d, q, d * q);
    } else if x > high {
      Positive(x - low, x - high, q);
      Positive(d, q, d * q);
    } else if low < x < high {
      Negative(x - low, x - high, q);
      Negative(d, q, d * q);
    }
  }

  lemma OutsideRoots(d: real, x: real, low: real, high: real)
    requires d > 0.0 && low <= high && d * ((x - low) * (x - high)) >= 0.0
    ensures x <= low || high <= x
  {
    var q := (x - low) * (x - high);
    if low < x < high {
      Negative(x - low, x - high, q);
      Negative(d, q, d * q);
    }
  }

  lemma ScoreAtMarks(p: real, c: real)
    requires 0.0 <= p <= 1.0 && c > 0.0
    ensures Score(p, c, p) <= 0.0 && Score(p, c, 0.0) >= 0.0 && Score(p, c, 1.0) >= 0.0
  {
    var q := p * (1.0 - p);
    NonNegative(p, 1.0 - p, q);
    NonNegative(c, q, c * q);
    assert Score(p, c, p) == -(c * q);
    SquareNonNegative(p, Score(p, c, 0.0));
    SquareNonNegative(p - 1.0, Score(p, c, 1.0));
  }

  lemma CentreInside(successes: int, total: int)
    requires total > 0 && 0 <= successes <= total
    ensures 0.0 < Centre(successes, total) < 1.0
  {
    var p, c, m := Proportion(successes, total), Shrink(total), Centre(successes, total);
    CentreEquation(successes, total);
    if m <= 0.0 {
      NonNegative(-m, 1.0 + c, -m * (1.0 + c));
    } else if m >= 1.0 {
      NonNegative(m - 1.0, 1.0 + c, (m - 1.0) * (1.0 + c));
    }
  }

  lemma Endpoints(successes: int, total: int, root: real)
    requires total > 0 && 0 <= successes <= total && IsRoot(root, Radicand(successes, total))
    ensures var low, high := Low(successes, total, root), High(successes, total, root);
            0.0 <= low <= Proportion(successes, total) <= high <= 1.0
  {
    hide Radius, Centre, Proportion, Shrink, Score, Radicand;
    var p, c, low, high :=
      Proportion(successes, total), Shrink(total), Low(successes, total, root), High(successes, total, root);
    CentreEquation(successes, total);
    CentreInside(successes, total);
    ScoreAtMarks(p, c);
    ScoreAt(successes, total, root, p);
    Between(1.0 + c, p, low, high);
    ScoreAt(successes, total, root, 0.0);
    OutsideRoots(1.0 + c, 0.0, low, high);
    ScoreAt(successes, total, root, 1.0);
    OutsideRoots(1.0 + c, 1.0, low, high);
  }

  /** The score is at most zero between the endpoints, and zero at both. */
  lemma ScoreSign(successes: int, total: int, root: real, x: real, score: real, low: real, high: real)
    requires total > 0 && 0 <= successes <= total && IsRoot(root, Radicand(successes, total))
    requires score == Score(Proportion(successes, total), Shrink(total), x)
    requires low == Low(successes, total, root) && high == High(successes, total, root)
    ensures score <= 0.0 <==> low <= x <= high
    ensures x == low || x == high ==> score == 0.0
  {
    hide *;
    ScoreAt(successes, total, root, x);
    SignOf(1.0 + Shrink(total), x, low, high, score);
  }

  lemma SignOf(d: real, x: real, low: real, high: real, score: real)
    requires d > 0.0 && low <= high && score == d * ((x - low) * (x - high))
    ensures score <= 0.0 <==> low <= x <= high
    ensures x == low || x == high ==> score == 0.0
  {
    var a, b := x - low, x - high;
    var q := a * b;
    assert score == d * q;
    if a > 0.0 && b > 0.0 {
      Positive(a, b, q);
      Positive(d, q, score);
    } else if a < 0.0 {
      BothNegative(a, b, q);
      Positive(d, q, score);
    } else if a > 0.0 && b < 0.0 {
      Negative(a, b, q);
      Negative(d, q, score);
    } else {
      assert q == 0.0;
    }
  }

  /** Endpoints within [0, 1] pass both clamps unchanged. */
  lemma Unclamped(successes: int, total: int, root: real)
    requires total > 0 && 0.0 <= Low(successes, total, root) && High(successes, total, root) <= 1.0
    ensures Wilson95(successes, total, root) == Some(Interval(Low(successes, total, root), High(successes, total, root)))
  {
    hide Centre, Radius;
  }

  /** The square root is always taken of a positive number. */
  lemma RadicandPositive(successes: int, total: int)
    requires total > 0 && 0 <= successes <= total
    ensures Radicand(successes, total) > 0.0
  {
    var p, n := Proportion(successes, total), total as real;
    hide Proportion;
    CentreEquation(successes, total);
    NonNegative(p, 1.0 - p, p * (1.0 - p));
    PositiveSum(p * (1.0 - p), n);
  }

  lemma PositiveSum(q: real, n: real)
    requires q >= 0.0 && n > 0.0
    ensures (q + Z * Z / (4.0 * n)) / n > 0.0
  {
    assert Z * Z / (4.0 * n) > 0.0;
  }

  // ----- The interval

  /**
   The interval is the set of proportions that the score test does not reject. It contains the
   observed proportion and lies in [0, 1], so the two clamps never change an endpoint.
   */
  lemma IntervalIsScoreTest(successes: int, total: int, root: real)
    requires total > 0 && 0 <= successes <= total && IsRoot(root, Radicand(successes, total))
    ensures Wilson95(successes, total, root).Some? && Radicand(successes, total) > 0.0
    ensures var i := Wilson95(successes, total, root).value;
            && i == Interval(Low(successes, total, root), High(successes, total, root))
            && 0.0 <= i.low <= Proportion(successes, total) <= i.high <= 1.0
            && Score(Proportion(successes, total), Shrink(total), i.low) == 0.0
            && Score(Proportion(successes, total), Shrink(total), i.high) == 0.0
            && forall x :: Score(Proportion(successes, total), Shrink(total), x) <= 0.0 <==> i.low <= x <= i.high
  {
    Endpoints(successes, total, root);
    Unclamped(successes, total, root);
    RadicandPositive(successes, total);
    hide *;
    var low, high := Low(successes, total, root), High(successes, total, root);
    ScoreSign(successes, total, root, low, Score(Proportion(successes, total), Shrink(total), low), low, high);
    ScoreSign(successes, total, root, high, Score(Proportion(successes, total), Shrink(total), high), low, high);
    forall x ensures Score(Proportion(successes, total), Shrink(total), x) <= 0.0 <==> low <= x <= high {
      ScoreSign(successes, total, root, x, Score(Proportion(successes, total), Shrink(total), x), low, high);
    }
  }

  /** Exchanging successes and failures reflects the interval about one half. */
  lemma IntervalReflects(successes: int, total: int, root: real, root': real)
    requires total > 0 && 0 <= successes <= total
    requires IsRoot(root, Radicand(successes, total)) && IsRoot(root', Radicand(total - successes, total))
    ensures Wilson95(successes, total, root).Some?
    ensures var i := Wilson95(successes, total, root).value;
            Wilson95(total - successes, total, root') == Some(Interval(1.0 - i.high, 1.0 - i.low))
  {
    hide Proportion, Radicand;
    RadicandReflects(successes, total);
    SquareOrder(root, root');
    CentreReflects(successes, total);
    Endpoints(successes, total, root);
    Endpoints(total - successes, total, root');
  }

  lemma CentreReflects(successes: int, total: int)
    requires total > 0
    ensures Centre(total - successes, total) == 1.0 - Centre(successes, total)
  {
    hide Proportion, Centre;
    CentreEquation(successes, total);
    CentreEquation(total - successes, total);
    var m, m', d := Centre(successes, total), Centre(total - successes, total), 1.0 + Shrink(total);
    var p, c := Proportion(successes, total), Shrink(total);
    assert m * d == p + c / 2.0;
    assert m' * d == 1.0 - p + c / 2.0;
    assert d * (m + m') == m * d + m' * d;
    Cancel(d, m + m', 1.0);
  }

  lemma ScoreShift(p: real, p': real, c: real, x: real)
    ensures Score(p, c, x) - Score(p', c, x) == (p - p') * (p + p' - 2.0 * x)
  {
  }

  lemma ProportionGrows(successes: int, successes': int, total: int)
    requires total > 0 && successes < successes'
    ensures Proportion(successes, total) < Proportion(successes', total)
  {
  }

  lemma LowGrows(successes: int, successes': int, total: int, root: real, root': real)
    requires total > 0 && 0 <= successes < successes' <= total
    requires IsRoot(root, Radicand(successes, total)) && IsRoot(root', Radicand(successes', total))
    ensures Low(successes, total, root) < Low(successes', total, root')
  {
    hide Radius, Centre, Proportion, Shrink, Score, Radicand;
    var p, p', c := Proportion(successes, total), Proportion(successes', total), Shrink(total);
    var low, low' := Low(successes, total, root), Low(successes', total, root');
    ProportionGrows(successes, successes', total);
    Endpoints(successes, total, root);
    if low' <= low {
      ScoreAt(successes', total, root', low');
      ScoreShift(p, p', c, low');
      Negative(p + p' - 2.0 * low', p - p', (p - p') * (p + p' - 2.0 * low'));
      ScoreAt(successes, total, root, low');
      Between(1.0 + c, low', low, High(successes, total, root));
    }
  }

  /** Both endpoints grow strictly with the number of successes. */
  lemma IntervalGrows(successes: int, successes': int, total: int, root: real, root': real, i: Interval, i': Interval)
    requires total > 0 && 0 <= successes < successes' <= total
    requires IsRoot(root, Radicand(successes, total)) && IsRoot(root', Radicand(successes', total))
    requires Wilson95(successes, total, root) == Some(i) && Wilson95(successes', total, root') == Some(i')
    ensures i.low < i'.low && i.high < i'.high
  {
    hide *;
    RadicandReflects(successes, total);
    RadicandReflects(successes', total);
    IntervalIsScoreTest(successes, total, root);
    IntervalIsScoreTest(successes', total, root');
    LowGrows(successes, successes', total, root, root');
    IntervalIsScoreTest(total - successes, total, root);
    IntervalIsScoreTest(total - successes', total, root');
    LowGrows(total - successes', total - successes, total, root', root);
    IntervalReflects(successes, total, root, root);
    IntervalReflects(successes', total, root', root');
  }

  lemma RadicandReflects(successes: int, total: int)
    requires total > 0
    ensures Radicand(total - successes, total) == Radicand(successes, total)
  {
    hide Proportion;
    CentreEquation(successes, total);
  }

  /** Without a success the root is z/(2n), and the interval runs from 0 to z^2/(n + z^2). */
  lemma ZeroSuccesses(total: int)
    requires total > 0
    ensures var root := Z / (2.0 * total as real);
            && IsRoot(root, Radicand(0, total))
            && Wilson95(0, total, root) == Some(Interval(0.0, Shrink(total) / (1.0 + Shrink(total))))
  {
    var n, root, c := total as real, Z / (2.0 * total as real), Shrink(total);
    assert root * root == Radicand(0, total) by {
      HalfRoot(n);
      assert Proportion(0, total) == 0.0;
    }
    assert Z * root == c / 2.0;
    assert Radius(total, root) == Centre(0, total) == c / 2.0 / (1.0 + c);
    assert Low(0, total, root) == 0.0 && High(0, total, root) == c / (1.0 + c);
    Endpoints(0, total, root);
    Unclamped(0, total, root);
  }

  lemma HalfRoot(n: real)
    requires n > 0.0
    ensures (Z / (2.0 * n)) * (Z / (2.0 * n)) == (0.0 * (1.0 - 0.0) + Z * Z / (4.0 * n)) / n
  {
    var h := Z / (2.0 * n);
    assert h * (2.0 * n) == Z;
    assert (h * h) * (4.0 * n * n) == Z * Z;
    var q := Z * Z / (4.0 * n);
    assert q * (4.0 * n) == Z * Z;
    assert (h * h) * n * (4.0 * n) == q * (4.0 * n);
    Cancel(4.0 * n, (h * h) * n, q);
  }

  /** z^2 is the 95% quantile of chi-square with one degree of freedom. */
  lemma ChiSquareQuantile()
    ensures 3.841458820694 < Z * Z < 3.841458820695
  {
  }

  /** Ten failures in ten trials: the success rate is below 27.8% with 95% confidence. */
  lemma NoneOfTen()
    ensures Wilson95(0, 10, Z / 20.0).Some?
    ensures Wilson95(0, 10, Z / 20.0).value.low == 0.0 && 0.27753 < Wilson95(0, 10, Z / 20.0).value.high < 0.27754
  {
    ZeroSuccesses(10);
    assert 2.0 * 10 as real == 20.0;
  }
}
