/**
 The correlation coefficients of the audit scripts. A coefficient num / sqrt(den2) is kept
 as the pair (num, den2), so that no square root is needed to compare or to bound it.
 */
module Correlation {
  import opened Basics
  import opened Reals
  import opened Vectors
  import opened Ranks

  datatype Coefficient = Coefficient(num: real, den2: real)

  /** A coefficient of 1. */
  predicate Perfect(c: Coefficient) {
    c.num > 0.0 && c.num * c.num == c.den2
  }

  /** The square of the denominator. */
  function Spread(x: seq<real>, y: seq<real>): real
    requires |x| == |y| > 0
  {
    Dot(Centre(x), Centre(x)) * Dot(Centre(y), Centre(y))
  }

  /** Undefined only when the denominator is not positive. */
  function Pearson(x: seq<real>, y: seq<real>): Option<Coefficient> {
    if |x| != |y| || |x| < 2 || Spread(x, y) <= 0.0 then None
    else Some(Coefficient(Dot(Centre(x), Centre(y)), Spread(x, y)))
  }

  const GUARD := 0.000000000001

  /** Undefined when the denominator is at most 1e-12: its square is compared with 1e-24. */
  function GuardedPearson(x: seq<real>, y: seq<real>): Option<Coefficient> {
    if |x| != |y| || |x| < 2 || Spread(x, y) <= GUARD * GUARD then None
    else Some(Coefficient(Dot(Centre(x), Centre(y)), Spread(x, y)))
  }

  /** Spearman's coefficient: Pearson's on the average ranks. */
  function Spearman(x: seq<real>, y: seq<real>): Option<Coefficient> {
    Pearson(AverageRanks(x), AverageRanks(y))
  }

  ghost predicate Constant(x: seq<real>) {
    forall i, j :: 0 <= i < j < |x| ==> x[i] == x[j]
  }

  // ----- Shifted and reflected ranks

  /** a*x + b, for a constant b. */
  function Affine(a: real, x: seq<real>, b: real): (r: seq<real>)
    ensures |r| == |x|
  {
    Combine(a, x, b, Ones(|x|))
  }

  function Scaled(a: real, x: seq<real>): seq<real> {
    seq(|x|, i requires 0 <= i < |x| => a * x[i])
  }

  lemma MeanOfAffine(a: real, x: seq<real>, b: real)
    requires x != []
    ensures Mean(Affine(a, x, b)) == a * Mean(x) + b
  {
    hide Total;
    TotalCombine(a, x, b, Ones(|x|));
    TotalOnes(|x|);
    MeanAffine(a, Total(x), b, |x| as real);
  }

  lemma MeanAffine(a: real, total: real, b: real, n: real)
    requires n > 0.0
    ensures (a * total + b * n) / n == a * (total / n) + b
  {
    assert (a * (total / n) + b) * n == a * total + b * n;
  }

  lemma CentredComponent(a: real, v: real, b: real, m: real)
    ensures 1.0 * (a * v + b * 1.0) + -(a * m + b) * 1.0 == a * (1.0 * v + -m * 1.0)
  {
  }

  lemma CentreAffine(a: real, x: seq<real>, b: real)
    requires x != []
    ensures Centre(Affine(a, x, b)) == Scaled(a, Centre(x))
  {
    hide Mean;
    MeanOfAffine(a, x, b);
    forall i | 0 <= i < |x| ensures Centre(Affine(a, x, b))[i] == Scaled(a, Centre(x))[i] {
      CentredComponent(a, x[i], b, Mean(x));
    }
  }

  lemma FlipBoth(x: seq<real>, y: seq<real>)
    requires |x| == |y|
    ensures Dot(Scaled(-1.0, x), Scaled(-1.0, y)) == Dot(x, y)
  {
    forall i | 0 <= i < |x| ensures Times(Scaled(-1.0, x), Scaled(-1.0, y))[i] == Times(x, y)[i] {
    }
    assert Times(Scaled(-1.0, x), Scaled(-1.0, y)) == Times(x, y);
  }

  lemma KeepBoth(x: seq<real>)
    ensures Scaled(1.0, x) == x
  {
  }

  /** Constants added to either side do not change the coefficient. */
  lemma PearsonShift(x: seq<real>, b: real, y: seq<real>, d: real)
    ensures Pearson(Affine(1.0, x, b), Affine(1.0, y, d)) == Pearson(x, y)
  {
    hide Centre, Affine, Scaled, Dot;
    if |x| == |y| >= 2 {
      CentreAffine(1.0, x, b);
      CentreAffine(1.0, y, d);
      KeepBoth(Centre(x));
      KeepBoth(Centre(y));
      assert Spread(Affine(1.0, x, b), Affine(1.0, y, d)) == Spread(x, y);
      assert Dot(Centre(Affine(1.0, x, b)), Centre(Affine(1.0, y, d))) == Dot(Centre(x), Centre(y));
    }
  }

  /** Nor does turning both sides upside down. */
  lemma PearsonReflect(x: seq<real>, b: real, y: seq<real>, d: real)
    ensures |x| == |y| >= 2 ==>
      && Spread(Affine(-1.0, x, b), Affine(-1.0, y, d)) == Spread(x, y)
      && Dot(Centre(Affine(-1.0, x, b)), Centre(Affine(-1.0, y, d))) == Dot(Centre(x), Centre(y))
  {
    hide Centre, Affine, Scaled, Dot;
    if |x| == |y| >= 2 {
      CentreAffine(-1.0, x, b);
      CentreAffine(-1.0, y, d);
      FlipBoth(Centre(x), Centre(x));
      FlipBoth(Centre(y), Centre(y));
      FlipBoth(Centre(x), Centre(y));
    }
  }

  // ----- The spread of ranks

  lemma TwoApart(a: real, b: real, m: real)
    requires a + 1.0 <= b
    ensures (a - m) * (a - m) + (b - m) * (b - m) >= 0.5
  {
    var d, s := b - a, a + b - 2.0 * m;
    SquareNonNegative(s, s * s);
    assert d * d >= 1.0;
    assert 2.0 * ((a - m) * (a - m) + (b - m) * (b - m)) == d * d + s * s;
  }

  lemma SpreadAtLeast(r: seq<real>, i: nat, j: nat)
    requires i < |r| && j < |r| && r[i] + 1.0 <= r[j]
    ensures Dot(Centre(r), Centre(r)) >= 0.5
  {
    hide Mean;
    var c, m := Centre(r), Mean(r);
    SquaresNonNegative(c);
    assert c[i] == r[i] - m && c[j] == r[j] - m;
    TotalAtLeastTwo(Times(c, c), if i < j then i else j, if i < j then j else i);
    TwoApart(r[i], r[j], m);
  }

  /** Ranks of values that are not all equal spread by at least one half. */
  lemma RankSpread(x: seq<real>)
    requires !Constant(x)
    ensures Dot(Centre(AverageRanks(x)), Centre(AverageRanks(x))) >= 0.5
  {
    var i, j :| 0 <= i < j < |x| && x[i] != x[j];
    hide Dot, Centre, AverageRank;
    if x[i] < x[j] {
      RankGap(x, i, j);
      SpreadAtLeast(AverageRanks(x), i, j);
    } else {
      RankGap(x, j, i);
      SpreadAtLeast(AverageRanks(x), j, i);
    }
  }

  lemma ConstantMean(v: real, n: real, total: real)
    requires n > 0.0 && total == v * n + 0.0 * n
    ensures total / n == v
  {
  }

  lemma ConstantCentre(r: seq<real>)
    requires r != [] && forall i :: 0 <= i < |r| ==> r[i] == r[0]
    ensures Dot(Centre(r), Centre(r)) == 0.0
  {
    assert r == Combine(r[0], Ones(|r|), 0.0, Ones(|r|));
    TotalCombine(r[0], Ones(|r|), 0.0, Ones(|r|));
    TotalOnes(|r|);
    ConstantMean(r[0], |r| as real, Total(r));
    hide Total;
    assert forall i :: 0 <= i < |r| ==> Centre(r)[i] == 0.0;
    TotalZero(Times(Centre(r), Centre(r)));
  }

  lemma ConstantSpread(x: seq<real>)
    requires Constant(x) && x != []
    ensures Dot(Centre(AverageRanks(x)), Centre(AverageRanks(x))) == 0.0
  {
    hide AverageRank;
    ConstantCentre(AverageRanks(x));
  }

  lemma ProductBound(a: real, b: real)
    requires a >= 0.5 && b >= 0.5
    ensures a * b >= 0.25
  {
  }

  /** The denominator of Spearman's coefficient vanishes, or it is at least one half. */
  lemma RankSpreads(x: seq<real>, y: seq<real>)
    requires |x| == |y| > 0
    ensures var s := Spread(AverageRanks(x), AverageRanks(y));
            if Constant(x) || Constant(y) then s == 0.0 else s >= 0.25
  {
    hide Dot, Centre, AverageRank, Constant;
    if Constant(x) {
      ConstantSpread(x);
    } else if Constant(y) {
      ConstantSpread(y);
    } else {
      RankSpread(x);
      RankSpread(y);
      var a := Dot(Centre(AverageRanks(x)), Centre(AverageRanks(x)));
      var b := Dot(Centre(AverageRanks(y)), Centre(AverageRanks(y)));
      ProductBound(a, b);
    }
  }

  // ----- What Spearman's coefficient is

  /** It is undefined exactly for lengths that differ or are below two, and for a constant side. */
  lemma SpearmanDefined(x: seq<real>, y: seq<real>)
    ensures Spearman(x, y).None? <==> |x| != |y| || |x| < 2 || Constant(x) || Constant(y)
  {
    if |x| == |y| >= 2 {
      RankSpreads(x, y);
    }
  }

  /** The 1e-12 guard never changes the coefficient of ranks. */
  lemma GuardNeverFires(x: seq<real>, y: seq<real>)
    ensures GuardedPearson(AverageRanks(x), AverageRanks(y)) == Spearman(x, y)
  {
    if |x| == |y| >= 2 {
      RankSpreads(x, y);
    }
  }

  /** On raw values it does: the two Pearson functions differ exactly on tiny positive spreads. */
  lemma GuardOnRawValues(x: seq<real>, y: seq<real>)
    ensures GuardedPearson(x, y) != Pearson(x, y) <==>
      |x| == |y| >= 2 && 0.0 < Spread(x, y) <= GUARD * GUARD
  {
    assert GUARD * GUARD > 0.0;
  }

  /** Two values a millionth apart: plain Pearson is defined, the guarded one is not. */
  lemma GuardHidesSmallSpread()
    ensures var x := [0.0, 0.000001];
            Pearson(x, x).Some? && Pearson(x, x).value.num > 0.0 && GuardedPearson(x, x).None?
  {
    var x := [0.0, 0.000001];
    CentredTwo(0.0, 0.000001);
    hide Centre;
    TwoDot(Centre(x), Centre(x));
  }

  lemma PearsonBounded(x: seq<real>, y: seq<real>)
    requires Pearson(x, y).Some?
    ensures var c := Pearson(x, y).value; c.den2 > 0.0 && c.num * c.num <= c.den2
  {
    CauchySchwarz(Centre(x), Centre(y));
  }

  lemma PearsonSymmetric(x: seq<real>, y: seq<real>)
    ensures Pearson(x, y) == Pearson(y, x)
  {
    if |x| == |y| >= 2 {
      DotSymmetric(Centre(x), Centre(y));
      Commute(Dot(Centre(x), Centre(x)), Dot(Centre(y), Centre(y)));
    }
  }

  lemma Commute(a: real, b: real)
    ensures a * b == b * a
  {
  }

  lemma SpearmanBounded(x: seq<real>, y: seq<real>)
    requires Spearman(x, y).Some?
    ensures var c := Spearman(x, y).value; c.den2 > 0.0 && c.num * c.num <= c.den2
  {
    PearsonBounded(AverageRanks(x), AverageRanks(y));
  }

  lemma SpearmanSymmetric(x: seq<real>, y: seq<real>)
    ensures Spearman(x, y) == Spearman(y, x)
  {
    PearsonSymmetric(AverageRanks(x), AverageRanks(y));
  }

  /** Only the order of the values counts. */
  lemma SpearmanMonotone(x: seq<real>, x': seq<real>, y: seq<real>, y': seq<real>)
    requires OrderedAlike(x, x') && OrderedAlike(y, y')
    ensures Spearman(x, y) == Spearman(x', y')
  {
    RanksOfOrder(x, x');
    RanksOfOrder(y, y');
  }

  /** Vectors that are ordered alike, and not constant, correlate perfectly. */
  lemma SpearmanPerfect(x: seq<real>, y: seq<real>)
    requires OrderedAlike(x, y) && !Constant(x)
    ensures Spearman(x, y).Some? && Perfect(Spearman(x, y).value)
  {
    RanksOfOrder(x, y);
    RankSpread(x);
    var a := Dot(Centre(AverageRanks(x)), Centre(AverageRanks(x)));
    ProductBound(a, a);
  }

  /** Reversing the order of one side flips the sign and keeps the denominator. */
  lemma SpearmanAntitone(x: seq<real>, y: seq<real>)
    requires Spearman(x, y).Some?
    ensures var c := Spearman(x, y).value;
            Spearman(Negated(x), y) == Some(Coefficient(-c.num, c.den2))
  {
    hide Dot, Smaller, Equal;
    var r, t, n := AverageRanks(x), AverageRanks(y), |x| as real + 1.0;
    NegatedRanks(x);
    CentreAffine(-1.0, r, n);
    FlipBoth(Centre(r), Centre(r));
    FlipOne(Centre(r), Centre(t));
    assert Spread(AverageRanks(Negated(x)), t) == Spread(r, t);
    assert Dot(Centre(AverageRanks(Negated(x))), Centre(t)) == -Dot(Centre(r), Centre(t));
  }

  lemma NegatedRanks(x: seq<real>)
    ensures AverageRanks(Negated(x)) == Affine(-1.0, AverageRanks(x), |x| as real + 1.0)
  {
    forall i | 0 <= i < |x|
      ensures AverageRanks(Negated(x))[i] == Affine(-1.0, AverageRanks(x), |x| as real + 1.0)[i]
    {
      NegatedRank(x, i);
    }
    assert |AverageRanks(Negated(x))| == |x|;
    assert AverageRanks(Negated(x)) == Affine(-1.0, AverageRanks(x), |x| as real + 1.0);
  }

  lemma FlipOne(x: seq<real>, y: seq<real>)
    requires |x| == |y|
    ensures Dot(Scaled(-1.0, x), y) == -Dot(x, y)
  {
    assert Scaled(-1.0, x) == Combine(-1.0, x, 0.0, x);
    DotCombine(-1.0, x, 0.0, x, y);
  }

  // ----- The three implementations

  method SubtractMean(a: array<real>)
    requires a.Length > 0
    modifies a
    ensures a[..] == Centre(old(a[..]))
  {
    var mean := Mean(a[..]);
    for i := 0 to a.Length
      invariant forall k :: 0 <= k < i ==> a[k] == old(a[k]) - mean
      invariant forall k :: i <= k < a.Length ==> a[k] == old(a[k])
    {
      a[i] := a[i] - mean;
    }
    forall k | 0 <= k < a.Length ensures a[k] == Centre(old(a[..]))[k] {
    }
  }

  /** 1-based ranks, means subtracted in place. */
  method SpearmanFirst(valuesLeft: seq<real>, valuesRight: seq<real>) returns (rho: Option<Coefficient>)
    ensures rho == Spearman(valuesLeft, valuesRight)
  {
    hide Centre, Dot, Smaller, Equal;
    if |valuesLeft| != |valuesRight| || |valuesLeft| < 2 {
      return None;
    }
    var left := RankData(valuesLeft);
    var right := RankData(valuesRight);
    SubtractMean(left);
    SubtractMean(right);
    var den2 := Dot(left[..], left[..]) * Dot(right[..], right[..]);
    assert left[..] == Centre(AverageRanks(valuesLeft)) && right[..] == Centre(AverageRanks(valuesRight));
    assert den2 == Spread(AverageRanks(valuesLeft), AverageRanks(valuesRight));
    rho := if den2 <= 0.0 then None else Some(Coefficient(Dot(left[..], right[..]), den2));
  }

  /** 0-based ranks; the caller has compared the lengths. */
  method SpearmanSecond(left: seq<real>, right: seq<real>) returns (rho: Option<Coefficient>)
    requires |left| == |right|
    ensures rho == Spearman(left, right)
  {
    hide Centre, Dot, Smaller, Equal;
    if |left| < 2 {
      return None;
    }
    var lrank := RankDataFromZero(left);
    var rrank := RankDataFromZero(right);
    assert lrank[..] == Affine(1.0, AverageRanks(left), -1.0);
    assert rrank[..] == Affine(1.0, AverageRanks(right), -1.0);
    ghost var x, y := lrank[..], rrank[..];
    PearsonShift(AverageRanks(left), -1.0, AverageRanks(right), -1.0);
    SubtractMean(lrank);
    SubtractMean(rrank);
    var den2 := Dot(lrank[..], lrank[..]) * Dot(rrank[..], rrank[..]);
    assert den2 == Spread(x, y);
    rho := if den2 <= 0.0 then None else Some(Coefficient(Dot(lrank[..], rrank[..]), den2));
  }

  /** Descending ranks and the guarded denominator. */
  method SpearmanThird(left: seq<real>, right: seq<real>) returns (rho: Option<Coefficient>)
    ensures rho == Spearman(left, right)
  {
    hide Centre, Dot;
    var lrank := RankDescending(left);
    var rrank := RankDescending(right);
    rho := GuardedPearson(lrank[..], rrank[..]);
    GuardNeverFires(left, right);
    if |left| == |right| >= 2 {
      var n := |left| as real + 1.0;
      assert lrank[..] == Affine(-1.0, AverageRanks(left), n);
      assert rrank[..] == Affine(-1.0, AverageRanks(right), n);
      PearsonReflect(AverageRanks(left), n, AverageRanks(right), n);
    }
  }

  lemma OrdinalRanksShifted(x: seq<real>)
    requires Distinct(x)
    ensures AsReals(OrdinalRanks(x)) == Affine(1.0, AverageRanks(x), -1.0)
  {
    OrdinalVersusAverage(x);
    forall i | 0 <= i < |x| ensures AsReals(OrdinalRanks(x))[i] == Affine(1.0, AverageRanks(x), -1.0)[i] {
    }
    assert AsReals(OrdinalRanks(x)) == Affine(1.0, AverageRanks(x), -1.0);
  }

  // ----- The correlation of permutation ranks

  /** Undefined for lengths that differ or are below two, and for a side without spread; ties are not looked for. */
  function OrdinalCorrelation(x: seq<real>, y: seq<real>): Option<Coefficient> {
    if |x| != |y| || |x| < 2 || Dot(Centre(x), Centre(x)) == 0.0 || Dot(Centre(y), Centre(y)) == 0.0 then None
    else Pearson(AsReals(OrdinalRanks(x)), AsReals(OrdinalRanks(y)))
  }

  /** Both undefined, or the same number num / sqrt(den2): equal signs and equal squares. */
  predicate SameNumber(a: Option<Coefficient>, b: Option<Coefficient>) {
    if a.None? || b.None? then a.None? && b.None?
    else
      && (a.value.num > 0.0 <==> b.value.num > 0.0) && (a.value.num < 0.0 <==> b.value.num < 0.0)
      && a.value.num * a.value.num * b.value.den2 == b.value.num * b.value.num * a.value.den2
  }

  lemma CentreAt(x: seq<real>, i: nat)
    requires i < |x|
    ensures Centre(x)[i] == x[i] - Mean(x)
  {
  }

  lemma NoSpreadConstant(x: seq<real>)
    requires x != [] && Dot(Centre(x), Centre(x)) == 0.0
    ensures Constant(x)
  {
    hide Dot, Mean, Centre;
    forall i, j | 0 <= i < j < |x| ensures x[i] == x[j] {
      ZeroSquares(Centre(x), i);
      ZeroSquares(Centre(x), j);
      CentreAt(x, i);
      CentreAt(x, j);
    }
  }

  /** A vector has no spread exactly when it is constant. */
  lemma NoSpread(x: seq<real>)
    requires x != []
    ensures Dot(Centre(x), Centre(x)) == 0.0 <==> Constant(x)
    ensures Dot(Centre(x), Centre(x)) >= 0.0
  {
    SquaresNonNegative(Centre(x));
    hide Dot, Centre;
    if Constant(x) {
      ConstantCentre(x);
    } else if Dot(Centre(x), Centre(x)) == 0.0 {
      NoSpreadConstant(x);
    }
  }

  /** Permutation ranks have a correlation exactly for equal lengths of two or more and two sides that vary. */
  lemma OrdinalDefined(x: seq<real>, y: seq<real>)
    ensures OrdinalCorrelation(x, y).None? <==> |x| != |y| || |x| < 2 || Constant(x) || Constant(y)
  {
    if |x| == |y| >= 2 {
      NoSpread(x);
      NoSpread(y);
      if !Constant(x) && !Constant(y) {
        OrdinalsVary(x);
        OrdinalsVary(y);
        hide Dot, Centre, Constant;
        var a, b := AsReals(OrdinalRanks(x)), AsReals(OrdinalRanks(y));
        Positive(Dot(Centre(a), Centre(a)), Dot(Centre(b), Centre(b)), Spread(a, b));
      }
    }
  }

  lemma OrdinalsVary(x: seq<real>)
    requires |x| >= 2
    ensures var r := AsReals(OrdinalRanks(x)); |r| == |x| && Dot(Centre(r), Centre(r)) > 0.0
  {
    hide *;
    OrdinalsOfOrdinals(x);
    DistinctNotConstant(AsReals(OrdinalRanks(x)));
    NoSpread(AsReals(OrdinalRanks(x)));
  }

  /** The permutation ranks give the same coefficient when neither side has ties. */
  lemma UntiedPearson(x: seq<real>, y: seq<real>)
    requires Distinct(x) && Distinct(y)
    ensures Pearson(AsReals(OrdinalRanks(x)), AsReals(OrdinalRanks(y))) == Spearman(x, y)
  {
    OrdinalRanksShifted(x);
    OrdinalRanksShifted(y);
    PearsonShift(AverageRanks(x), -1.0, AverageRanks(y), -1.0);
  }

  /** Equality in Cauchy-Schwarz: the vectors are proportional. */
  lemma Proportional(p: seq<real>, q: seq<real>, i: nat)
    requires |p| == |q| && i < |p| && Dot(p, q) * Dot(p, q) == Dot(p, p) * Dot(q, q)
    ensures Dot(p, p) * q[i] == Dot(p, q) * p[i]
  {
    hide *;
    var a, b, c := Dot(p, p), Dot(p, q), Dot(q, q);
    var u := Combine(a, q, -b, p);
    RemainderSquare(p, q, a, b, c);
    NoRemainder(a, b, c, Dot(u, u));
    ZeroSquares(u, i);
    CombineZero(a, q, b, p, i);
  }

  lemma CombineZero(a: real, q: seq<real>, b: real, p: seq<real>, i: nat)
    requires |p| == |q| && i < |p| && Combine(a, q, -b, p)[i] == 0.0
    ensures a * q[i] == b * p[i]
  {
    var u, v := q[i], p[i];
    assert a * u + -b * v == 0.0;
  }

  lemma NoRemainder(a: real, b: real, c: real, square: real)
    requires b * b == a * c
    requires square == a * (a * c + -b * b) + -b * (a * b + -b * a)
    ensures square == 0.0
  {
    assert a * c + -b * b == 0.0 && a * b + -b * a == 0.0;
  }

  /** A perfect coefficient carries the ties of one side over to the other. */
  lemma PerfectSharesTies(x: seq<real>, y: seq<real>, i: nat, j: nat)
    requires |x| == |y| >= 2 && i < |x| && j < |x| && x[i] == x[j] && Spread(x, y) > 0.0
    requires Dot(Centre(x), Centre(y)) * Dot(Centre(x), Centre(y)) == Spread(x, y)
    ensures y[i] == y[j]
  {
    hide Dot, Centre, Mean;
    CentreAt(x, i);
    CentreAt(x, j);
    CentreAt(y, i);
    CentreAt(y, j);
    EqualShares(Centre(x), Centre(y), Spread(x, y), i, j);
  }

  lemma EqualShares(p: seq<real>, q: seq<real>, spread: real, i: nat, j: nat)
    requires |p| == |q| && i < |p| && j < |p| && p[i] == p[j] && spread > 0.0
    requires spread == Dot(p, p) * Dot(q, q) && Dot(p, q) * Dot(p, q) == spread
    ensures q[i] == q[j]
  {
    hide *;
    SquaresNonNegative(p);
    SpreadFactors(Dot(p, p), Dot(q, q), spread);
    Proportional(p, q, i);
    Proportional(p, q, j);
    Cancel(Dot(p, p), q[i], q[j]);
  }

  lemma SpreadFactors(a: real, b: real, ab: real)
    requires a >= 0.0 && ab == a * b && ab > 0.0
    ensures a > 0.0
  {
    assert a == 0.0 ==> a * b == 0.0;
  }

  /** The permutation ranks of a vector are ordered alike with any stable order of it, and have no ties. */
  lemma OrdinalsOfOrdinals(x: seq<real>)
    ensures |AsReals(OrdinalRanks(x))| == |x|
    ensures Distinct(AsReals(OrdinalRanks(x))) && OrdinalRanks(AsReals(OrdinalRanks(x))) == OrdinalRanks(x)
  {
    var y := AsReals(OrdinalRanks(x));
    forall i, j | 0 <= i < |x| && 0 <= j < |x| ensures y[i] < y[j] <==> Precedes(x, i, j) {
      if Precedes(x, i, j) {
        PrecedingOrdinals(x, i, j);
      } else if i != j {
        PrecedingOrdinals(x, j, i);
      }
    }
    forall j | 0 <= j < |x| ensures Predecessors(y, j) == Predecessors(x, j) {
    }
  }

  lemma DistinctNotConstant(x: seq<real>)
    requires Distinct(x) && |x| >= 2
    ensures !Constant(x)
  {
    assert x[0] != x[1];
  }

  lemma OrdinalsPearson(x: seq<real>, y: seq<real>)
    requires |x| == |y| >= 2 && !Constant(x) && !Constant(y)
    ensures OrdinalCorrelation(x, y) == Pearson(AsReals(OrdinalRanks(x)), AsReals(OrdinalRanks(y)))
  {
    hide OrdinalRanks, AsReals, Dot, Centre, Constant, Pearson;
    NoSpread(x);
    NoSpread(y);
  }

  lemma PearsonItself(y: seq<real>)
    requires |y| >= 2 && Dot(Centre(y), Centre(y)) > 0.0
    ensures Pearson(y, y).Some? && Perfect(Pearson(y, y).value)
  {
    hide Dot, Centre;
    var d := Dot(Centre(y), Centre(y));
    Positive(d, d, d * d);
  }

  /** Against its own permutation ranks a vector correlates perfectly by permutation ranks. */
  lemma PerfectOrdinals(x: seq<real>)
    requires |x| >= 2 && !Constant(x)
    ensures var c := OrdinalCorrelation(x, AsReals(OrdinalRanks(x))); c.Some? && Perfect(c.value)
  {
    var y := AsReals(OrdinalRanks(x));
    hide *;
    OrdinalsOfOrdinals(x);
    DistinctNotConstant(y);
    NoSpread(y);
    OrdinalsPearson(x, y);
    PearsonItself(y);
  }

  /** The same number as a coefficient of 1 is a coefficient of 1. */
  lemma SameAsPerfect(a: Coefficient, c: Coefficient)
    requires Perfect(a) && SameNumber(Some(a), Some(c))
    ensures Perfect(c)
  {
    Positive(a.num, a.num, a.den2);
    Cancel(a.den2, c.den2, c.num * c.num);
  }

  /** A tied side disagrees against its own permutation ranks: only they correlate perfectly with it. */
  lemma TiedDisagrees(x: seq<real>)
    requires !Distinct(x) && !Constant(x)
    ensures var y := AsReals(OrdinalRanks(x));
            |y| == |x| && Distinct(y) && !SameNumber(OrdinalCorrelation(x, y), Spearman(x, y))
  {
    var y := AsReals(OrdinalRanks(x));
    hide *;
    var i, j := Tie(x);
    OrdinalsOfOrdinals(x);
    NotTied(y, i, j);
    TiedNotPerfect(x, y, i, j);
    PerfectOrdinals(x);
    var a, c := OrdinalCorrelation(x, y), Spearman(x, y);
    if c.Some? && SameNumber(a, c) {
      SameAsPerfect(a.value, c.value);
    }
    MissingDiffers(a, c);
  }

  lemma MissingDiffers(a: Option<Coefficient>, c: Option<Coefficient>)
    ensures SameNumber(a, c) ==> (a.Some? <==> c.Some?)
  {
  }

  lemma Tie(x: seq<real>) returns (i: nat, j: nat)
    requires !Distinct(x)
    ensures i < j < |x| && x[i] == x[j]
  {
    i, j :| i < j < |x| && x[i] == x[j];
  }

  lemma NotTied(y: seq<real>, i: nat, j: nat)
    requires Distinct(y) && i < j < |y|
    ensures y[i] != y[j]
  {
  }

  /** Spearman's coefficient is not 1 when one side has a tie that the other has not. */
  lemma TiedNotPerfect(x: seq<real>, y: seq<real>, i: nat, j: nat)
    requires |x| == |y| && i < j < |x| && x[i] == x[j] && y[i] != y[j]
    ensures Spearman(x, y).Some? ==> !Perfect(Spearman(x, y).value)
  {
    var r, t := AverageRanks(x), AverageRanks(y);
    hide AverageRank, Spread, Dot, Centre;
    if Spearman(x, y).Some? && Perfect(Spearman(x, y).value) {
      PerfectSharesTies(r, t, i, j);
      UnequalRanks(y, i, j);
    }
  }

  lemma UnequalRanks(y: seq<real>, i: nat, j: nat)
    requires i < |y| && j < |y| && y[i] != y[j]
    ensures AverageRank(y, y[i]) != AverageRank(y, y[j])
  {
    if y[i] < y[j] {
      RankGap(y, i, j);
    } else {
      RankGap(y, j, i);
    }
  }

  /**
   The scripts report the correlation of permutation ranks as Spearman's. For a side x it is Spearman's
   coefficient against every tie-free other side exactly when x is tie-free too, or constant.
   */
  lemma OrdinalSpearman(x: seq<real>)
    ensures (forall y :: |y| == |x| && Distinct(y) ==> SameNumber(OrdinalCorrelation(x, y), Spearman(x, y))) <==>
            Distinct(x) || Constant(x)
  {
    if Distinct(x) || Constant(x) {
      forall y | |y| == |x| && Distinct(y) ensures SameNumber(OrdinalCorrelation(x, y), Spearman(x, y)) {
        UntiedAgrees(x, y);
      }
    } else {
      TiedDisagrees(x);
    }
  }

  lemma UntiedAgrees(x: seq<real>, y: seq<real>)
    requires |y| == |x| && Distinct(y) && (Distinct(x) || Constant(x))
    ensures SameNumber(OrdinalCorrelation(x, y), Spearman(x, y))
  {
    if |x| >= 2 {
      if Constant(x) {
        hide Dot, Centre, Constant, Spearman;
        NoSpread(x);
        SpearmanDefined(x, y);
      } else {
        hide *;
        DistinctNotConstant(y);
        UntiedPearson(x, y);
        OrdinalsPearson(x, y);
        ItselfSame(Spearman(x, y));
      }
    }
  }

  lemma ItselfSame(c: Option<Coefficient>)
    ensures SameNumber(c, c)
  {
  }

  /** A tie in one side: the permutation ranks give 1, Spearman's coefficient is the square root of 3/4. */
  lemma TieChangesSpearman()
    ensures var x, y := [0.0, 0.0, 1.0], [0.0, 1.0, 2.0];
            && OrdinalCorrelation(x, y) == Some(Coefficient(2.0, 4.0))
            && Spearman(x, y) == Some(Coefficient(1.5, 3.0))
  {
    var x, y := [0.0, 0.0, 1.0], [0.0, 1.0, 2.0];
    SmallRanks();
    hide AverageRanks, OrdinalRanks;
    CentredThree(1.5, 1.5, 3.0);
    CentredThree(1.0, 2.0, 3.0);
    CentredThree(0.0, 1.0, 2.0);
    CentredThree(0.0, 0.0, 1.0);
    hide Centre;
    ThreeDot(-0.5, -0.5, 1.0, -0.5, -0.5, 1.0);
    ThreeDot(-0.5, -0.5, 1.0, -1.0, 0.0, 1.0);
    ThreeDot(-1.0, 0.0, 1.0, -1.0, 0.0, 1.0);
    assert Dot(Centre(x), Centre(x)) > 0.0 by {
      NoSpread(x);
      SquaresNonNegative(Centre(x));
      assert x[0] != x[2];
    }
  }

  lemma SmallRanks()
    ensures AverageRanks([0.0, 0.0, 1.0]) == [1.5, 1.5, 3.0] && AverageRanks([0.0, 1.0, 2.0]) == [1.0, 2.0, 3.0]
    ensures AsReals(OrdinalRanks([0.0, 0.0, 1.0])) == [0.0, 1.0, 2.0]
    ensures AsReals(OrdinalRanks([0.0, 1.0, 2.0])) == [0.0, 1.0, 2.0]
  {
    var x, y := [0.0, 0.0, 1.0], [0.0, 1.0, 2.0];
    assert Smaller(x, 0.0) == {} && Equal(x, 0.0) == {0, 1};
    assert Smaller(x, 1.0) == {0, 1} && Equal(x, 1.0) == {2};
    assert Predecessors(x, 0) == {} && Predecessors(x, 1) == {0} && Predecessors(x, 2) == {0, 1};
    assert Predecessors(y, 0) == {} && Predecessors(y, 1) == {0} && Predecessors(y, 2) == {0, 1};
    assert Distinct(y);
    OrdinalVersusAverage(y);
  }
}
