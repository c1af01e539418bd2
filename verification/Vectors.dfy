/** Sums, means and inner products of real vectors. */
module Vectors {
  import opened Reals

  function Total(x: seq<real>): real {
    if x == [] then 0.0 else Total(x[..|x| - 1]) + x[|x| - 1]
  }

  function Ones(n: nat): (r: seq<real>)
    ensures |r| == n
  {
    seq(n, _ => 1.0)
  }

  /** a*x + b*y, component by component. */
  function Combine(a: real, x: seq<real>, b: real, y: seq<real>): (r: seq<real>)
    requires |x| == |y|
    ensures |r| == |x|
  {
    seq(|x|, i requires 0 <= i < |x| => a * x[i] + b * y[i])
  }

  function Times(x: seq<real>, y: seq<real>): (r: seq<real>)
    requires |x| == |y|
    ensures |r| == |x|
  {
    seq(|x|, i requires 0 <= i < |x| => x[i] * y[i])
  }

  function Dot(x: seq<real>, y: seq<real>): real
    requires |x| == |y|
  {
    Total(Times(x, y))
  }

  function Mean(x: seq<real>): real
    requires x != []
  {
    Total(x) / |x| as real
  }

  /** The deviations from the mean. */
  function Centre(x: seq<real>): (c: seq<real>)
    requires x != []
    ensures |c| == |x|
  {
    Combine(1.0, x, -Mean(x), Ones(|x|))
  }

  lemma {:induction false} TotalEnd(x: seq<real>, v: real)
    ensures Total(x + [v]) == Total(x) + v
  {
    assert (x + [v])[..|x|] == x;
  }

  lemma {:induction false} TotalCombine(a: real, x: seq<real>, b: real, y: seq<real>)
    requires |x| == |y|
    ensures Total(Combine(a, x, b, y)) == a * Total(x) + b * Total(y)
  {
    if x != [] {
      var n := |x| - 1;
      TotalCombine(a, x[..n], b, y[..n]);
      CombineParts(a, x, b, y);
      hide Combine;
      Regroup(a, Total(x[..n]), x[n], b, Total(y[..n]), y[n]);
    }
  }

  lemma CombineParts(a: real, x: seq<real>, b: real, y: seq<real>)
    requires |x| == |y| > 0
    ensures var n := |x| - 1;
            && Combine(a, x, b, y)[..n] == Combine(a, x[..n], b, y[..n])
            && Combine(a, x, b, y)[n] == a * x[n] + b * y[n]
  {
    var n := |x| - 1;
    forall i | 0 <= i < n ensures Combine(a, x, b, y)[i] == Combine(a, x[..n], b, y[..n])[i] {
    }
  }

  lemma Regroup(a: real, s: real, u: real, b: real, t: real, v: real)
    ensures a * (s + u) + b * (t + v) == a * s + b * t + (a * u + b * v)
  {
  }

  lemma {:induction false} TotalOnes(n: nat)
    ensures Total(Ones(n)) == n as real
  {
    if n > 0 {
      TotalOnes(n - 1);
      assert Ones(n)[..n - 1] == Ones(n - 1);
    }
  }

  lemma {:induction false} TotalNonNegative(x: seq<real>)
    requires forall i :: 0 <= i < |x| ==> x[i] >= 0.0
    ensures Total(x) >= 0.0
  {
    if x != [] {
      TotalNonNegative(x[..|x| - 1]);
    }
  }

  lemma {:induction false} TotalAtLeast(x: seq<real>, i: nat)
    requires forall k :: 0 <= k < |x| ==> x[k] >= 0.0
    requires i < |x|
    ensures Total(x) >= x[i]
  {
    TotalNonNegative(x[..|x| - 1]);
    if i < |x| - 1 {
      TotalAtLeast(x[..|x| - 1], i);
    }
  }

  lemma {:induction false} TotalAtLeastTwo(x: seq<real>, i: nat, j: nat)
    requires forall k :: 0 <= k < |x| ==> x[k] >= 0.0
    requires i < j < |x|
    ensures Total(x) >= x[i] + x[j]
  {
    if j < |x| - 1 {
      TotalAtLeastTwo(x[..|x| - 1], i, j);
    } else {
      TotalAtLeast(x[..|x| - 1], i);
    }
  }

  lemma DotSymmetric(x: seq<real>, y: seq<real>)
    requires |x| == |y|
    ensures Dot(x, y) == Dot(y, x)
  {
    assert Times(x, y) == Times(y, x);
  }

  lemma Distribute(a: real, p: real, b: real, q: real, r: real, sum: real, pr: real, qr: real)
    requires sum == a * p + b * q && pr == p * r && qr == q * r
    ensures sum * r == a * pr + b * qr
  {
  }

  lemma TimesCombine(a: real, x: seq<real>, b: real, y: seq<real>, z: seq<real>)
    requires |x| == |y| == |z|
    ensures Times(Combine(a, x, b, y), z) == Combine(a, Times(x, z), b, Times(y, z))
  {
    forall i | 0 <= i < |x| ensures Times(Combine(a, x, b, y), z)[i] == Combine(a, Times(x, z), b, Times(y, z))[i] {
      Distribute(a, x[i], b, y[i], z[i], Combine(a, x, b, y)[i], Times(x, z)[i], Times(y, z)[i]);
    }
  }

  lemma DotCombine(a: real, x: seq<real>, b: real, y: seq<real>, z: seq<real>)
    requires |x| == |y| == |z|
    ensures Dot(Combine(a, x, b, y), z) == a * Dot(x, z) + b * Dot(y, z)
  {
    TimesCombine(a, x, b, y, z);
    hide Total, Times, Combine;
    TotalCombine(a, Times(x, z), b, Times(y, z));
  }

  lemma SquaresNonNegative(x: seq<real>)
    ensures forall i :: 0 <= i < |x| ==> Times(x, x)[i] >= 0.0
    ensures Dot(x, x) >= 0.0
  {
    forall i | 0 <= i < |x| ensures Times(x, x)[i] >= 0.0 {
      SquareNonNegative(x[i], Times(x, x)[i]);
    }
    TotalNonNegative(Times(x, x));
  }

  lemma ZeroSquares(x: seq<real>, i: nat)
    requires Dot(x, x) == 0.0 && i < |x|
    ensures x[i] == 0.0
  {
    SquaresNonNegative(x);
    TotalAtLeast(Times(x, x), i);
    ZeroSquare(x[i], Times(x, x)[i]);
  }

  lemma {:induction false} TotalZero(x: seq<real>)
    requires forall i :: 0 <= i < |x| ==> x[i] == 0.0
    ensures Total(x) == 0.0
  {
    if x != [] {
      TotalZero(x[..|x| - 1]);
    }
  }

  lemma TimesAt(x: seq<real>, y: seq<real>, i: nat)
    requires |x| == |y| && i < |x|
    ensures |Times(x, y)| == |x| && Times(x, y)[i] == x[i] * y[i]
  {
  }

  lemma DotIsTotal(x: seq<real>, y: seq<real>)
    requires |x| == |y|
    ensures Dot(x, y) == Total(Times(x, y))
  {
  }

  /** The square of a*y - b*x. */
  lemma RemainderSquare(x: seq<real>, y: seq<real>, a: real, b: real, c: real)
    requires |x| == |y| && a == Dot(x, x) && b == Dot(x, y) && c == Dot(y, y)
    ensures var u := Combine(a, y, -b, x); Dot(u, u) == a * (a * c + -b * b) + -b * (a * b + -b * a)
  {
    hide *;
    var u := Combine(a, y, -b, x);
    DotCombine(a, y, -b, x, u);
    DotSymmetric(y, u);
    DotSymmetric(x, u);
    DotCombine(a, y, -b, x, y);
    DotCombine(a, y, -b, x, x);
    DotSymmetric(x, y);
  }

  /** Cauchy-Schwarz, from the squares of a*y - b*x with a = x.x and b = x.y. */
  lemma CauchySchwarz(x: seq<real>, y: seq<real>)
    requires |x| == |y|
    ensures Dot(x, y) * Dot(x, y) <= Dot(x, x) * Dot(y, y)
  {
    hide *;
    var a, b, c := Dot(x, x), Dot(x, y), Dot(y, y);
    SquaresNonNegative(x);
    if a == 0.0 {
      forall i | 0 <= i < |x| ensures Times(x, y)[i] == 0.0 {
        ZeroSquares(x, i);
        TimesAt(x, y, i);
      }
      TotalZero(Times(x, y));
      DotIsTotal(x, y);
    } else {
      var u := Combine(a, y, -b, x);
      SquaresNonNegative(u);
      RemainderSquare(x, y, a, b, c);
      Discriminant(a, b, c, Dot(u, u));
    }
  }

  lemma Discriminant(a: real, b: real, c: real, square: real)
    requires a > 0.0 && square >= 0.0
    requires square == a * (a * c + -b * b) + -b * (a * b + -b * a)
    ensures b * b <= a * c
  {
    assert a * b + -b * a == 0.0;
    assert square == a * (a * c - b * b);
    if a * c < b * b {
      Negative(a, a * c - b * b, square);
    }
  }

  lemma CentreTotal(x: seq<real>)
    requires x != []
    ensures Total(Centre(x)) == 0.0
  {
    hide Total, Combine, Ones;
    TotalCombine(1.0, x, -Mean(x), Ones(|x|));
    TotalOnes(|x|);
    MeanTimesCount(x);
  }

  lemma {:induction false} MeanTimesCount(x: seq<real>)
    requires x != []
    ensures Mean(x) * |x| as real == Total(x)
  {
  }

  /** A centred vector is orthogonal to constants: x.c(y) is the same as c(x).c(y). */
  lemma CentreDot(x: seq<real>, y: seq<real>)
    requires |x| == |y| > 0
    ensures Dot(Centre(x), Centre(y)) == Dot(x, Centre(y))
  {
    var c := Centre(y);
    assert Times(Ones(|x|), c) == c;
    hide Total, Combine, Ones, Mean;
    DotCombine(1.0, x, -Mean(x), Ones(|x|), c);
    CentreTotal(y);
  }

  // ----- Vectors of two and three components

  lemma CentredTwo(a: real, b: real)
    ensures Mean([a, b]) == (a + b) / 2.0 && Centre([a, b]) == [(a - b) / 2.0, (b - a) / 2.0]
  {
    assert [a, b][..1] == [a] && [a][..0] == [];
    assert Total([a]) == a;
    assert Mean([a, b]) == (a + b) / 2.0;
    hide Total, Mean;
  }

  lemma TwoDot(x: seq<real>, y: seq<real>)
    requires |x| == |y| == 2
    ensures Dot(x, y) == x[0] * y[0] + x[1] * y[1]
  {
    var t := Times(x, y);
    assert t[..1][..0] == [];
    assert Total(t[..1]) == t[0];
  }

  lemma CentredThree(a: real, b: real, c: real)
    ensures Centre([a, b, c]) == [a - (a + b + c) / 3.0, b - (a + b + c) / 3.0, c - (a + b + c) / 3.0]
  {
    TotalThree(a, b, c);
    hide Total;
  }

  lemma TotalThree(a: real, b: real, c: real)
    ensures Total([a, b, c]) == a + b + c
  {
    assert [a, b, c][..2] == [a, b] && [a, b][..1] == [a] && [a][..0] == [];
    assert Total([a]) == a;
  }

  lemma ThreeDot(a: real, b: real, c: real, d: real, e: real, f: real)
    ensures Dot([a, b, c], [d, e, f]) == a * d + b * e + c * f
  {
    TimesThree([a, b, c], [d, e, f], a * d, b * e, c * f);
    TotalThree(a * d, b * e, c * f);
  }

  lemma TimesThree(x: seq<real>, y: seq<real>, u: real, v: real, w: real)
    requires |x| == |y| == 3 && u == x[0] * y[0] && v == x[1] * y[1] && w == x[2] * y[2]
    ensures Times(x, y) == [u, v, w]
  {
    hide Times;
    TimesAt(x, y, 0);
    TimesAt(x, y, 1);
    TimesAt(x, y, 2);
    var t := Times(x, y);
    assert t[0] == u && t[1] == v && t[2] == w;
    assert t == [u, v, w];
  }
}
