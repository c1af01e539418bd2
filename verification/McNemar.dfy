/**
 McNemar's exact test: the p-value of both scripts is the exact two-sided binomial tail,
 and the counts it is fed come from a four-cell partition of the missions.
 */
module McNemar {

  // ----- Binomial coefficients

  function Comb(n: nat, k: nat): nat {
    if k == 0 then 1 else if n == 0 then 0 else Comb(n - 1, k - 1) + Comb(n - 1, k)
  }

  function Pow2(n: nat): (p: nat)
    ensures p >= 1
  {
    if n == 0 then 1 else 2 * Pow2(n - 1)
  }

  function Factorial(n: nat): (f: nat)
    ensures f >= 1
  {
    if n == 0 then 1 else n * Factorial(n - 1)
  }

  lemma {:induction false} CombZero(n: nat, k: nat)
    requires k > n
    ensures Comb(n, k) == 0
  {
    if n > 0 {
      CombZero(n - 1, k - 1);
      CombZero(n - 1, k);
    }
  }

  lemma {:induction false} CombPositive(n: nat, k: nat)
    requires k <= n
    ensures Comb(n, k) > 0
  {
    if k > 0 {
      CombPositive(n - 1, k - 1);
    }
  }

  lemma {:induction false} CombSymmetric(n: nat, k: nat)
    requires k <= n
    ensures Comb(n, k) == Comb(n, n - k)
  {
    if n > 0 {
      if k == 0 {
        CombSymmetric(n - 1, 0);
        CombZero(n - 1, n);
      } else if k == n {
        CombSymmetric(n - 1, n - 1);
        CombZero(n - 1, n);
      } else {
        CombSymmetric(n - 1, k - 1);
        CombSymmetric(n - 1, k);
      }
    }
  }

  lemma Pull(k: int, a: int, x: int, c: int)
    ensures (k * a) * x * c == k * (a * x * c)
    ensures x * (k * a) * c == k * (x * a * c)
  {
  }

  lemma FactorialStep(n: nat, k: nat, a: int, b: int, p: int, q: int, f: int)
    requires a * ((n - k) * b) * p == f && (k * a) * b * q == f
    ensures (k * a) * ((n - k) * b) * (p + q) == n * f
  {
    Pull(k, a, (n - k) * b, p);
    Pull(n - k, b, k * a, q);
    assert (k * a) * ((n - k) * b) * (p + q) == (k * a) * ((n - k) * b) * p + (k * a) * ((n - k) * b) * q;
  }

  /** math.comb(n, k) = n! / (k! (n - k)!). */
  lemma {:induction false} CombFactorial(n: nat, k: nat)
    requires k <= n
    ensures Factorial(k) * Factorial(n - k) * Comb(n, k) == Factorial(n)
  {
    if k == n {
      CombDiagonal(n);
    } else if k > 0 {
      CombFactorial(n - 1, k - 1);
      CombFactorial(n - 1, k);
      FactorialStep(n, k, Factorial(k - 1), Factorial(n - k - 1), Comb(n - 1, k - 1), Comb(n - 1, k), Factorial(n - 1));
    }
  }

  lemma {:induction false} CombDiagonal(n: nat)
    ensures Comb(n, n) == 1
  {
    if n > 0 {
      CombDiagonal(n - 1);
      CombZero(n - 1, n);
    }
  }

  // ----- Tails

  /** The sum of Comb(n, k) for k below m. */
  function Tail(n: nat, m: nat): nat {
    if m == 0 then 0 else Tail(n, m - 1) + Comb(n, m - 1)
  }

  lemma {:induction false} TailPascal(n: nat, m: nat)
    requires n > 0 && m > 0
    ensures Tail(n, m) == Tail(n - 1, m) + Tail(n - 1, m - 1)
  {
    if m > 1 {
      TailPascal(n, m - 1);
    }
  }

  lemma {:induction false} RowSum(n: nat)
    ensures Tail(n, n + 1) == Pow2(n)
  {
    if n == 0 {
      assert Tail(0, 1) == Tail(0, 0) + Comb(0, 0);
    } else {
      RowSum(n - 1);
      TailPascal(n, n + 1);
      CombZero(n - 1, n);
      assert Tail(n - 1, n + 1) == Tail(n - 1, n) + Comb(n - 1, n);
    }
  }

  /** The lower m terms and the lower n + 1 - m terms make up the whole row. */
  lemma {:induction false} TailComplement(n: nat, m: nat)
    requires m <= n + 1
    ensures Tail(n, m) + Tail(n, n + 1 - m) == Pow2(n)
  {
    if m == 0 {
      RowSum(n);
    } else {
      TailComplement(n, m - 1);
      CombSymmetric(n, m - 1);
    }
  }

  lemma {:induction false} TailGrows(n: nat, m: nat, m': nat)
    requires m < m' <= n + 1
    ensures Tail(n, m) < Tail(n, m')
  {
    CombPositive(n, m' - 1);
    if m < m' - 1 {
      TailGrows(n, m, m' - 1);
    }
  }

  // ----- The p-values

  function Min(a: int, b: int): int {
    if a < b then a else b
  }

  function Abs(a: int): nat {
    if a < 0 then -a else a
  }

  function PValue(failSuccess: nat, successFail: nat): real {
    var n := failSuccess + successFail;
    if n == 0 then 1.0 else
    var tail := Tail(n, Min(failSuccess, successFail) + 1) as real / Pow2(n) as real;
    if 2.0 * tail < 1.0 then 2.0 * tail else 1.0
  }

  /** The same test as written in the second script. */
  function PairedPValue(regressed: nat, recovered: nat): real {
    var n := regressed + recovered;
    if n == 0 then 1.0 else
    var p := 2.0 * Tail(n, Min(regressed, recovered) + 1) as real / Pow2(n) as real;
    if p < 1.0 then p else 1.0
  }

  /** The number of outcomes of n fair coins, k heads, k below m, whose imbalance is at least gap. */
  function Extreme(n: nat, gap: nat, m: nat): nat {
    if m == 0 then 0
    else Extreme(n, gap, m - 1) + if Abs(2 * (m - 1) - n) >= gap then Comb(n, m - 1) else 0
  }

  /** The two-sided binomial tail: the probability of an imbalance of at least `gap`. */
  function TwoSidedTail(n: nat, gap: nat): real {
    Extreme(n, gap, n + 1) as real / Pow2(n) as real
  }

  /** With lower side k < s and its mirror image, s the smaller count plus one. */
  lemma {:induction false} ExtremeSplit(n: nat, s: nat, m: nat)
    requires 2 * s <= n + 1 && m <= n + 1
    ensures Extreme(n, n + 2 - 2 * s, m) ==
            if m <= s then Tail(n, m)
            else if m <= n + 1 - s then Tail(n, s)
            else Tail(n, s) + (Tail(n, m) - Tail(n, n + 1 - s))
  {
    if m > 0 {
      ExtremeSplit(n, s, m - 1);
    }
  }

  lemma {:induction false} ExtremeAll(n: nat, m: nat)
    ensures Extreme(n, 0, m) == Tail(n, m)
  {
    if m > 0 {
      ExtremeAll(n, m - 1);
    }
  }

  lemma Quotient(t: real, p: real)
    requires p > 0.0
    ensures t / p < 1.0 <==> t < p
    ensures t / p == 1.0 <==> t == p
  {
    var x := t / p;
    assert x * p == t;
  }

  lemma HalfRatio(t: int, p: int)
    requires p > 0
    ensures 2.0 * (t as real / p as real) == (2 * t) as real / p as real
    ensures 2.0 * t as real / p as real == (2 * t) as real / p as real
    ensures (2 * t) as real / p as real < 1.0 <==> 2 * t < p
    ensures (2 * t) as real / p as real == 1.0 <==> 2 * t == p
  {
    Quotient((2 * t) as real, p as real);
    Doubled(t as real, p as real);
    assert (2 * t) as real == 2.0 * t as real;
  }

  lemma Doubled(t: real, p: real)
    requires p > 0.0
    ensures 2.0 * (t / p) == (2.0 * t) / p
  {
  }

  lemma BothFormsAgree(b: nat, c: nat)
    ensures PairedPValue(b, c) == PValue(b, c)
  {
    HalfRatio(Tail(b + c, Min(b, c) + 1), Pow2(b + c));
  }

  lemma PValueSymmetric(b: nat, c: nat)
    ensures PValue(b, c) == PValue(c, b)
  {
  }

  /** Twice the lower tail, compared with the whole: 2 T < 2^n exactly for a gap of two or more. */
  lemma {:induction false} DoubledTail(n: nat, s: nat)
    requires 0 < s && 2 * s <= n + 2
    ensures 2 * s <= n ==> 2 * Tail(n, s) < Pow2(n)
    ensures 2 * s == n + 1 ==> 2 * Tail(n, s) == Pow2(n)
    ensures 2 * s == n + 2 ==> 2 * Tail(n, s) > Pow2(n)
  {
    TailComplement(n, s);
    if 2 * s <= n {
      TailGrows(n, s, n + 1 - s);
    } else if 2 * s == n + 2 {
      TailGrows(n, n + 1 - s, s);
    }
  }

  lemma {:induction false} ExtremeCount(b: nat, c: nat)
    ensures Extreme(b + c, Abs(b - c), b + c + 1) ==
            if b == c then Pow2(b + c) else 2 * Tail(b + c, Min(b, c) + 1)
  {
    var n, s := b + c, Min(b, c) + 1;
    if b == c {
      ExtremeAll(n, n + 1);
      RowSum(n);
    } else {
      assert Abs(b - c) == n + 2 - 2 * s;
      ExtremeSplit(n, s, n + 1);
      RowSum(n);
      TailComplement(n, s);
    }
  }

  /** For every pair of counts the p-value is exactly the two-sided binomial tail. */
  lemma PValueIsTwoSidedTail(b: nat, c: nat)
    ensures PValue(b, c) == TwoSidedTail(b + c, Abs(b - c))
  {
    hide Tail, Extreme, Pow2;
    var n, s := b + c, Min(b, c) + 1;
    ExtremeCount(b, c);
    Quotient(Pow2(n) as real, Pow2(n) as real);
    DoubledTail(n, s);
    HalfRatio(Tail(n, s), Pow2(n));
  }

  /** p = 1 exactly when the counts differ by at most one. */
  lemma PValueOne(b: nat, c: nat)
    ensures PValue(b, c) == 1.0 <==> Abs(b - c) <= 1
  {
    var n, s := b + c, Min(b, c) + 1;
    if n > 0 {
      DoubledTail(n, s);
      HalfRatio(Tail(n, s), Pow2(n));
    }
  }

  /** The clamp min(1, .) matters exactly for equal non-zero counts. */
  lemma {:induction false} ClampMatters(b: nat, c: nat)
    requires b + c > 0
    ensures 2.0 * (Tail(b + c, Min(b, c) + 1) as real / Pow2(b + c) as real) > 1.0 <==> b == c
  {
    var n, s := b + c, Min(b, c) + 1;
    DoubledTail(n, s);
    HalfRatio(Tail(n, s), Pow2(n));
  }

  /** With the number of discordant pairs fixed, p falls strictly as they become more one-sided. */
  lemma PValueStrict(b: nat, c: nat, b': nat, c': nat)
    requires b + c == b' + c'
    requires Abs(b - c) > Abs(b' - c') && Abs(b - c) >= 2
    ensures PValue(b, c) < PValue(b', c')
  {
    var n, s, s' := b + c, Min(b, c) + 1, Min(b', c') + 1;
    TailGrows(n, s, s');
    DoubledTail(n, s);
    DoubledTail(n, s');
    HalfRatio(Tail(n, s), Pow2(n));
    HalfRatio(Tail(n, s'), Pow2(n));
    RatioLess(2 * Tail(n, s), 2 * Tail(n, s'), Pow2(n));
  }

  lemma RatioLess(t: int, t': int, p: int)
    requires p > 0 && t < t'
    ensures t as real / p as real < t' as real / p as real
  {
  }

  // ----- The four cells

  datatype Pair = Pair(bc: bool, awac: bool)
  datatype Cells = Cells(both: nat, regressed: nat, recovered: nat, neither: nat)

  /** How many pairs have the given two outcomes. */
  function Count(pairs: seq<Pair>, p: Pair): nat {
    if pairs == [] then 0
    else Count(pairs[..|pairs| - 1], p) + if pairs[|pairs| - 1] == p then 1 else 0
  }

  function BcSuccesses(pairs: seq<Pair>): nat {
    if pairs == [] then 0
    else BcSuccesses(pairs[..|pairs| - 1]) + if pairs[|pairs| - 1].bc then 1 else 0
  }

  function AwacSuccesses(pairs: seq<Pair>): nat {
    if pairs == [] then 0
    else AwacSuccesses(pairs[..|pairs| - 1]) + if pairs[|pairs| - 1].awac then 1 else 0
  }

  method CountCells(pairs: seq<Pair>) returns (cells: Cells)
    ensures cells.both == Count(pairs, Pair(true, true)) && cells.regressed == Count(pairs, Pair(true, false))
    ensures cells.recovered == Count(pairs, Pair(false, true)) && cells.neither == Count(pairs, Pair(false, false))
  {
    cells := Cells(0, 0, 0, 0);
    for i := 0 to |pairs|
      invariant cells.both == Count(pairs[..i], Pair(true, true))
      invariant cells.regressed == Count(pairs[..i], Pair(true, false))
      invariant cells.recovered == Count(pairs[..i], Pair(false, true))
      invariant cells.neither == Count(pairs[..i], Pair(false, false))
    {
      var pair := pairs[i];
      assert pairs[..i + 1][..i] == pairs[..i];
      if pair.bc && pair.awac {
        cells := cells.(both := cells.both + 1);
      } else if pair.bc {
        cells := cells.(regressed := cells.regressed + 1);
      } else if pair.awac {
        cells := cells.(recovered := cells.recovered + 1);
      } else {
        cells := cells.(neither := cells.neither + 1);
      }
    }
    assert pairs[..|pairs|] == pairs;
  }

  /** The four cells partition the pairs and determine both success counts. */
  lemma {:induction false} CellMarginals(pairs: seq<Pair>)
    ensures var regressed, recovered := Count(pairs, Pair(true, false)), Count(pairs, Pair(false, true));
            && Count(pairs, Pair(true, true)) + regressed + recovered + Count(pairs, Pair(false, false)) == |pairs|
            && Count(pairs, Pair(true, true)) + regressed == BcSuccesses(pairs)
            && recovered - regressed == AwacSuccesses(pairs) - BcSuccesses(pairs)
  {
    if pairs != [] {
      CellMarginals(pairs[..|pairs| - 1]);
    }
  }

  /** Equal success counts, or success counts one apart, can never be significant. */
  lemma {:induction false} CloseCountsAreInsignificant(pairs: seq<Pair>)
    ensures PairedPValue(Count(pairs, Pair(true, false)), Count(pairs, Pair(false, true))) == 1.0 <==>
            Abs(AwacSuccesses(pairs) - BcSuccesses(pairs)) <= 1
  {
    var regressed, recovered := Count(pairs, Pair(true, false)), Count(pairs, Pair(false, true));
    CellMarginals(pairs);
    BothFormsAgree(regressed, recovered);
    PValueOne(regressed, recovered);
  }
}
