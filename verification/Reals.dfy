/**
 Signs of products of reals. The product is passed as an argument of its own, because the
 solver reasons better about a name than about a nonlinear term.
 */
module Reals {

  function Abs(x: real): real {
    if x < 0.0 then -x else x
  }

  lemma Positive(a: real, b: real, product: real)
    requires a > 0.0 && b > 0.0 && product == a * b
    ensures product > 0.0
  {
  }

  lemma BothNegative(a: real, b: real, product: real)
    requires a < 0.0 && b < 0.0 && product == a * b
    ensures product > 0.0
  {
    Positive(-a, -b, product);
  }

  lemma Negative(a: real, b: real, product: real)
    requires a > 0.0 && b < 0.0 && product == a * b
    ensures product < 0.0
  {
    Positive(a, -b, -product);
  }

  lemma NonNegative(a: real, b: real, product: real)
    requires a >= 0.0 && b >= 0.0 && product == a * b
    ensures product >= 0.0
  {
    if a > 0.0 && b > 0.0 {
      Positive(a, b, product);
    }
  }

  lemma SquareNonNegative(a: real, square: real)
    requires square == a * a
    ensures square >= 0.0
  {
    if a < 0.0 {
      BothNegative(a, a, square);
    } else {
      NonNegative(a, a, square);
    }
  }

  lemma ZeroSquare(a: real, square: real)
    requires square == a * a && square <= 0.0
    ensures a == 0.0
  {
    if a > 0.0 {
      Positive(a, a, square);
    } else if a < 0.0 {
      BothNegative(a, a, square);
    }
  }

  lemma SquareOrder(a: real, b: real)
    requires a >= 0.0 && b >= 0.0 && a * a == b * b
    ensures a == b
  {
    var product := (a - b) * (a + b);
    assert product == 0.0;
    if a > b {
      Positive(a - b, a + b, product);
    } else if a < b {
      Positive(b - a, a + b, -product);
    }
  }

  lemma Cancel(d: real, a: real, b: real)
    requires d > 0.0 && d * a == d * b
    ensures a == b
  {
  }
}
