/**
 * Small facts of real arithmetic, each about one product or quotient, that
 * the solver does not find unaided inside larger proofs.
 */
module RealArith {

  lemma MulNonNegative(a: real, b: real)
    requires 0.0 <= a && 0.0 <= b
    ensures 0.0 <= a * b
  {
  }

  /** A quotient of a non-negative number by a positive one is non-negative. */
  lemma DivNonNegative(x: real, tau: real)
    requires 0.0 <= x && 0.0 < tau
    ensures 0.0 <= x / tau
  {
    var q := x / tau;
    assert q * tau == x;
  }

  /** Dividing by a positive number at most as large gives at least 1. */
  lemma DivAtLeastOne(a: real, tau: real)
    requires 0.0 < tau <= a
    ensures 1.0 <= a / tau
  {
    var q := a / tau;
    assert q * tau == a;
    assert (q - 1.0) * tau == a - tau;
  }

  /** Dividing a non-negative number by a larger one gives less than 1. */
  lemma DivBelowOne(a: real, tau: real)
    requires 0.0 <= a < tau
    ensures a / tau < 1.0
  {
    var q := a / tau;
    assert q * tau == a;
    assert (1.0 - q) * tau == tau - a;
  }

  /** Dividing by a smaller positive number gives more than 1. */
  lemma DivAboveOne(a: real, tau: real)
    requires 0.0 < tau < a
    ensures 1.0 < a / tau
  {
    var q := a / tau;
    assert q * tau == a;
    assert (q - 1.0) * tau == a - tau;
  }

  lemma ProductNonZero(a: real, b: real)
    ensures a != 0.0 && b != 0.0 ==> a * b != 0.0
  {
    if 0.0 < a && 0.0 < b {
      assert 0.0 < a * b;
    } else if a < 0.0 && 0.0 < b {
      assert 0.0 < (-a) * b;
    } else if 0.0 < a && b < 0.0 {
      assert 0.0 < a * (-b);
    } else if a < 0.0 && b < 0.0 {
      assert 0.0 < (-a) * (-b);
    }
  }

  lemma SquareSign(x: real)
    ensures 0.0 <= x * x
    ensures x != 0.0 ==> 0.0 < x * x
  {
    if 0.0 < x {
      assert 0.0 < x * x;
    } else if x < 0.0 {
      assert 0.0 < (-x) * (-x);
    }
  }

  lemma DivMul(a: real, b: real)
    requires b != 0.0
    ensures (a / b) * b == a
  {
  }

  lemma Recip(d: real)
    requires d != 0.0
    ensures (1.0 / d) * d == 1.0
  {
  }

  lemma RecipUnique(y: real, d: real)
    requires d != 0.0 && y * d == 1.0
    ensures y == 1.0 / d
  {
  }

  /** Adding one whole divisor adds one to the quotient. */
  lemma DivStep(x: real, tau: real)
    requires 0.0 < tau
    ensures (x + tau) / tau == x / tau + 1.0
  {
    var q := x / tau;
    var p := (x + tau) / tau;
    assert q * tau == x;
    assert p * tau == x + tau;
    var d := p - q - 1.0;
    assert d * tau == 0.0;
    assert d == 0.0;
  }

  lemma FloorStep(x: real)
    ensures (x - 1.0).Floor == x.Floor - 1
  {
  }

  lemma DivideMonotone(x: real, y: real, s: real)
    requires 0.0 < s && x <= y
    ensures x / s <= y / s
  {
    var dx, dy := x / s, y / s;
    assert dx * s == x && dy * s == y;
    assert (dy - dx) * s == y - x;
  }

  lemma QuotientMonotone(x: real, x': real, s: real, s': real)
    requires 0.0 < x <= x' && 0.0 < s' <= s
    ensures x / s <= x' / s'
  {
    var q, q' := x / s, x' / s';
    assert q * s == x && q' * s' == x';
    assert 0.0 < q;
    assert q * s' <= q * s;
    assert q * s' <= q' * s';
  }
}
