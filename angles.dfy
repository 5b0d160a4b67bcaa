/**
 * Scalar helpers of test.py: the sign function `sgn` and the angle
 * wrapping `awrap`.  Angles are reals and 2*pi is `2.0 * pi` for an
 * abstract positive `pi`.
 */
module Angles {
  import opened RealArith

  /**
   * `sgn(x)` is `copysign(1., x)`.  Over the reals there is no signed zero,
   * so zero counts as positive.
   */
  function Sgn(x: real): (s: real)
    ensures s == 1.0 || s == -1.0
    ensures s == 1.0 <==> 0.0 <= x
  {
    if 0.0 <= x then 1.0 else -1.0
  }

  /** The sign factors of addp and subp are +1 on non-negative radii. */
  lemma SgnProductNonNegative(x: real, y: real)
    requires 0.0 <= x && 0.0 <= y
    ensures Sgn(x) * Sgn(y) == 1.0
  {
  }

  /** Count of loop iterations still to come while `a` is negative. */
  function UpSteps(tau: real, a: real): nat
    requires 0.0 < tau
  {
    if a < 0.0 then ((-a) / tau).Floor + 1 else 0
  }

  /** Count of loop iterations still to come while `a` exceeds `tau`. */
  function DownSteps(tau: real, a: real): nat
    requires 0.0 < tau
  {
    if a > tau then (a / tau).Floor else 0
  }

  /** One pass of the first loop of awrap brings the angle closer to 0. */
  lemma UpStepsDecrease(tau: real, a: real)
    requires 0.0 < tau && a < 0.0
    ensures UpSteps(tau, a + tau) < UpSteps(tau, a)
  {
    DivNonNegative(-a, tau);
    FloorStep(-a / tau);
    DivStep(-(a + tau), tau);
  }

  /** One pass of the second loop of awrap brings the angle closer to [0, tau]. */
  lemma DownStepsDecrease(tau: real, a: real)
    requires 0.0 < tau < a
    ensures DownSteps(tau, a - tau) < DownSteps(tau, a)
  {
    DivAboveOne(a, tau);
    FloorStep(a / tau);
    DivStep(a - tau, tau);
  }

  /**
   * The second loop of awrap: subtract 2*pi while the angle exceeds it.
   * From a non-negative angle it lands in [0, 2*pi], 2*pi included.
   */
  function WrapDown(pi: real, a: real): (r: real)
    requires 0.0 < pi
    ensures 0.0 <= a ==> 0.0 <= r <= 2.0 * pi
    ensures 0.0 <= a <= 2.0 * pi ==> r == a
    decreases DownSteps(2.0 * pi, a)
  {
    if a > 2.0 * pi then
      DownStepsDecrease(2.0 * pi, a);
      WrapDown(pi, a - 2.0 * pi)
    else a
  }

  /**
   * The value awrap returns: add 2*pi while the angle is negative, then
   * subtract 2*pi while it exceeds 2*pi.
   */
  function Wrap(pi: real, a: real): (r: real)
    requires 0.0 < pi
    ensures 0.0 <= r <= 2.0 * pi
    ensures 0.0 <= a <= 2.0 * pi ==> r == a
    ensures a < 0.0 ==> r < 2.0 * pi
    decreases UpSteps(2.0 * pi, a)
  {
    if a < 0.0 then
      UpStepsDecrease(2.0 * pi, a);
      Wrap(pi, a + 2.0 * pi)
    else WrapDown(pi, a)
  }

  /** awrap only ever adds or subtracts whole turns of 2*pi. */
  lemma {:induction false} WrapDownTurns(pi: real, a: real) returns (k: int)
    requires 0.0 < pi
    ensures WrapDown(pi, a) == a - k as real * (2.0 * pi)
    decreases DownSteps(2.0 * pi, a)
  {
    var tau := 2.0 * pi;
    if a > tau {
      DownStepsDecrease(tau, a);
      var k' := WrapDownTurns(pi, a - tau);
      k := k' + 1;
      assert k as real * tau == k' as real * tau + tau;
    } else {
      k := 0;
    }
  }

  /** awrap only ever adds or subtracts whole turns of 2*pi. */
  lemma {:induction false} WrapTurns(pi: real, a: real) returns (k: int)
    requires 0.0 < pi
    ensures Wrap(pi, a) == a + k as real * (2.0 * pi)
    decreases UpSteps(2.0 * pi, a)
  {
    var tau := 2.0 * pi;
    if a < 0.0 {
      UpStepsDecrease(tau, a);
      var k' := WrapTurns(pi, a + tau);
      k := k' + 1;
      assert k as real * tau == k' as real * tau + tau;
    } else {
      var j := WrapDownTurns(pi, a);
      k := -j;
      assert k as real * tau == -(j as real * tau);
    }
  }

  /** awrap is idempotent: a wrapped angle is left as it is. */
  lemma WrapIdempotent(pi: real, a: real)
    requires 0.0 < pi
    ensures Wrap(pi, Wrap(pi, a)) == Wrap(pi, a)
  {
  }

  /** Unlike a half-open normalisation, awrap can return exactly 2*pi. */
  lemma WrapKeepsFullTurn(pi: real)
    requires 0.0 < pi
    ensures Wrap(pi, 4.0 * pi) == 2.0 * pi
    ensures Wrap(pi, -2.0 * pi) == 0.0
  {
  }

  /** awrap as the source writes it, with its two while loops. */
  method AWrap(pi: real, a0: real) returns (a: real)
    requires 0.0 < pi
    ensures a == Wrap(pi, a0)
  {
    a := a0;
    while a < 0.0
      invariant Wrap(pi, a) == Wrap(pi, a0)
      decreases UpSteps(2.0 * pi, a)
    {
      UpStepsDecrease(2.0 * pi, a);
      a := a + 2.0 * pi;
    }
    while a > 2.0 * pi
      invariant 0.0 <= a
      invariant WrapDown(pi, a) == Wrap(pi, a0)
      decreases DownSteps(2.0 * pi, a)
    {
      DownStepsDecrease(2.0 * pi, a);
      a := a - 2.0 * pi;
    }
  }
}
