/**
 * Hyperbolic composition `addp` and difference `subp` of test.py, built on
 * the hyperbolic law of cosines.  The transcendental functions are those of
 * an abstract `Functions` value, so what is modelled is the branching around
 * them: the zero-radius short-circuits, the clamp of the `acosh` argument to
 * at least 1, the zero-result short-circuit, the clamp of the `acos`
 * argument to [-1, 1], the sign of the recovered angle and the final wrap.
 */
module Hyperbolic {
  import opened Trig
  import opened Angles
  import opened Vectors
  import opened RealArith

  /** Python's `max(x, lo)`: the first argument unless the second is larger. */
  function AtLeast(x: real, lo: real): (y: real)
    ensures lo <= y && x <= y
    ensures y == x || y == lo
  {
    if x < lo then lo else x
  }

  /** `max(-1, min(x, 1))`, the clamp of an `acos` argument. */
  function ClampUnit(x: real): (y: real)
    ensures -1.0 <= y <= 1.0
    ensures -1.0 <= x <= 1.0 ==> y == x
    ensures x < -1.0 ==> y == -1.0
    ensures 1.0 < x ==> y == 1.0
  {
    var upper := if x <= 1.0 then x else 1.0;
    if -1.0 < upper then upper else -1.0
  }

  /**
   * `cosh r3` for the composition: the law of cosines with a plus sign.  A
   * side of length 0 leaves `cosh` of the other side.
   */
  function AddCosh(m: Functions, p1: Polar, p2: Polar): (c: real)
    requires Lawful(m)
    ensures p1.r == 0.0 ==> c == m.cosh(p2.r)
    ensures p2.r == 0.0 ==> c == m.cosh(p1.r)
  {
    m.cosh(p1.r) * m.cosh(p2.r) + m.sinh(p1.r) * m.sinh(p2.r) * m.cos(p2.a - p1.a)
  }

  /**
   * `cosh r3` for the difference: the law of cosines with a minus sign.  A
   * side of length 0 leaves `cosh` of the other side.
   */
  function SubCosh(m: Functions, p1: Polar, p2: Polar): (c: real)
    requires Lawful(m)
    ensures p1.r == 0.0 ==> c == m.cosh(p2.r)
    ensures p2.r == 0.0 ==> c == m.cosh(p1.r)
  {
    m.cosh(p1.r) * m.cosh(p2.r) - m.sinh(p1.r) * m.sinh(p2.r) * m.cos(p2.a - p1.a)
  }

  /**
   * `acosh(max(c, 1))`: the clamp keeps the argument in the domain of
   * acosh, and an argument at or below 1 gives length exactly 0.
   */
  function Side(m: Functions, c: real): (r3: real)
    requires Lawful(m)
    ensures 0.0 <= r3
    ensures c <= 1.0 ==> r3 == 0.0
  {
    m.acosh(AtLeast(c, 1.0))
  }

  lemma SinhNonZero(m: Functions, x: real)
    requires Lawful(m)
    ensures x != 0.0 ==> m.sinh(x) != 0.0
  {
  }

  /**
   * The turning direction of `addp`: +1 when the second direction lies less
   * than half a turn counter-clockwise of the first, times `sgn(r1)**2`.
   */
  function AddSign(pi: real, p1: Polar, p2: Polar): (s: real)
    requires 0.0 < pi
    ensures s == 1.0 || s == -1.0
  {
    (if Wrap(pi, p2.a - p1.a) < pi then 1.0 else -1.0) * Sgn(p1.r) * Sgn(p1.r)
  }

  /** The turning direction of `subp`, opposite to addp's, times `sgn(r1) sgn(r2)`. */
  function SubSign(pi: real, p1: Polar, p2: Polar): (s: real)
    requires 0.0 < pi
    ensures s == 1.0 || s == -1.0
  {
    (if Wrap(pi, p2.a - p1.a) < pi then -1.0 else 1.0) * Sgn(p1.r) * Sgn(p2.r)
  }

  /**
   * The direction of the composed vector, recovered from angle B of the
   * triangle, measured from `a1`.
   */
  function AddAngle(m: Functions, p1: Polar, p2: Polar, r3: real): (a3: real)
    requires Lawful(m) && p1.r != 0.0 && 0.0 < r3
    ensures 0.0 <= a3 <= 2.0 * m.pi
  {
    SinhNonZero(m, p1.r);
    ProductNonZero(m.sinh(p1.r), m.sinh(r3));
    Wrap(m.pi, p1.a + AddSign(m.pi, p1, p2)
      * m.acos(ClampUnit((m.cosh(p1.r) * m.cosh(r3) - m.cosh(p2.r)) / (m.sinh(p1.r) * m.sinh(r3)))))
  }

  /**
   * The direction of the difference vector, recovered from angle A of the
   * triangle, measured from `a2`.
   */
  function SubAngle(m: Functions, p1: Polar, p2: Polar, r3: real): (a3: real)
    requires Lawful(m) && p2.r != 0.0 && 0.0 < r3
    ensures 0.0 <= a3 <= 2.0 * m.pi
  {
    SinhNonZero(m, p2.r);
    ProductNonZero(m.sinh(p2.r), m.sinh(r3));
    Wrap(m.pi, p2.a + SubSign(m.pi, p1, p2)
      * m.acos(ClampUnit((m.cosh(p1.r) - m.cosh(p2.r) * m.cosh(r3)) / (m.sinh(p2.r) * m.sinh(r3)))))
  }

  /**
   * `addp(p1, p2)`: the point reached by displacing by `p1` and then by
   * `p2`.  A zero radius on either side returns the other vector untouched;
   * a zero composed length returns exactly the origin; otherwise the result
   * is a normal vector.
   */
  function AddP(m: Functions, p1: Polar, p2: Polar): (p3: Polar)
    requires Lawful(m)
    ensures p1.r == 0.0 ==> p3 == p2
    ensures p1.r != 0.0 && p2.r == 0.0 ==> p3 == p1
    ensures p1.r != 0.0 && p2.r != 0.0 ==> Normal(m.pi, p3)
    ensures p1.r != 0.0 && p2.r != 0.0 && Side(m, AddCosh(m, p1, p2)) == 0.0 ==> p3 == Origin
    ensures p1.r != 0.0 && p2.r != 0.0 && AddCosh(m, p1, p2) <= 1.0 ==> p3 == Origin
  {
    if p1.r == 0.0 then p2
    else if p2.r == 0.0 then p1
    else if Side(m, AddCosh(m, p1, p2)) == 0.0 then Origin
    else Polar(Side(m, AddCosh(m, p1, p2)), AddAngle(m, p1, p2, Side(m, AddCosh(m, p1, p2))))
  }

  /**
   * `subp(p1, p2)`: the displacement from `p2` to `p1`.  With `p1` at zero
   * radius it is `p2` turned half a turn, its angle `a2 + pi` left
   * unwrapped; with `p2` at zero radius it is `p1`; a zero length returns
   * exactly the origin; otherwise the result is a normal vector.
   */
  function SubP(m: Functions, p1: Polar, p2: Polar): (p3: Polar)
    requires Lawful(m)
    ensures p1.r == 0.0 ==> p3 == Polar(p2.r, p2.a + m.pi)
    ensures p1.r != 0.0 && p2.r == 0.0 ==> p3 == p1
    ensures p1.r != 0.0 && p2.r != 0.0 ==> Normal(m.pi, p3)
    ensures p1.r != 0.0 && p2.r != 0.0 && Side(m, SubCosh(m, p1, p2)) == 0.0 ==> p3 == Origin
    ensures p1.r != 0.0 && p2.r != 0.0 && SubCosh(m, p1, p2) <= 1.0 ==> p3 == Origin
  {
    if p1.r == 0.0 then Polar(p2.r, p2.a + m.pi)
    else if p2.r == 0.0 then p1
    else if Side(m, SubCosh(m, p1, p2)) == 0.0 then Origin
    else Polar(Side(m, SubCosh(m, p1, p2)), SubAngle(m, p1, p2, Side(m, SubCosh(m, p1, p2))))
  }

  /**
   * The zero vector is a two-sided identity of `addp` on normal vectors;
   * on the left any zero-radius vector is.
   */
  lemma AddIdentity(m: Functions, p: Polar, a: real)
    requires Lawful(m)
    ensures AddP(m, Polar(0.0, a), p) == p
    ensures Normal(m.pi, p) ==> AddP(m, p, Origin) == p
  {
  }

  /** `addp` keeps vectors normal. */
  lemma AddPreservesNormal(m: Functions, p1: Polar, p2: Polar)
    requires Lawful(m)
    requires Normal(m.pi, p1) && Normal(m.pi, p2)
    ensures Normal(m.pi, AddP(m, p1, p2))
  {
  }

  /**
   * `subp(p, p)` has length exactly 0: for a non-zero radius the law of
   * cosines gives `cosh r3 = 1`, and the clamp and `acosh(1) = 0` give the
   * origin.
   */
  lemma SubSelf(m: Functions, p: Polar)
    requires Lawful(m)
    ensures SubP(m, p, p).r == 0.0
    ensures p.r != 0.0 ==> SubP(m, p, p) == Origin
  {
    if p.r != 0.0 {
      var c, s := m.cosh(p.r), m.sinh(p.r);
      assert Hyperbola(c, s);
      assert p.a - p.a == 0.0;
      assert SubCosh(m, p, p) == c * c - s * s * 1.0;
    }
  }

  /**
   * `subp` from a zero-radius vector does not wrap its angle, so unlike
   * `addp` it can leave [0, 2*pi].
   */
  lemma SubFromOriginUnwrapped(m: Functions)
    requires Lawful(m)
    ensures SubP(m, Origin, Polar(1.0, 1.5 * m.pi)) == Polar(1.0, 2.5 * m.pi)
    ensures Normal(m.pi, Polar(1.0, 1.5 * m.pi))
    ensures !Normal(m.pi, SubP(m, Origin, Polar(1.0, 1.5 * m.pi)))
  {
  }

  /**
   * The factor `sgn(r1) * sgn(r1)` of `addp` is always 1, so its turning
   * direction depends on the angles alone.
   */
  lemma AddSignByAngles(pi: real, p1: Polar, p2: Polar)
    requires 0.0 < pi
    ensures AddSign(pi, p1, p2) == if Wrap(pi, p2.a - p1.a) < pi then 1.0 else -1.0
  {
  }

  /**
   * The factor `sgn(r1) * sgn(r2)` of `subp` is 1 when the radii have the
   * same sign and reverses the turning direction when they differ.
   */
  lemma SubSignByAngles(pi: real, p1: Polar, p2: Polar)
    requires 0.0 < pi
    ensures (0.0 <= p1.r <==> 0.0 <= p2.r) ==>
      SubSign(pi, p1, p2) == if Wrap(pi, p2.a - p1.a) < pi then -1.0 else 1.0
    ensures (0.0 <= p1.r <==> p2.r < 0.0) ==>
      SubSign(pi, p1, p2) == if Wrap(pi, p2.a - p1.a) < pi then 1.0 else -1.0
  {
  }
}
