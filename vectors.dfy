/**
 * Polar and Cartesian vectors of test.py and the conversions between them
 * (`ptoc`, `ctop`) and Cartesian addition (`addc`).
 */
module Vectors {
  import opened Trig
  import opened RealArith

  /**
   * A point of the hyperbolic plane as a displacement of length `r` from the
   * origin in direction `a`.  test.py keeps these as `(r, a)` tuples.
   */
  datatype Polar = Polar(r: real, a: real)

  /** A Euclidean vector, used for the screen and for keyboard velocity. */
  datatype Cartesian = Cartesian(x: real, y: real)

  const Origin := Polar(0.0, 0.0)
  const Zero := Cartesian(0.0, 0.0)

  /**
   * The invariant the geometry is meant to keep: radius non-negative, angle
   * in [0, 2*pi], and the zero-radius vector written as `(0, 0)`.
   */
  ghost predicate Normal(pi: real, p: Polar) {
    && 0.0 <= p.r
    && 0.0 <= p.a <= 2.0 * pi
    && (p.r == 0.0 ==> p == Origin)
  }

  /** `ptoc`: polar to Cartesian, `(r cos a, r sin a)`. */
  function PToC(m: Functions, p: Polar): (c: Cartesian)
    requires Lawful(m)
    ensures p.r == 0.0 ==> c == Zero
    ensures 0.0 <= p.r ==> -p.r <= c.x <= p.r && -p.r <= c.y <= p.r
  {
    Cartesian(Scaled(p.r, m.cos(p.a)), Scaled(p.r, m.sin(p.a)))
  }

  /** `r * c` for a cosine or sine `c`: 0 at radius 0, and within the radius. */
  function Scaled(r: real, c: real): (y: real)
    requires -1.0 <= c <= 1.0
    ensures r == 0.0 ==> y == 0.0
    ensures 0.0 <= r ==> -r <= y <= r
  {
    CosineScaled(r, c);
    r * c
  }

  lemma CosineScaled(r: real, c: real)
    requires -1.0 <= c <= 1.0
    ensures r == 0.0 ==> r * c == 0.0
    ensures 0.0 <= r ==> -r <= r * c <= r
  {
    if 0.0 <= r {
      MulNonNegative(r, 1.0 - c);
      MulNonNegative(r, 1.0 + c);
      assert r * (1.0 - c) == r - r * c;
      assert r * (1.0 + c) == r + r * c;
    }
  }

  /**
   * `ctop`: Cartesian to polar, `(sqrt(x*x + y*y), atan2(y, x))`.  The angle
   * is atan2's, in [-pi, pi], and is not wrapped.  Only the zero vector has
   * radius 0, and it becomes exactly `(0, 0)`.
   */
  function CToP(m: Functions, c: Cartesian): (p: Polar)
    requires Lawful(m)
    ensures 0.0 <= p.r
    ensures -m.pi <= p.a <= m.pi
    ensures c != Zero ==> 0.0 < p.r
    ensures c == Zero ==> p == Origin
  {
    SquaresZero(c.x, c.y);
    assert c != Zero ==> c.x != 0.0 || c.y != 0.0;
    assert c != Zero ==> 0.0 < c.x * c.x + c.y * c.y;
    Polar(m.sqrt(c.x * c.x + c.y * c.y), m.atan2(c.y, c.x))
  }

  lemma SquaresZero(x: real, y: real)
    ensures x == 0.0 && y == 0.0 ==> x * x + y * y == 0.0
    ensures x != 0.0 || y != 0.0 ==> x * x + y * y > 0.0
  {
    SquareSign(x);
    SquareSign(y);
  }

  /** `addc`: component-wise sum of two Cartesian vectors. */
  function AddC(c1: Cartesian, c2: Cartesian): (c: Cartesian)
    ensures c1 == Zero ==> c == c2
    ensures c2 == Zero ==> c == c1
  {
    Cartesian(c1.x + c2.x, c1.y + c2.y)
  }
}
