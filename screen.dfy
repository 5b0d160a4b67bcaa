/**
 * `to_screen` of test.py: a polar vector to a pixel, with the origin at the
 * centre of the surface, y pointing up, and Python's `int(...)` truncation.
 */
module Screen {
  import opened Trig
  import opened Vectors
  import opened RealArith

  /** A pixel position on the drawing surface. */
  datatype Pixel = Pixel(x: int, y: int)

  /** Python's `int(x)` on a float: truncation toward zero. */
  function Trunc(x: real): (n: int)
    ensures 0.0 <= x ==> 0 <= n && n as real <= x < n as real + 1.0
    ensures x < 0.0 ==> n <= 0 && n as real - 1.0 < x <= n as real
  {
    if 0.0 <= x then x.Floor else -((-x).Floor)
  }

  lemma {:induction false} TruncMonotone(x: real, y: real)
    requires x <= y
    ensures Trunc(x) <= Trunc(y)
  {
    if x < 0.0 && 0.0 <= y {
    } else if 0.0 <= x {
      assert x.Floor <= y.Floor;
    } else {
      assert (-y).Floor <= (-x).Floor;
    }
  }

  /**
   * The pixel of a Cartesian world position: half the surface size (floor
   * division of integers) plus the truncated scaled x, minus the truncated
   * scaled y.
   */
  function Project(scale: real, w: int, h: int, c: Cartesian): (s: Pixel)
    requires scale != 0.0
    ensures c == Zero ==> s == Pixel(w / 2, h / 2)
  {
    Pixel(w / 2 + Trunc(c.x / scale), h / 2 - Trunc(c.y / scale))
  }

  /** `to_screen(p, (w, h))` with the module constant `scale` as a parameter. */
  function ToScreen(m: Functions, scale: real, w: int, h: int, p: Polar): (s: Pixel)
    requires Lawful(m) && scale != 0.0
    ensures p.r == 0.0 ==> s == Pixel(w / 2, h / 2)
  {
    Project(scale, w, h, PToC(m, p))
  }

  /**
   * Pixel x never decreases as world x grows, and pixel y never increases
   * as world y grows.
   */
  lemma ProjectMonotone(scale: real, w: int, h: int, c1: Cartesian, c2: Cartesian)
    requires 0.0 < scale
    ensures c1.x <= c2.x ==> Project(scale, w, h, c1).x <= Project(scale, w, h, c2).x
    ensures c1.y <= c2.y ==> Project(scale, w, h, c1).y >= Project(scale, w, h, c2).y
  {
    if c1.x <= c2.x {
      DivideMonotone(c1.x, c2.x, scale);
      TruncMonotone(c1.x / scale, c2.x / scale);
    }
    if c1.y <= c2.y {
      DivideMonotone(c1.y, c2.y, scale);
      TruncMonotone(c1.y / scale, c2.y / scale);
    }
  }

  /**
   * On a 1000 x 700 surface the origin lands on (500, 350), and so does a
   * point less than one pixel below and to the left of it: truncation, not
   * flooring.
   */
  lemma ScreenCentre(m: Functions, scale: real)
    requires Lawful(m) && 0.0 < scale
    ensures ToScreen(m, scale, 1000, 700, Origin) == Pixel(500, 350)
    ensures Project(scale, 1000, 700, Cartesian(-0.5 * scale, -0.5 * scale)) == Pixel(500, 350)
  {
    assert (-0.5 * scale) / scale == -0.5;
  }
}
