/**
 * The floating-point functions of Python's `math` module that the geometry
 * relies on, taken as abstract function values.  Nothing is known about them
 * except the domain and range facts collected in `Lawful`; `acosh`, `acos`
 * and `sqrt` are partial, so every call must show that its argument lies in
 * the function's domain.
 */
module Trig {

  datatype Functions = Functions(
    pi: real,
    cos: real -> real,
    sin: real -> real,
    cosh: real -> real,
    sinh: real -> real,
    acosh: real --> real,
    acos: real --> real,
    sqrt: real --> real,
    atan2: (real, real) -> real)

  /** `(c, s)` lies on the unit hyperbola, as `(cosh x, sinh x)` does. */
  ghost predicate Hyperbola(c: real, s: real) {
    c * c == 1.0 + s * s
  }

  /** The domain and range facts of the real functions `m` stands for. */
  ghost predicate Lawful(m: Functions) {
    && m.pi > 0.0
    && (forall x :: -1.0 <= m.cos(x) <= 1.0)
    && (forall x :: -1.0 <= m.sin(x) <= 1.0)
    && m.cos(0.0) == 1.0
    && m.cosh(0.0) == 1.0 && m.sinh(0.0) == 0.0
    && (forall x :: Hyperbola(m.cosh(x), m.sinh(x)))
    && (forall x :: 0.0 < x ==> 0.0 < m.sinh(x))
    && (forall x :: x < 0.0 ==> m.sinh(x) < 0.0)
    && (forall x :: 1.0 <= x ==> m.acosh.requires(x) && 0.0 <= m.acosh(x))
    && m.acosh.requires(1.0) && m.acosh(1.0) == 0.0
    && (forall x :: -1.0 <= x <= 1.0 ==> m.acos.requires(x) && 0.0 <= m.acos(x) <= m.pi)
    && (forall x :: 0.0 <= x ==> m.sqrt.requires(x) && 0.0 <= m.sqrt(x))
    && (forall x :: 0.0 < x && m.sqrt.requires(x) ==> 0.0 < m.sqrt(x))
    && m.sqrt.requires(0.0) && m.sqrt(0.0) == 0.0
    && (forall y, x :: -m.pi <= m.atan2(y, x) <= m.pi)
    && m.atan2(0.0, 0.0) == 0.0
  }

  /**
   * `e**x` replaced by a positive rational function that is increasing and
   * passes through 1 at 0.
   */
  function Grow(x: real): (t: real)
    ensures 0.0 < t
    ensures 0.0 < x ==> 1.0 < t
    ensures x < 0.0 ==> t < 1.0
  {
    if 0.0 <= x then 1.0 + x else 1.0 / (1.0 - x)
  }

  function Cosh(x: real): real
  {
    (Grow(x) + 1.0 / Grow(x)) / 2.0
  }

  function Sinh(x: real): real
  {
    (Grow(x) - 1.0 / Grow(x)) / 2.0
  }

  lemma CoshSinh(x: real)
    ensures 0.0 < x ==> 0.0 < Sinh(x)
    ensures x < 0.0 ==> Sinh(x) < 0.0
    ensures Hyperbola(Cosh(x), Sinh(x))
  {
    var t := Grow(x);
    var u := 1.0 / t;
    assert t * u == 1.0;
    assert 0.0 < x ==> u < 1.0;
    assert x < 0.0 ==> 1.0 < u;
    assert ((t + u) / 2.0) * ((t + u) / 2.0) - ((t - u) / 2.0) * ((t - u) / 2.0) == t * u;
  }

  /**
   * A crude stand-in for the real functions, built from rational functions
   * only.
   */
  function Crude(): Functions
  {
    Functions(
      3.0,
      x => 1.0,
      x => 0.0,
      x => Cosh(x),
      x => Sinh(x),
      x requires 1.0 <= x => x - 1.0,
      x requires -1.0 <= x <= 1.0 => 1.5 * (1.0 - x),
      x requires 0.0 <= x => x,
      (y, x) => 0.0)
  }

  /** The facts in `Lawful` can all hold at once: `Crude()` satisfies them. */
  lemma CrudeIsLawful()
    ensures Lawful(Crude())
  {
    var m := Crude();
    forall x
      ensures 0.0 < x ==> 0.0 < m.sinh(x)
      ensures x < 0.0 ==> m.sinh(x) < 0.0
      ensures Hyperbola(m.cosh(x), m.sinh(x))
    {
      CoshSinh(x);
      assert m.cosh(x) == Cosh(x) && m.sinh(x) == Sinh(x);
    }
    assert forall x :: 1.0 <= x ==> m.acosh.requires(x) && 0.0 <= m.acosh(x);
    assert forall x :: -1.0 <= x <= 1.0 ==> m.acos.requires(x) && 0.0 <= m.acos(x) <= m.pi;
    assert forall x :: 0.0 <= x ==> m.sqrt.requires(x) && 0.0 <= m.sqrt(x);
  }
}
