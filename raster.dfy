/**
 * `draw_line` of test.py: the geodesic from `p1` to `p2` is sampled at
 * `t = n * dt` for `n` in `range(0, int(1 / dt))`, with `dt = scale / l / 2`
 * and `(l, a) = subp(p2, p1)`.  The pixel writes are not modelled; the
 * method returns the sample parameters only.
 */
module Raster {
  import opened Trig
  import opened Vectors
  import opened Hyperbolic
  import opened Screen
  import opened RealArith

  /** The point at parameter `t` of the geodesic leaving `p1` along `d`. */
  function Geodesic(m: Functions, p1: Polar, d: Polar, t: real): (p: Polar)
    requires Lawful(m)
    ensures t == 0.0 && p1.r != 0.0 ==> p == p1
    ensures t == 0.0 && p1.r == 0.0 ==> p == Polar(0.0, d.a)
  {
    AddP(m, p1, Polar(t * d.r, d.a))
  }

  /** The sampling step `scale / l / 2`: half a pixel's worth of a geodesic of length `l`. */
  function Step(scale: real, l: real): (dt: real)
    requires l != 0.0
    ensures dt * 2.0 * l == scale
  {
    DivMul(scale, l);
    scale / l / 2.0
  }

  lemma StepNonZero(scale: real, l: real)
    requires scale != 0.0 && l != 0.0
    ensures Step(scale, l) != 0.0
  {
    DivMul(scale, l);
    DivMul(scale / l, 2.0);
  }

  /** The length of `range(0, k)`. */
  function RangeLength(k: int): nat
  {
    if k < 0 then 0 else k
  }

  /**
   * How many samples `draw_line` takes for a geodesic of length `l`: none
   * when `l == 0`, else the length of `range(0, int(1 / dt))`.
   */
  function SampleCount(scale: real, l: real): (count: nat)
    requires scale != 0.0
    ensures l == 0.0 ==> count == 0
    ensures 0.0 < scale && 0.0 < l ==> count == (2.0 * l / scale).Floor
  {
    if l == 0.0 then 0
    else
      StepNonZero(scale, l);
      TruncRecipStep(scale, l);
      RangeLength(Trunc(1.0 / Step(scale, l)))
  }

  /**
   * `draw_line(screen, colour, p1, p2)` without the pixel writes: the sample
   * parameters `ts`; the point plotted for `t` is `Geodesic(m, p1, d, t)`
   * with `d = subp(p2, p1)`.
   */
  method DrawLine(m: Functions, scale: real, p1: Polar, p2: Polar) returns (ts: seq<real>)
    requires Lawful(m) && scale != 0.0
    ensures |ts| == SampleCount(scale, SubP(m, p2, p1).r)
    ensures SubP(m, p2, p1).r != 0.0 ==>
      forall n :: 0 <= n < |ts| ==> ts[n] == n as real * Step(scale, SubP(m, p2, p1).r)
  {
    var d := SubP(m, p2, p1);
    ts := [];
    if d.r == 0.0 {
      return;
    }
    StepNonZero(scale, d.r);
    var dt := scale / d.r / 2.0;
    var count := Trunc(1.0 / dt);
    assert SampleCount(scale, d.r) == RangeLength(count);
    var n := 0;
    while n < count
      invariant 0 <= n <= RangeLength(count)
      invariant |ts| == n
      invariant forall k :: 0 <= k < n ==> ts[k] == k as real * dt
    {
      ts := ts + [n as real * dt];
      n := n + 1;
    }
  }

  lemma StepPositive(scale: real, l: real)
    requires 0.0 < scale && 0.0 < l
    ensures 0.0 < Step(scale, l)
  {
    DivMul(scale, l);
  }

  /** On a positive length and scale the step is positive and `1 / dt` is `2 l / scale`. */
  lemma StepRecip(scale: real, l: real)
    requires 0.0 < scale && 0.0 < l
    ensures 0.0 < Step(scale, l)
    ensures 1.0 / Step(scale, l) == 2.0 * l / scale
  {
    var q := scale / l;
    DivMul(scale, l);
    assert 0.0 < q;
    var dt := q / 2.0;
    var y := 2.0 * l / scale;
    DivMul(2.0 * l, scale);
    assert y * dt == (y * scale) * (q * l) / (2.0 * scale * l);
    RecipUnique(y, dt);
  }

  /** On a positive length and scale, `int(1 / dt)` is `floor(2 l / scale)`. */
  lemma TruncRecipStep(scale: real, l: real)
    requires scale != 0.0 && l != 0.0
    ensures 0.0 < scale && 0.0 < l ==> RangeLength(Trunc(1.0 / Step(scale, l))) == (2.0 * l / scale).Floor
  {
    StepNonZero(scale, l);
    if 0.0 < scale && 0.0 < l {
      StepRecip(scale, l);
      DivideMonotone(0.0, 2.0 * l, scale);
    }
  }

  lemma BelowTrunc(n: nat, y: real)
    requires n < RangeLength(Trunc(y))
    ensures n as real < y
  {
  }

  /** Below the reciprocal `r` of a positive `dt`, a multiple of `dt` stays below 1. */
  lemma BelowUnit(x: real, dt: real, r: real)
    requires 0.0 < dt && x < r && r * dt == 1.0
    ensures x * dt < 1.0
  {
    var p := x * dt;
    var q := r * dt;
    assert p < q by { assert (r - x) * dt > 0.0; }
  }

  /** `t` lies in the unit interval [0, 1) over which a geodesic is sampled. */
  predicate InUnit(t: real) {
    0.0 <= t < 1.0
  }

  /** A sample index below the reciprocal `y` of `dt` gives a parameter in [0, 1). */
  lemma ParameterBelowOne(dt: real, y: real, n: nat)
    requires 0.0 < dt && y * dt == 1.0 && n as real < y
    ensures InUnit(n as real * dt)
  {
    BelowUnit(n as real, dt, y);
    MulNonNegative(n as real, dt);
  }

  /** A sample index lies below `1 / dt`. */
  lemma SampleBelowRecip(scale: real, l: real, n: nat)
    requires 0.0 < scale && 0.0 < l && n < SampleCount(scale, l)
    ensures n as real < 1.0 / Step(scale, l)
  {
    StepNonZero(scale, l);
    BelowTrunc(n, 1.0 / Step(scale, l));
  }

  /**
   * Every sample parameter lies in [0, 1), so `t = 1` is never sampled;
   * `t = 0` is the first sample whenever there is one.
   */
  lemma SamplesInUnit(scale: real, l: real, dt: real, n: nat)
    requires 0.0 < scale && 0.0 < l && dt == Step(scale, l) && n < SampleCount(scale, l)
    ensures InUnit(n as real * dt)
  {
    SampleBelowRecip(scale, l, n);
    StepPositive(scale, l);
    Recip(dt);
    ParameterBelowOne(dt, 1.0 / dt, n);
  }

  /**
   * A geodesic shorter than half of `scale` gets no sample at all, not even
   * its start; from that length on it gets at least one.
   */
  lemma SomeSampleIffLongEnough(scale: real, l: real)
    requires 0.0 < scale && 0.0 < l
    ensures SampleCount(scale, l) >= 1 <==> scale <= 2.0 * l
  {
    if scale <= 2.0 * l {
      DivAtLeastOne(2.0 * l, scale);
    } else {
      DivBelowOne(2.0 * l, scale);
    }
  }

  /**
   * A longer geodesic never gets fewer samples, and a larger scale never
   * gets more.
   */
  lemma SampleCountMonotone(scale: real, scale': real, l: real, l': real)
    requires 0.0 < scale' <= scale && 0.0 < l <= l'
    ensures SampleCount(scale, l) <= SampleCount(scale', l')
  {
    QuotientMonotone(2.0 * l, 2.0 * l', scale, scale');
  }

  /** `draw_line(p, p)` draws nothing: the difference of a point with itself has length 0. */
  lemma NoSamplesOnSelf(m: Functions, scale: real, p: Polar)
    requires Lawful(m) && scale != 0.0
    ensures SampleCount(scale, SubP(m, p, p).r) == 0
  {
    SubSelf(m, p);
  }
}
