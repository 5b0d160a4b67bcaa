# Hyperbolic plane toy: a Dafny model of test.py

test.py is a small pygame program. Three players move around the hyperbolic
plane (curvature -1) with the keyboard. Their positions are polar vectors
`(r, a)` from the origin. Each frame draws every position as a spot, and the
geodesic between every pair of players as a dotted line, in the hyperboloid
projection.

This project models the layer of that program around the floating-point
formulas:

- vector composition and difference (`addp`, `subp`): the zero-radius
  short-circuits, the clamps on the `acosh` and `acos` arguments, the
  zero-result short-circuit, the sign choice, and the final angle wrap;
- the polar/Cartesian conversions (`ptoc`, `ctop`) and Cartesian addition
  (`addc`);
- angle wrapping (`awrap`), with its two loops, and the sign function (`sgn`);
- the screen projection (`to_screen`), with truncation toward zero;
- the sample parameters of `draw_line`;
- the all-pairs enumeration (`pairs`);
- the game state (`initstate`) and the per-player control step (`control`),
  which moves a player in place.

`pi` and the functions `cos`, `sin`, `cosh`, `sinh`, `acosh`, `acos`, `sqrt`
and `atan2` are fields of a value `m: Trig.Functions`. `Trig.Lawful(m)` is all
that is known about them: their domains, their ranges, `cosh² = 1 + sinh²`,
the sign of `sinh`, the values at 0, `acosh(1) = 0`, and `sqrt(x) > 0` for
`x > 0`. `acosh`, `acos` and `sqrt` are
partial functions. Every call to them must therefore show that its argument
lies in the domain. This is what the clamps in `addp` and `subp` provide.
Dafny also checks the division by `sinh(r1) * sinh(r3)`, which the
short-circuits protect. `Trig.CrudeIsLawful` shows that the assumptions can
all hold at once.

Configuration globals (`scale`, `speed`, `npoints`, the screen size) are
parameters.

The model follows the code, which does not normalise every angle it returns:

- `awrap` returns angles in [0, 2π] with 2π included (`Angles.WrapKeepsFullTurn`).
- `ctop` does not wrap its `atan2` angle, so it lies in [-π, π].
- `subp(p1, p2)` with `r1 == 0` returns `(r2, a2 + π)` unwrapped
  (`Hyperbolic.SubFromOriginUnwrapped`).
- Because `ctop` does not wrap, a player's first move away from the origin
  can give a negative angle (`Agents.FirstMoveUnwrapped`). The invariant that
  the game keeps is therefore `Agents.Placed`, with angles in [-π, 2π], and
  not the [0, 2π] range of `Vectors.Normal`.

## Model

| member | source | states |
|---|---|---|
| Angles.Sgn | test.py:121 | the result is ±1, and it is +1 exactly when the argument is non-negative |
| Angles.SgnProductNonNegative | test.py:44 | on non-negative radii the sign factor `sgn(r1) * sgn(r2)` is 1 |
| Angles.WrapDown | test.py:93 | from a non-negative angle the second loop lands in [0, 2π], and an angle already in [0, 2π] is returned unchanged |
| Angles.Wrap | test.py:91-94 | awrap terminates on every real input, its result lies in [0, 2π], an input already in [0, 2π] is returned unchanged, and a negative input ends strictly below 2π |
| Angles.WrapDownTurns | test.py:93 | the second loop changes the angle by a whole number of turns of 2π |
| Angles.WrapTurns | test.py:91-94 | awrap changes its input by a whole number of turns of 2π |
| Angles.WrapIdempotent | test.py:91-94 | wrapping a wrapped angle changes nothing |
| Angles.WrapKeepsFullTurn | test.py:93 | 4π wraps to exactly 2π and -2π to 0, because the loop tests `a > 2π` and not `>=` |
| Angles.AWrap | test.py:91-94 | the two while loops compute `Wrap` of the input |
| Vectors.PToC | test.py:72-76 | a zero radius gives `(0, 0)`, and each coordinate is bounded by the radius in absolute value |
| Vectors.Scaled | test.py:74-75 | `r * cos a` and `r * sin a` are 0 at radius 0 and lie within the radius in absolute value |
| Vectors.CToP | test.py:79-83 | the radius is non-negative, and zero only for the zero vector, which becomes exactly `(0, 0)`; the angle is atan2's, in [-π, π] and not wrapped |
| Vectors.AddC | test.py:86-88 | `(0, 0)` is a left and a right identity of Cartesian addition |
| Hyperbolic.AtLeast | test.py:40 | `max(x, lo)` is at least both arguments and equals one of them |
| Hyperbolic.ClampUnit | test.py:45 | `max(-1, min(x, 1))` lies in [-1, 1], is `x` when `x` is in [-1, 1], and is the nearer bound otherwise |
| Hyperbolic.Side | test.py:40-41 | `acosh(max(c, 1))` is defined and non-negative, and it is 0 when `c <= 1` |
| Hyperbolic.AddCosh | test.py:39 | the law-of-cosines value for `addp`; with a side of length 0 it is `cosh` of the other side |
| Hyperbolic.SubCosh | test.py:61 | the same for `subp`, with the minus sign |
| Hyperbolic.SinhNonZero | test.py:43 | sinh of a non-zero radius is non-zero, so the divisor at line 43 is non-zero |
| Hyperbolic.AddSign | test.py:44 | the turning direction of `addp` is +1 or -1 |
| Hyperbolic.SubSign | test.py:66 | the turning direction of `subp` is +1 or -1 |
| Hyperbolic.AddAngle | test.py:43-47 | on the non-degenerate path the division is defined, the `acos` argument is clamped into its domain, and the returned angle lies in [0, 2π] |
| Hyperbolic.SubAngle | test.py:65-69 | the same for `subp`, measured from `a2` and divided by `sinh(r2) * sinh(r3)` |
| Hyperbolic.AddP | test.py:33-47 | `r1 == 0` returns `p2`; `r2 == 0` returns `p1`; otherwise the result has a non-negative radius, an angle in [0, 2π], and is exactly `(0, 0)` when the clamped side `acosh(max(cr3, 1))` is 0, in particular whenever the law-of-cosines value is at most 1 |
| Hyperbolic.SubP | test.py:55-69 | `r1 == 0` returns `(r2, a2 + π)`; `r2 == 0` returns `p1`; otherwise the same result guarantees as `AddP` |
| Hyperbolic.AddIdentity | test.py:36-37 | a zero-radius first argument gives back the second, and adding the origin leaves a normalised vector unchanged |
| Hyperbolic.AddPreservesNormal | test.py:33-47 | adding two normalised vectors gives a normalised vector |
| Hyperbolic.SubSelf | test.py:55-63 | the difference of a vector with itself has radius 0, and it is `(0, 0)` for a non-zero vector |
| Hyperbolic.SubFromOriginUnwrapped | test.py:58 | subtracting `(1, 1.5π)` from the origin gives `(1, 2.5π)`, which is outside [0, 2π] |
| Hyperbolic.AddSignByAngles | test.py:44 | the sign in `addp` is +1 exactly when `awrap(a2 - a1) < π` |
| Hyperbolic.SubSignByAngles | test.py:66 | the sign in `subp` is -1 exactly when `awrap(a2 - a1) < π` and the radii have the same sign, and the reverse when their signs differ |
| Screen.Trunc | test.py:102-103 | `int(x)` truncates toward zero: it lies within 1 of `x`, between 0 and `x` |
| Screen.TruncMonotone | test.py:102-103 | truncation is monotone |
| Screen.Project | test.py:99-104 | the zero Cartesian vector maps to the screen centre `(w // 2, h // 2)` |
| Screen.ToScreen | test.py:97-104 | every zero-radius vector maps to the screen centre |
| Screen.ProjectMonotone | test.py:102-103 | pixel x never decreases as world x grows, and pixel y never increases as world y grows |
| Screen.ScreenCentre | test.py:97-104 | on a 1000×700 surface the origin maps to `(500, 350)`, and so does a point half a pixel below and left of it, because of the truncation toward zero |
| Raster.Geodesic | test.py:114 | at `t = 0` the sampled geodesic starts at `p1`, or at the zero-radius `(0, a)` when `p1` has radius 0 |
| Raster.Step | test.py:115 | the step `dt` satisfies `dt * 2 * l == scale` |
| Raster.StepNonZero | test.py:115 | the step `scale / l / 2` is non-zero |
| Raster.DrawLine | test.py:109-116 | the sample parameters are `n * dt` for `n` in `range(0, int(1 / dt))`, and there are none when `l == 0` |
| Raster.StepRecip | test.py:115-116 | on a positive scale and length the step is positive and `1 / dt == 2 l / scale` |
| Raster.SampleCount | test.py:112-116 | no samples when `l == 0`, and `floor(2 l / scale)` samples on a positive length and scale |
| Raster.TruncRecipStep | test.py:115-116 | on a positive length and scale, `int(1 / dt)` is `floor(2 l / scale)` |
| Raster.SampleBelowRecip | test.py:116 | every sample index lies below `1 / dt` |
| Raster.ParameterBelowOne | test.py:116-117 | an index below the reciprocal of the step gives a parameter in [0, 1) |
| Raster.SamplesInUnit | test.py:115-117 | every sample parameter lies in [0, 1), so `t = 1` is never sampled; `t = 0` is the first sample whenever there is one |
| Raster.SomeSampleIffLongEnough | test.py:115-116 | on a positive length and scale there is at least one sample exactly when `scale <= 2 l`; a shorter line draws nothing, not even its start |
| Raster.SampleCountMonotone | test.py:115-116 | a longer line never gets fewer samples, and a larger scale never gets more |
| Raster.NoSamplesOnSelf | test.py:111-112 | a line from a point to itself draws nothing |
| Pairs.Row | test.py:127-128 | the inner loop for `ii` produces `len(l) - ii - 1` pairs |
| Pairs.RowsLength | test.py:126-128 | the first `n` passes of the outer loop produce `RowStart(len(l), n)` pairs |
| Pairs.RowStartClosed | test.py:126-128 | `2 * RowStart(n, i) == i * (2n - i - 1)` |
| Pairs.RowStartMonotone | test.py:126-128 | later rows start later |
| Pairs.RowsPrefix | test.py:126-128 | each pass of the outer loop only appends to `res` |
| Pairs.PairsCount | test.py:124-129 | `pairs(l)` has `len(l) * (len(l) - 1) / 2` elements |
| Pairs.PairAt | test.py:124-129 | for every `i < j` the pair `(l[i], l[j])` appears at position `Index(len(l), i, j)` |
| Pairs.PairOf | test.py:124-129 | every element is `(l[i], l[j])` for some `i < j`, at position `Index(len(l), i, j)` |
| Pairs.IndexOrdered | test.py:126-127 | pairs appear in lexicographic order of `(i, j)` |
| Pairs.Pairs | test.py:124-129 | the nested loops build exactly `AllPairs(l)` |
| Agents.Agent.constructor | test.py:138 | a new player is at rest at the origin: `[(0, 0), (0, 0)]` |
| Agents.HeldVelocity | test.py:142-147 | x is `v` when only right is held, `-v` when only left is held, and 0 when both or neither are; y is the same for up and down |
| Agents.Moved | test.py:148 | from a zero radius the object goes to `ctop(vel)`; a non-zero position stays put without a velocity and otherwise becomes a normal vector |
| Agents.Agent.Control | test.py:141-148 | the velocity accumulated with `addc` is the held-key velocity, the position becomes `addp(position, ctop(velocity))`, and the velocity field is unchanged |
| Agents.InitState | test.py:137-138 | `count` distinct, newly created players, each at `(0, 0)` with velocity `(0, 0)` |
| Agents.HeldVelocityZero | test.py:142-147 | each velocity component is `v`, `-v` or 0, and for a non-zero speed the velocity is `(0, 0)` exactly when both pairs of opposing keys are balanced |
| Agents.MoveFromOrigin | test.py:148 | through the `r1 == 0` branch of `addp`, a player at the origin moves to `ctop` of its velocity, with a positive radius for a non-zero velocity |
| Agents.StillWhenBalanced | test.py:143-148 | with no key held, or both opposing keys held, the position is unchanged, except that a zero-radius position with a non-zero angle becomes `(0, 0)` |
| Agents.MovePreservesPlaced | test.py:148 | a control step keeps the radius non-negative, the angle in [-π, 2π], and the origin written as `(0, 0)` |
| Agents.FirstMoveUnwrapped | test.py:148 | a first move from the origin whose atan2 angle is negative leaves the position outside [0, 2π] |

## Left out

- The numeric values of `cos`, `sin`, `cosh`, `sinh`, `acosh`, `acos`, `sqrt`, `atan2` and `pi` are not modelled. Only the facts in `Trig.Lawful` are known. So the composition/difference round trip, the triangle inequality and the `ptoc`/`ctop` inverse are not stated.
- Floating point is not modelled: all arithmetic is exact real arithmetic. Over floats, `awrap` does not always terminate. On ±inf, and on every finite angle with |a| > 2^56, adding or subtracting 2π rounds back to the same value, so the loop runs forever. A NaN fails both loop tests and is returned unchanged. `Angles.Wrap` proves termination only for real inputs.
- Float overflow in `addp` and `subp` is not modelled. `math.cosh` and `math.sinh` raise `OverflowError` once a radius passes about 710 (test.py:39, 61). Once a radius passes about 355, the products in the angle formula (test.py:43, 65) overflow and the quotient is NaN. `max(-1, min(nan, 1))` is then -1, `acos` gives π, and the new angle is turned by π.
- Hyperbolic.SubSelf and Raster.NoSamplesOnSelf hold over the reals only. In floats, `cosh(r)*cosh(r) - sinh(r)*sinh(r)*cos(0)` at test.py:61 can round above 1; for radii around 15 the error is a few units of about 5e-4. `acosh` then gives a length of about 0.03, above `scale / 2`, so `subp(p, p)` is not the origin and `draw_line(p, p)` plots a few pixels.
- Angles.Sgn: `copysign(1., -0.0)` is -1 in Python; reals have no signed zero, so 0 counts as positive.
- Agents.Agent.Control: requires every key code of the scheme to index the key table; Python raises `IndexError` otherwise, before changing anything. Negative key codes, which Python would count from the end, are not modelled.
- Screen.Project, Screen.ToScreen and Raster.DrawLine: require a non-zero `scale`. In the program `scale` is the constant 0.02, and zero would raise `ZeroDivisionError`.
- Raster.DrawLine: returns the sample parameters only. The points `Raster.Geodesic` gives for them are not returned: they are not projected with `to_screen` and no pixels are written.
- `main` is not part of this model. That covers the pygame window, the event loop, the global key table, the F5 reset, drawing the spots and lines, `display.flip` and `time.sleep`.
- The concrete key codes of the three schemes in `main` are not part of this model either. A scheme is any four key codes.
