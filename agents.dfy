/**
 * The game state of test.py: each player-controlled object is a pair
 * `[position, velocity]` of polar vectors, and `control` moves an object's
 * position by the keyboard velocity of its key scheme.
 */
module Agents {
  import opened Trig
  import opened Vectors
  import opened Hyperbolic

  /** The key codes an object answers to: `(up, down, right, left)`. */
  datatype Scheme = Scheme(up: nat, down: nat, right: nat, left: nat)

  /** Every key code of `scheme` indexes the key table. */
  predicate Covers(keys: seq<bool>, scheme: Scheme) {
    scheme.up < |keys| && scheme.down < |keys| && scheme.right < |keys| && scheme.left < |keys|
  }

  /**
   * The velocity along one axis when the key for the positive direction is
   * `forward` and the key for the negative direction is `back`: `v` or
   * `-v` when exactly one is held, 0 when both or neither are.
   */
  function Axis(forward: bool, back: bool, v: real): real
  {
    if forward == back then 0.0 else if forward then v else -v
  }

  /**
   * The Cartesian velocity the held keys of `scheme` ask for, at speed `v`
   * per axis: right and up count positive, left and down negative.
   */
  function HeldVelocity(keys: seq<bool>, scheme: Scheme, v: real): (c: Cartesian)
    requires Covers(keys, scheme)
    ensures keys[scheme.right] && !keys[scheme.left] ==> c.x == v
    ensures keys[scheme.left] && !keys[scheme.right] ==> c.x == -v
    ensures keys[scheme.up] && !keys[scheme.down] ==> c.y == v
    ensures keys[scheme.down] && !keys[scheme.up] ==> c.y == -v
    ensures keys[scheme.right] == keys[scheme.left] ==> c.x == 0.0
    ensures keys[scheme.up] == keys[scheme.down] ==> c.y == 0.0
  {
    Cartesian(Axis(keys[scheme.right], keys[scheme.left], v), Axis(keys[scheme.up], keys[scheme.down], v))
  }

  /**
   * Where an object at `p` ends up when it moves by the Cartesian velocity
   * `vel`: from a zero radius straight to `ctop(vel)`, nowhere without a
   * velocity, and otherwise to a normal vector.
   */
  function Moved(m: Functions, p: Polar, vel: Cartesian): (q: Polar)
    requires Lawful(m)
    ensures p.r == 0.0 ==> q == CToP(m, vel)
    ensures p.r != 0.0 && vel == Zero ==> q == p
    ensures p.r != 0.0 && vel != Zero ==> Normal(m.pi, q)
  {
    AddP(m, p, CToP(m, vel))
  }

  /**
   * The positions `control` can produce from the initial state: radius
   * non-negative, the origin written as `(0, 0)`, and an angle in
   * [-pi, 2*pi] (`ctop` gives angles in [-pi, pi], `addp` wraps to [0, 2*pi]).
   */
  ghost predicate Placed(pi: real, p: Polar) {
    && 0.0 <= p.r
    && -pi <= p.a <= 2.0 * pi
    && (p.r == 0.0 ==> p == Origin)
  }

  /** An object `[position, velocity]`, updated in place by `control`. */
  class Agent {
    var position: Polar
    var velocity: Polar

    /** `[(0, 0), (0, 0)]`: at rest at the origin. */
    constructor()
      ensures position == Origin && velocity == Origin
    {
      position := Origin;
      velocity := Origin;
    }

    /**
     * `control(object, keys, scheme)`: accumulate the velocity of the held
     * keys with `addc`, starting from `(0, 0)`, and move the position by it.
     * The velocity field is left alone.
     */
    method Control(m: Functions, keys: seq<bool>, scheme: Scheme, scale: real, speed: real)
      requires Lawful(m) && Covers(keys, scheme)
      modifies this
      ensures position == Moved(m, old(position), HeldVelocity(keys, scheme, scale * speed))
      ensures velocity == old(velocity)
    {
      var v := scale * speed;
      var vel := Zero;
      if keys[scheme.up] {
        vel := AddC(vel, Cartesian(0.0, v));
      }
      if keys[scheme.down] {
        vel := AddC(vel, Cartesian(0.0, -v));
      }
      if keys[scheme.right] {
        vel := AddC(vel, Cartesian(v, 0.0));
      }
      if keys[scheme.left] {
        vel := AddC(vel, Cartesian(-v, 0.0));
      }
      assert vel == HeldVelocity(keys, scheme, v);
      position := AddP(m, position, CToP(m, vel));
    }
  }

  /** `initstate()`: `count` distinct objects, each at rest at the origin. */
  method InitState(count: nat) returns (agents: seq<Agent>)
    ensures |agents| == count
    ensures forall i :: 0 <= i < count ==> fresh(agents[i])
    ensures forall i :: 0 <= i < count ==> agents[i].position == Origin && agents[i].velocity == Origin
    ensures forall i, j :: 0 <= i < j < count ==> agents[i] != agents[j]
  {
    agents := [];
    while |agents| < count
      invariant |agents| <= count
      invariant forall i :: 0 <= i < |agents| ==> fresh(agents[i])
      invariant forall i :: 0 <= i < |agents| ==> agents[i].position == Origin && agents[i].velocity == Origin
      invariant forall i, j :: 0 <= i < j < |agents| ==> agents[i] != agents[j]
    {
      var a := new Agent();
      agents := agents + [a];
    }
  }

  /**
   * Each axis of the held velocity is `v`, `-v` or 0, and with a non-zero
   * speed the velocity is zero exactly when every pair of opposing keys is
   * balanced (both held or both released).
   */
  lemma HeldVelocityZero(keys: seq<bool>, scheme: Scheme, v: real)
    requires Covers(keys, scheme)
    ensures var c := HeldVelocity(keys, scheme, v);
      (c.x == v || c.x == -v || c.x == 0.0) && (c.y == v || c.y == -v || c.y == 0.0)
    ensures v != 0.0 ==>
      (HeldVelocity(keys, scheme, v) == Zero <==>
        keys[scheme.up] == keys[scheme.down] && keys[scheme.right] == keys[scheme.left])
  {
  }

  /** An object that starts at the origin lands on `ctop` of its velocity, angle unwrapped. */
  lemma MoveFromOrigin(m: Functions, vel: Cartesian)
    requires Lawful(m)
    ensures Moved(m, Origin, vel) == CToP(m, vel)
    ensures vel != Zero ==> 0.0 < Moved(m, Origin, vel).r
  {
  }

  /**
   * With no key held, or with each pair of opposing keys both held, the
   * velocity is zero and `addp` returns the position through its `r2 == 0`
   * branch: the position is unchanged unless it has radius 0 and a non-zero
   * angle, which the `r1 == 0` branch replaces by `(0, 0)`.
   */
  lemma StillWhenBalanced(m: Functions, keys: seq<bool>, scheme: Scheme, v: real, p: Polar)
    requires Lawful(m) && Covers(keys, scheme)
    requires keys[scheme.up] == keys[scheme.down] && keys[scheme.right] == keys[scheme.left]
    ensures p.r != 0.0 || p == Origin ==> Moved(m, p, HeldVelocity(keys, scheme, v)) == p
    ensures p.r == 0.0 ==> Moved(m, p, HeldVelocity(keys, scheme, v)) == Origin
  {
  }

  /** `control` keeps every object placed. */
  lemma MovePreservesPlaced(m: Functions, p: Polar, vel: Cartesian)
    requires Lawful(m) && Placed(m.pi, p)
    ensures Placed(m.pi, Moved(m, p, vel))
  {
  }

  /**
   * The first move away from the origin can leave [0, 2*pi]: the position
   * takes `atan2`'s angle as it is, so a negative angle stays negative.
   */
  lemma FirstMoveUnwrapped(m: Functions, vel: Cartesian)
    requires Lawful(m) && vel != Zero && m.atan2(vel.y, vel.x) < 0.0
    ensures Placed(m.pi, Moved(m, Origin, vel))
    ensures !Normal(m.pi, Moved(m, Origin, vel))
  {
  }
}
