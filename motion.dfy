/** Particle motion: each frame adds the velocity to the position, and an axis
    whose new coordinate lies outside [-rHalf, rHalf] has its velocity
    component negated. The position itself is never clamped. */
module Motion {
  import opened Geometry

  /** Side of the bounding cube, and its half (the bounce threshold). */
  const R: real := 450.0
  const RHalf: real := R / 2.0

  /** The per-particle record: its velocity and how many lines it has this frame. */
  datatype ParticleData = ParticleData(velocity: Vec, numConnections: int)

  /** A coordinate past one of the two faces of the box on its axis. */
  predicate OutOfBox(c: real)
  {
    c < -RHalf || c > RHalf
  }

  /** The velocity component after the bounce test on the new coordinate c. */
  function Reflect(c: real, v: real): real
  {
    if OutOfBox(c) then -v else v
  }

  /** Position after one frame's move. */
  function Moved(p: Vec, v: Vec): Vec
  {
    Vec(p.x + v.x, p.y + v.y, p.z + v.z)
  }

  /** Velocity after the bounce tests on the moved position p. */
  function Bounced(p: Vec, v: Vec): Vec
  {
    Vec(Reflect(p.x, v.x), Reflect(p.y, v.y), Reflect(p.z, v.z))
  }

  function Abs(x: real): real
  {
    if x < 0.0 then -x else x
  }

  /** One frame on one axis: (coordinate, velocity) to (coordinate, velocity). */
  function AxisStep(c: real, v: real): (real, real)
  {
    (c + v, Reflect(c + v, v))
  }

  /** k frames on one axis. */
  function AxisRun(c: real, v: real, k: nat): (real, real)
    decreases k
  {
    if k == 0 then (c, v) else AxisRun(AxisStep(c, v).0, AxisStep(c, v).1, k - 1)
  }

  /** Each axis of a frame's move and bounce is one AxisStep. */
  lemma FrameIsAxisSteps(p: Vec, v: Vec)
    ensures (Moved(p, v).x, Bounced(Moved(p, v), v).x) == AxisStep(p.x, v.x)
    ensures (Moved(p, v).y, Bounced(Moved(p, v), v).y) == AxisStep(p.y, v.y)
    ensures (Moved(p, v).z, Bounced(Moved(p, v), v).z) == AxisStep(p.z, v.z)
  {
  }

  /** The bounce negates a component exactly when the new coordinate is out of
      the box, and it never changes the speed on that axis. */
  lemma ReflectNegatesIffOutside(c: real, v: real)
    requires v != 0.0
    ensures Reflect(c, v) == -v <==> OutOfBox(c)
    ensures Abs(Reflect(c, v)) == Abs(v)
  {
  }

  /** Inside the box, or one frame away from coming back into it. */
  predicate Confined(c: real, v: real)
  {
    !OutOfBox(c) || !OutOfBox(c + v)
  }

  /** A coordinate that starts confined stays confined in every later frame,
      keeps its speed, and is never more than that speed outside the box. */
  lemma {:induction false} ConfinedForever(c: real, v: real, k: nat)
    requires Confined(c, v)
    ensures Confined(AxisRun(c, v, k).0, AxisRun(c, v, k).1)
    ensures Abs(AxisRun(c, v, k).1) == Abs(v)
    ensures -RHalf - Abs(v) <= AxisRun(c, v, k).0 <= RHalf + Abs(v)
    decreases k
  {
    if k > 0 {
      var (c', v') := AxisStep(c, v);
      assert Confined(c', v') && Abs(v') == Abs(v);
      ConfinedForever(c', v', k - 1);
    }
  }

  /** A coordinate that is outside the box and still outside after its next
      move never returns: the bounce flips it back and forth between the two
      places, forever. */
  lemma {:induction false} TrappedOutside(c: real, v: real, k: nat)
    requires OutOfBox(c) && OutOfBox(c + v)
    ensures AxisRun(c, v, 2 * k) == (c, v)
    ensures AxisRun(c, v, 2 * k + 1) == (c + v, -v)
    decreases k
  {
    assert AxisStep(c, v) == (c + v, -v);
    assert AxisStep(c + v, -v) == (c, v);
    if k > 0 {
      TrappedOutside(c, v, k - 1);
      calc {
        AxisRun(c, v, 2 * k);
        AxisRun(c + v, -v, 2 * k - 1);
        AxisRun(c, v, 2 * (k - 1));
      }
      calc {
        AxisRun(c, v, 2 * k + 1);
        AxisRun(c + v, -v, 2 * k);
        AxisRun(c, v, 2 * (k - 1) + 1);
      }
    }
  }
}
