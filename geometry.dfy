/** Points and distances of the particle field.
    A THREE.Vector3 (a position, a velocity or an RGB triple) is a `Vec`; the
    Float32 coordinates of the source are modelled as reals. The flat
    Float32Array buffers are sequences of reals holding one xyz triple after
    another. */
module Geometry {

  datatype Vec = Vec(x: real, y: real, z: real)

  /** The triple stored at offsets t, t+1, t+2 of a flat buffer. */
  function VecAt(s: seq<real>, t: nat): Vec
    requires t + 3 <= |s|
  {
    Vec(s[t], s[t + 1], s[t + 2])
  }

  /** Particle i of a flat position buffer (offsets i*3, i*3+1, i*3+2). */
  function ParticleAt(s: seq<real>, i: nat): Vec
    requires 3 * i + 3 <= |s|
  {
    VecAt(s, 3 * i)
  }

  /** The difference a - b, component by component. */
  function Sub(a: Vec, b: Vec): Vec
  {
    Vec(a.x - b.x, a.y - b.y, a.z - b.z)
  }

  /** Sum of squares of the differences dx, dy, dz. */
  function SumOfSquares(dx: real, dy: real, dz: real): (s: real)
    ensures 0.0 <= s
  {
    dx * dx + dy * dy + dz * dz
  }

  /** Squared Euclidean distance. */
  function SqDist(a: Vec, b: Vec): real
  {
    var d := Sub(a, b);
    SumOfSquares(d.x, d.y, d.z)
  }

  /** `sqrt` behaves as an exact square root on the non-negative reals
      (Math.sqrt without its rounding). */
  ghost predicate IsSqrt(sqrt: real -> real)
  {
    forall s :: 0.0 <= s ==> 0.0 <= sqrt(s) && sqrt(s) * sqrt(s) == s
  }

  /** A product of two positive reals is positive. */
  lemma PositiveProduct(x: real, y: real)
    requires 0.0 < x && 0.0 < y
    ensures 0.0 < x * y
  {
  }

  /** Squaring is strictly increasing on the non-negative reals. */
  lemma SquareStrictlyIncreasing(a: real, b: real)
    requires 0.0 <= a < b
    ensures a * a < b * b
  {
    PositiveProduct(b - a, b + a);
    assert (b - a) * (b + a) == b * b - a * a;
  }

  /** A quotient d / m with 0 <= d < m lies in [0, 1). */
  lemma QuotientBelowOne(d: real, m: real)
    requires 0.0 <= d < m
    ensures 0.0 <= d / m < 1.0
  {
  }

  /** Comparing a distance with a positive threshold is the same as comparing
      the squared distance with the squared threshold. */
  lemma SqrtBelowIffSquareBelow(sqrt: real -> real, s: real, m: real)
    requires IsSqrt(sqrt) && 0.0 <= s && 0.0 < m
    ensures sqrt(s) < m <==> s < m * m
  {
    var d := sqrt(s);
    assert 0.0 <= d && d * d == s;
    if d < m {
      SquareStrictlyIncreasing(d, m);
    } else if m < d {
      SquareStrictlyIncreasing(m, d);
    }
  }

  /** The exact root of a perfect square r*r with r >= 0 is r. */
  lemma SqrtOfSquare(sqrt: real -> real, r: real)
    requires IsSqrt(sqrt) && 0.0 <= r
    ensures sqrt(r * r) == r
  {
    var d := sqrt(r * r);
    assert 0.0 <= d && d * d == r * r;
    if d < r {
      SquareStrictlyIncreasing(d, r);
    } else if r < d {
      SquareStrictlyIncreasing(r, d);
    }
  }
}
