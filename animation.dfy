/** The per-frame update of the particle field: move every active particle,
    bounce it off the box, and write one line segment (two vertices, two gray
    colors) for every pair that is closer than MinDistance. */
module Animation {
  import opened Geometry
  import opened Motion
  import opened ProximityGraph

  /** Capacity of the particle buffers. */
  const MaxParticleCount: nat := 250
  /** Worst case number of segments the line buffers are sized for. */
  const Segments: nat := MaxParticleCount * MaxParticleCount
  /** Lines are drawn between particles closer than this. */
  const MinDistance: real := 150.0
  /** Per-particle cap, only consulted when the limitConnections gate is on. */
  const MaxConnections: int := 10

  /** segs is segs0 followed by segments that all start at particle i: what
      the row of i appends. */
  predicate RowExtends(segs0: seq<Pair>, segs: seq<Pair>, i: nat)
  {
    |segs0| <= |segs| && segs[..|segs0|] == segs0
    && forall k :: |segs0| <= k < |segs| ==> segs[k].0 == i
  }

  /** A row that appends nothing, or one more segment from i, still only
      extends segs0 by segments from i. */
  lemma RowExtendsStep(segs0: seq<Pair>, mid: seq<Pair>, segs: seq<Pair>, i: nat, j: nat)
    requires RowExtends(segs0, mid, i)
    requires segs == mid || segs == mid + [(i, j)]
    ensures RowExtends(segs0, segs, i)
  {
    if segs != mid {
      assert segs[..|mid|] == mid;
      assert segs[..|segs0|] == mid[..|segs0|];
    }
  }

  /** The RGB color of one line vertex: gray level alpha on every channel. */
  function Gray(alpha: real): Vec
  {
    Vec(alpha, alpha, alpha)
  }

  /** The six position floats of a segment from a to b. */
  function Endpoints(a: Vec, b: Vec): seq<real>
  {
    [a.x, a.y, a.z, b.x, b.y, b.z]
  }

  /** The six color floats of a segment: the gray level alpha at both ends. */
  function Shade(alpha: real): seq<real>
  {
    Endpoints(Gray(alpha), Gray(alpha))
  }

  /** s with w written over it from offset t on. */
  function Overwrite(s: seq<real>, t: nat, w: seq<real>): seq<real>
    requires t + |w| <= |s|
  {
    s[..t] + w + s[t + |w|..]
  }

  /** segs is a list of segments as the scan emits them: close pairs (i, j)
      with i < j < n, in strictly increasing scan order. */
  predicate CloseInOrder(P: seq<real>, D: seq<ParticleData>, n: nat, sqrt: real -> real, segs: seq<Pair>)
    requires Layout(P, D, n)
    decreases |segs|
  {
    segs == [] ||
    var p, prefix := segs[|segs| - 1], segs[..|segs| - 1];
    && CloseInOrder(P, D, n, sqrt, prefix)
    && p.0 < p.1 < n && Close(P, D, sqrt, MinDistance, p.0, p.1)
    && (prefix == [] || LexLess(prefix[|prefix| - 1], p))
  }

  /** The last segment of segs, if any, comes before (i, j) in scan order. */
  predicate EndsBefore(segs: seq<Pair>, i: nat, j: nat)
  {
    segs == [] || LexLess(segs[|segs| - 1], (i, j))
  }

  /** No pair is missed: every close pair i < j < n that the scan has passed
      before reaching (i, j) is in segs. */
  ghost predicate Complete(P: seq<real>, D: seq<ParticleData>, n: nat, sqrt: real -> real, segs: seq<Pair>, i: nat, j: nat)
    requires Layout(P, D, n)
  {
    forall a: nat, b: nat :: a < b < n && !Ahead((a, b), i, j) && Close(P, D, sqrt, MinDistance, a, b) ==> (a, b) in segs
  }

  /** Finishing row i (cursor (i, n)) is starting row i + 1. */
  lemma CompleteNextRow(P: seq<real>, D: seq<ParticleData>, n: nat, sqrt: real -> real, segs: seq<Pair>, i: nat)
    requires Layout(P, D, n) && i < n && Complete(P, D, n, sqrt, segs, i, n)
    ensures Complete(P, D, n, sqrt, segs, i + 1, i + 2)
  {
  }

  /** One pair test keeps the scan complete: when (i, j) was emitted exactly
      if it is close, every close pair up to and including (i, j) is in segs. */
  lemma CompleteStep(P: seq<real>, D: seq<ParticleData>, n: nat, sqrt: real -> real,
                     segs0: seq<Pair>, segs: seq<Pair>, i: nat, j: nat)
    requires Layout(P, D, n) && i < j < n && Complete(P, D, n, sqrt, segs0, i, j)
    requires segs == segs0 || segs == segs0 + [(i, j)]
    requires segs == segs0 + [(i, j)] <==> Close(P, D, sqrt, MinDistance, i, j)
    ensures Complete(P, D, n, sqrt, segs, i, j + 1)
  {
    assert forall p :: p in segs0 ==> p in segs;
  }

  /** The position floats the scan writes for segs, six per segment: the
      moved position of its first particle, the unmoved one of its second. */
  function LineVertices(P: seq<real>, D: seq<ParticleData>, n: nat, sqrt: real -> real, segs: seq<Pair>): (r: seq<real>)
    requires Layout(P, D, n) && CloseInOrder(P, D, n, sqrt, segs)
    ensures |r| == 6 * |segs|
    decreases |segs|
  {
    if segs == [] then []
    else
      var p := segs[|segs| - 1];
      LineVertices(P, D, n, sqrt, segs[..|segs| - 1]) + Endpoints(MovedAt(P, D, p.0), ParticleAt(P, p.1))
  }

  /** The color floats the scan writes for segs, six per segment, all equal
      to the segment's alpha. */
  function LineColors(P: seq<real>, D: seq<ParticleData>, n: nat, sqrt: real -> real, segs: seq<Pair>): (r: seq<real>)
    requires Layout(P, D, n) && CloseInOrder(P, D, n, sqrt, segs)
    ensures |r| == 6 * |segs|
    decreases |segs|
  {
    if segs == [] then []
    else
      var p := segs[|segs| - 1];
      LineColors(P, D, n, sqrt, segs[..|segs| - 1]) + Shade(Alpha(sqrt, MovedAt(P, D, p.0), ParticleAt(P, p.1), MinDistance))
  }

  /** Appending the next close pair of the scan extends the list and its
      vertex and color floats by that one segment. */
  lemma AppendSegment(P: seq<real>, D: seq<ParticleData>, n: nat, sqrt: real -> real, segs: seq<Pair>, p: Pair)
    requires Layout(P, D, n) && CloseInOrder(P, D, n, sqrt, segs)
    requires p.0 < p.1 < n && Close(P, D, sqrt, MinDistance, p.0, p.1)
    requires EndsBefore(segs, p.0, p.1)
    ensures CloseInOrder(P, D, n, sqrt, segs + [p])
    ensures LineVertices(P, D, n, sqrt, segs + [p])
      == LineVertices(P, D, n, sqrt, segs) + Endpoints(MovedAt(P, D, p.0), ParticleAt(P, p.1))
    ensures LineColors(P, D, n, sqrt, segs + [p])
      == LineColors(P, D, n, sqrt, segs) + Shade(Alpha(sqrt, MovedAt(P, D, p.0), ParticleAt(P, p.1), MinDistance))
  {
    assert (segs + [p])[..|segs|] == segs;
  }

  /** A list built by the scan is lexicographically sorted. */
  lemma {:induction false} CloseInOrderSorted(P: seq<real>, D: seq<ParticleData>, n: nat, sqrt: real -> real, segs: seq<Pair>)
    requires Layout(P, D, n) && CloseInOrder(P, D, n, sqrt, segs)
    ensures LexSorted(segs)
    decreases |segs|
  {
    if segs != [] {
      var last := |segs| - 1;
      var prefix := segs[..last];
      CloseInOrderSorted(P, D, n, sqrt, prefix);
      forall k, l | 0 <= k < l < |segs|
        ensures LexLess(segs[k], segs[l])
      {
        if l < last {
          assert LexLess(prefix[k], prefix[l]);
        } else if k < last - 1 {
          assert LexLess(prefix[k], prefix[last - 1]);
        }
      }
    }
  }

  /** Every segment of a scan-built list is a close pair i < j < n. */
  lemma {:induction false} CloseInOrderMembers(P: seq<real>, D: seq<ParticleData>, n: nat, sqrt: real -> real, segs: seq<Pair>)
    requires Layout(P, D, n) && CloseInOrder(P, D, n, sqrt, segs)
    ensures forall p :: p in segs ==> p.0 < p.1 < n && Close(P, D, sqrt, MinDistance, p.0, p.1)
    decreases |segs|
  {
    if segs != [] {
      var prefix := segs[..|segs| - 1];
      CloseInOrderMembers(P, D, n, sqrt, prefix);
      assert segs == prefix + [segs[|segs| - 1]];
    }
  }

  /** A scan-built list that misses no close pair is the frame's segment
      list, in its order. */
  lemma ScanFindsConnections(P: seq<real>, D: seq<ParticleData>, n: nat, sqrt: real -> real, segs: seq<Pair>)
    requires Layout(P, D, n) && CloseInOrder(P, D, n, sqrt, segs) && Complete(P, D, n, sqrt, segs, n, n + 1)
    ensures segs == Connections(P, D, n, sqrt, MinDistance)
  {
    var conns := Connections(P, D, n, sqrt, MinDistance);
    CloseInOrderSorted(P, D, n, sqrt, segs);
    CloseInOrderMembers(P, D, n, sqrt, segs);
    ConnectionsSorted(P, D, n, sqrt, MinDistance);
    forall p | true
      ensures p in segs <==> p in conns
    {
      ConnectionsMembers(P, D, n, sqrt, MinDistance, p.0, p.1);
    }
    LexSortedUnique(segs, conns);
  }

  /** A buffer that differs from s exactly by holding w from offset t on. */
  lemma OverwriteFromWrites(s: seq<real>, t: nat, w: seq<real>, r: seq<real>)
    requires t + |w| <= |s| && |r| == |s|
    requires forall k :: 0 <= k < |w| ==> r[t + k] == w[k]
    requires forall k :: 0 <= k < |s| && (k < t || t + |w| <= k) ==> r[k] == s[k]
    ensures r == Overwrite(s, t, w)
  {
    assert forall k :: 0 <= k < |s| ==> r[k] == Overwrite(s, t, w)[k];
  }

  /** Writing w over the first |w| floats that follow the prefix L. */
  lemma OverwriteAfterPrefix(L: seq<real>, w: seq<real>, rest: seq<real>)
    requires |w| <= |rest|
    ensures Overwrite(L + rest, |L|, w) == (L + w) + rest[|w|..]
  {
    assert (L + rest)[..|L|] == L;
    assert (L + rest)[|L| + |w|..] == rest[|w|..];
  }

  /** Segment k of the line buffers joins a to b and is colored alpha: six
      position floats at 6k .. 6k+5 and six color floats at the same offsets. */
  predicate Written(pos: seq<real>, col: seq<real>, k: nat, a: Vec, b: Vec, alpha: real)
  {
    6 * k + 6 <= |pos| && 6 * k + 6 <= |col|
    && VecAt(pos, 6 * k) == a && VecAt(pos, 6 * k + 3) == b
    && VecAt(col, 6 * k) == Gray(alpha) && VecAt(col, 6 * k + 3) == Gray(alpha)
  }

  /** The line buffers hold segs: segment k joins the moved position of
      segs[k].0 to the unmoved position of segs[k].1, a close pair with
      segs[k].0 < segs[k].1 < n, colored with its alpha. */
  ghost predicate Drawn(pos: seq<real>, col: seq<real>, P: seq<real>, D: seq<ParticleData>, n: nat,
                        sqrt: real -> real, segs: seq<Pair>)
    requires Layout(P, D, n)
  {
    forall k :: 0 <= k < |segs| ==>
      segs[k].0 < segs[k].1 < n && Close(P, D, sqrt, MinDistance, segs[k].0, segs[k].1)
      && Written(pos, col, k, MovedAt(P, D, segs[k].0), ParticleAt(P, segs[k].1),
                 Alpha(sqrt, MovedAt(P, D, segs[k].0), ParticleAt(P, segs[k].1), MinDistance))
  }

  /** Buffers that start with the floats of a scan-built list hold that list,
      segment by segment, whatever follows them. */
  lemma {:induction false} LinesDrawn(P: seq<real>, D: seq<ParticleData>, n: nat, sqrt: real -> real, segs: seq<Pair>,
                                      restPos: seq<real>, restCol: seq<real>)
    requires Layout(P, D, n) && CloseInOrder(P, D, n, sqrt, segs)
    ensures Drawn(LineVertices(P, D, n, sqrt, segs) + restPos, LineColors(P, D, n, sqrt, segs) + restCol,
                  P, D, n, sqrt, segs)
    decreases |segs|
  {
    if segs != [] {
      var last := |segs| - 1;
      var a, b := MovedAt(P, D, segs[last].0), ParticleAt(P, segs[last].1);
      var alpha := Alpha(sqrt, a, b, MinDistance);
      var L, C := LineVertices(P, D, n, sqrt, segs[..last]), LineColors(P, D, n, sqrt, segs[..last]);
      LinesDrawn(P, D, n, sqrt, segs[..last], Endpoints(a, b) + restPos, Shade(alpha) + restCol);
      ConcatAssoc(L, Endpoints(a, b), restPos);
      ConcatAssoc(C, Shade(alpha), restCol);
      SegmentWritten(L, C, last, a, b, alpha, restPos, restCol);
      DrawnExtend(LineVertices(P, D, n, sqrt, segs) + restPos, LineColors(P, D, n, sqrt, segs) + restCol,
                  P, D, n, sqrt, segs);
    }
  }

  lemma ConcatAssoc(x: seq<real>, y: seq<real>, z: seq<real>)
    ensures (x + y) + z == x + (y + z)
  {
  }

  /** Drawn buffers that also hold the last segment of segs at its slot hold
      all of segs. */
  lemma DrawnExtend(pos: seq<real>, col: seq<real>, P: seq<real>, D: seq<ParticleData>, n: nat,
                    sqrt: real -> real, segs: seq<Pair>)
    requires Layout(P, D, n) && segs != [] && Drawn(pos, col, P, D, n, sqrt, segs[..|segs| - 1])
    requires segs[|segs| - 1].0 < segs[|segs| - 1].1 < n
    requires Close(P, D, sqrt, MinDistance, segs[|segs| - 1].0, segs[|segs| - 1].1)
    requires Written(pos, col, |segs| - 1, MovedAt(P, D, segs[|segs| - 1].0), ParticleAt(P, segs[|segs| - 1].1),
                     Alpha(sqrt, MovedAt(P, D, segs[|segs| - 1].0), ParticleAt(P, segs[|segs| - 1].1), MinDistance))
    ensures Drawn(pos, col, P, D, n, sqrt, segs)
  {
    forall k | 0 <= k < |segs| - 1
      ensures segs[k] == segs[..|segs| - 1][k]
    {
    }
  }

  /** A segment's floats placed right after k earlier segments form segment k. */
  lemma SegmentWritten(L: seq<real>, C: seq<real>, k: nat, a: Vec, b: Vec, alpha: real,
                       restPos: seq<real>, restCol: seq<real>)
    requires |L| == 6 * k && |C| == 6 * k
    ensures Written(L + (Endpoints(a, b) + restPos), C + (Shade(alpha) + restCol), k, a, b, alpha)
  {
    var pos, col := L + (Endpoints(a, b) + restPos), C + (Shade(alpha) + restCol);
    assert pos[6 * k..6 * k + 6] == Endpoints(a, b);
    assert col[6 * k..6 * k + 6] == Shade(alpha);
  }

  /** Every color float of a drawn segment is its alpha, which lies in (0, 1]. */
  lemma DrawnColorInUnitInterval(pos: seq<real>, col: seq<real>, P: seq<real>, D: seq<ParticleData>, n: nat,
                                 sqrt: real -> real, segs: seq<Pair>, t: nat)
    requires Layout(P, D, n) && Drawn(pos, col, P, D, n, sqrt, segs) && IsSqrt(sqrt)
    requires t < 6 * |segs|
    ensures t < |col| && 0.0 < col[t] <= 1.0
  {
    var k := t / 6;
    assert 6 * k <= t < 6 * k + 6;
    var a, b := MovedAt(P, D, segs[k].0), ParticleAt(P, segs[k].1);
    assert Written(pos, col, k, a, b, Alpha(sqrt, a, b, MinDistance));
    AlphaInUnitInterval(sqrt, a, b, MinDistance);
  }

  /** Past a prefix L, L + s0[|L|..] agrees with s0. */
  lemma TailKept(L: seq<real>, s0: seq<real>)
    requires |L| <= |s0|
    ensures forall t :: |L| <= t < |s0| ==> (L + s0[|L|..])[t] == s0[t]
  {
  }

  /** The line buffers at the end of the scan: they hold segs, in scan
      order, every color float written is in (0, 1], and everything past
      the last segment is as it was at the start of the frame. */
  lemma FrameLines(pos: seq<real>, col: seq<real>, P: seq<real>, D: seq<ParticleData>, n: nat,
                   sqrt: real -> real, segs: seq<Pair>, pos0: seq<real>, col0: seq<real>)
    requires Layout(P, D, n) && IsSqrt(sqrt) && CloseInOrder(P, D, n, sqrt, segs)
    requires 6 * |segs| <= |pos0| && 6 * |segs| <= |col0|
    requires pos == LineVertices(P, D, n, sqrt, segs) + pos0[6 * |segs|..]
    requires col == LineColors(P, D, n, sqrt, segs) + col0[6 * |segs|..]
    ensures Drawn(pos, col, P, D, n, sqrt, segs) && LexSorted(segs)
    ensures forall t :: 6 * |segs| <= t < |pos0| ==> pos[t] == pos0[t]
    ensures forall t :: 6 * |segs| <= t < |col0| ==> col[t] == col0[t]
    ensures forall t :: 0 <= t < 6 * |segs| ==> 0.0 < col[t] <= 1.0
  {
    var m := 6 * |segs|;
    TailKept(LineVertices(P, D, n, sqrt, segs), pos0);
    TailKept(LineColors(P, D, n, sqrt, segs), col0);
    LinesDrawn(P, D, n, sqrt, segs, pos0[m..], col0[m..]);
    CloseInOrderSorted(P, D, n, sqrt, segs);
    forall t | 0 <= t < m
      ensures 0.0 < col[t] <= 1.0
    {
      DrawnColorInUnitInterval(pos, col, P, D, n, sqrt, segs, t);
    }
  }

  /** Sum of numConnections over the first n records. */
  function ConnectionTotal(D: seq<ParticleData>, n: nat): int
    requires n <= |D|
  {
    if n == 0 then 0 else ConnectionTotal(D, n - 1) + D[n - 1].numConnections
  }

  /** When every active record counts the segments ending at it, the
      records' total is the sum of the degrees. */
  lemma {:induction false} ConnectionTotalIsDegreeSum(D: seq<ParticleData>, segs: seq<Pair>, n: nat)
    requires n <= |D|
    requires forall k :: 0 <= k < n ==> D[k].numConnections == Degree(segs, k)
    ensures ConnectionTotal(D, n) == DegreeSum(segs, n)
  {
    if n > 0 {
      ConnectionTotalIsDegreeSum(D, segs, n - 1);
    }
  }

  /** The line buffers hold 6 floats per segment for every one of the
      n*(n-1)/2 pairs. */
  lemma CapacitySuffices(n: nat)
    requires n <= MaxParticleCount
    ensures 6 * PairsBefore(n, n) <= Segments * 3
  {
    AllPairs(n);
    assert n * (n - 1) <= n * MaxParticleCount;
    assert n * MaxParticleCount <= MaxParticleCount * MaxParticleCount;
  }

  class ParticleField {
    /** Active particles; the source sets it to MaxParticleCount. */
    const particleCount: nat
    /** xyz of every particle, one triple after another. */
    const particlePositions: array<real>
    /** Velocity and connection count of every particle. */
    const particlesData: array<ParticleData>
    /** Line vertex positions (2 vertices = 6 floats per segment). */
    const positions: array<real>
    /** Line vertex colors (2 gray RGB triples = 6 floats per segment). */
    const colors: array<real>

    predicate Valid()
    {
      && particleCount <= MaxParticleCount
      && particlesData.Length == MaxParticleCount
      && particlePositions.Length == MaxParticleCount * 3
      && positions.Length == Segments * 3
      && colors.Length == Segments * 3
      && positions != colors && positions != particlePositions && colors != particlePositions
    }

    /** Allocation of the buffers. The random start positions and velocities
        are the inputs; connection counts start at 0, the line buffers at 0.0. */
    constructor (count: nat, startPositions: seq<real>, velocities: seq<Vec>)
      requires count <= MaxParticleCount
      requires |startPositions| == MaxParticleCount * 3 && |velocities| == MaxParticleCount
      ensures Valid() && particleCount == count
      ensures fresh(particlePositions) && fresh(particlesData) && fresh(positions) && fresh(colors)
      ensures particlePositions[..] == startPositions
      ensures forall k :: 0 <= k < MaxParticleCount ==> particlesData[k] == ParticleData(velocities[k], 0)
      ensures forall t :: 0 <= t < Segments * 3 ==> positions[t] == 0.0 && colors[t] == 0.0
    {
      particleCount := count;
      particlePositions := new real[MaxParticleCount * 3](t requires 0 <= t < |startPositions| => startPositions[t]);
      particlesData := new ParticleData[MaxParticleCount](k requires 0 <= k < |velocities| => ParticleData(velocities[k], 0));
      positions := new real[Segments * 3](_ => 0.0);
      colors := new real[Segments * 3](_ => 0.0);
      new;
      assert particlePositions[..] == startPositions;
    }

    /** Writes the endpoints of segment (i, j), the current positions of i
        and j, at the position cursor. */
    method PushVertices(vertexPos: nat, i: nat, j: nat) returns (nextVertexPos: nat)
      requires Valid()
      requires 3 * i + 3 <= particlePositions.Length && 3 * j + 3 <= particlePositions.Length
      requires vertexPos + 6 <= positions.Length
      modifies positions
      ensures nextVertexPos == vertexPos + 6
      ensures positions[..] == Overwrite(old(positions[..]), vertexPos,
        Endpoints(ParticleAt(particlePositions[..], i), ParticleAt(particlePositions[..], j)))
    {
      var vp := vertexPos;
      positions[vp] := particlePositions[i * 3]; vp := vp + 1;
      positions[vp] := particlePositions[i * 3 + 1]; vp := vp + 1;
      positions[vp] := particlePositions[i * 3 + 2]; vp := vp + 1;

      positions[vp] := particlePositions[j * 3]; vp := vp + 1;
      positions[vp] := particlePositions[j * 3 + 1]; vp := vp + 1;
      positions[vp] := particlePositions[j * 3 + 2]; vp := vp + 1;

      nextVertexPos := vp;
      OverwriteFromWrites(old(positions[..]), vertexPos,
        Endpoints(ParticleAt(particlePositions[..], i), ParticleAt(particlePositions[..], j)), positions[..]);
    }

    /** Writes the gray level alpha for both endpoints at the color cursor. */
    method PushColors(colorPos: nat, alpha: real) returns (nextColorPos: nat)
      requires Valid()
      requires colorPos + 6 <= colors.Length
      modifies colors
      ensures nextColorPos == colorPos + 6
      ensures colors[..] == Overwrite(old(colors[..]), colorPos, Shade(alpha))
    {
      var cp := colorPos;
      colors[cp] := alpha; cp := cp + 1;
      colors[cp] := alpha; cp := cp + 1;
      colors[cp] := alpha; cp := cp + 1;

      colors[cp] := alpha; cp := cp + 1;
      colors[cp] := alpha; cp := cp + 1;
      colors[cp] := alpha; cp := cp + 1;

      nextColorPos := cp;
      OverwriteFromWrites(old(colors[..]), colorPos, Shade(alpha), colors[..]);
    }

    /** src/Three.jsx:152: every active particle's connection count goes back to 0. */
    method ResetConnections()
      requires Valid()
      modifies particlesData
      ensures forall k :: 0 <= k < particleCount ==> particlesData[k] == old(particlesData[k]).(numConnections := 0)
      ensures forall k :: particleCount <= k < particlesData.Length ==> particlesData[k] == old(particlesData[k])
    {
      for i := 0 to particleCount
        invariant forall k :: 0 <= k < i ==> particlesData[k] == old(particlesData[k]).(numConnections := 0)
        invariant forall k :: i <= k < particlesData.Length ==> particlesData[k] == old(particlesData[k])
      {
        particlesData[i] := particlesData[i].(numConnections := 0);
      }
    }

    /** Moves particle i by its velocity, then negates each velocity component
        whose new coordinate is outside the box (tested y, x, z as the source does). */
    method AdvanceParticle(i: nat)
      requires Valid() && i < particleCount
      modifies particlePositions, particlesData
      ensures ParticleAt(particlePositions[..], i)
        == Moved(old(ParticleAt(particlePositions[..], i)), old(particlesData[i].velocity))
      ensures particlesData[i]
        == old(particlesData[i]).(velocity := Bounced(ParticleAt(particlePositions[..], i), old(particlesData[i].velocity)))
      ensures forall t :: 0 <= t < particlePositions.Length && (t < 3 * i || 3 * i + 3 <= t) ==>
        particlePositions[t] == old(particlePositions[t])
      ensures forall k :: 0 <= k < particlesData.Length && k != i ==> particlesData[k] == old(particlesData[k])
    {
      var velocity := particlesData[i].velocity;
      particlePositions[i * 3] := particlePositions[i * 3] + velocity.x;
      particlePositions[i * 3 + 1] := particlePositions[i * 3 + 1] + velocity.y;
      particlePositions[i * 3 + 2] := particlePositions[i * 3 + 2] + velocity.z;

      if OutOfBox(particlePositions[i * 3 + 1]) {
        velocity := velocity.(y := -velocity.y);
      }
      if OutOfBox(particlePositions[i * 3]) {
        velocity := velocity.(x := -velocity.x);
      }
      if OutOfBox(particlePositions[i * 3 + 2]) {
        velocity := velocity.(z := -velocity.z);
      }
      particlesData[i] := particlesData[i].(velocity := velocity);
    }

    /** The line buffers after the scan has emitted segs, against their state
        pos0, col0 at the start of the frame: they start with the floats of
        segs, and nothing at or past the cursors has changed. */
    ghost predicate Emitted(P0: seq<real>, D0: seq<ParticleData>, pos0: seq<real>, col0: seq<real>,
                            sqrt: real -> real, segs: seq<Pair>, numConnected: nat, vertexPos: nat, colorPos: nat)
      reads positions, colors
    {
      && Valid()
      && Layout(P0, D0, particleCount)
      && |pos0| == positions.Length && |col0| == colors.Length
      && numConnected == |segs| && vertexPos == 6 * numConnected && colorPos == 6 * numConnected
      && 6 * numConnected <= positions.Length
      && CloseInOrder(P0, D0, particleCount, sqrt, segs)
      && positions[..] == LineVertices(P0, D0, particleCount, sqrt, segs) + pos0[vertexPos..]
      && colors[..] == LineColors(P0, D0, particleCount, sqrt, segs) + col0[colorPos..]
    }

    /** Every active connection count is the number of segments of segs at
        that particle; the inactive records are as they were (D0). */
    ghost predicate Counted(D0: seq<ParticleData>, segs: seq<Pair>)
      reads particlesData
    {
      && Valid()
      && |D0| == particlesData.Length
      && (forall k :: 0 <= k < particleCount ==> particlesData[k].numConnections == Degree(segs, k))
      && (forall k :: particleCount <= k < |D0| ==> particlesData[k] == D0[k])
    }

    /** The distance of src/Three.jsx:192-195 between the current positions of i and j. */
    method Distance(i: nat, j: nat, sqrt: real -> real) returns (dist: real)
      requires Valid() && i < MaxParticleCount && j < MaxParticleCount
      ensures dist == Dist(sqrt, ParticleAt(particlePositions[..], i), ParticleAt(particlePositions[..], j))
    {
      var dx := particlePositions[i * 3] - particlePositions[j * 3];
      var dy := particlePositions[i * 3 + 1] - particlePositions[j * 3 + 1];
      var dz := particlePositions[i * 3 + 2] - particlePositions[j * 3 + 2];
      dist := sqrt(SumOfSquares(dx, dy, dz));
      ghost var a, b := ParticleAt(particlePositions[..], i), ParticleAt(particlePositions[..], j);
      assert Sub(a, b) == Vec(dx, dy, dz);
    }

    /** What src/Three.jsx:198-219 does for a close pair (i, j): both connection counts go up by
        one, the segment is written at the cursors, and it is counted. */
    method Connect(i: nat, j: nat, alpha: real, ghost sqrt: real -> real,
                   vertexPos0: nat, colorPos0: nat, numConnected0: nat,
                   ghost P0: seq<real>, ghost D0: seq<ParticleData>, ghost pos0: seq<real>, ghost col0: seq<real>,
                   ghost segs0: seq<Pair>)
      returns (vertexPos: nat, colorPos: nat, numConnected: nat, ghost segs: seq<Pair>)
      requires Emitted(P0, D0, pos0, col0, sqrt, segs0, numConnected0, vertexPos0, colorPos0)
      requires Counted(D0, segs0)
      requires i < j < particleCount && Close(P0, D0, sqrt, MinDistance, i, j)
      requires numConnected0 < PairsBefore(particleCount, particleCount)
      requires EndsBefore(segs0, i, j)
      requires ParticleAt(particlePositions[..], i) == MovedAt(P0, D0, i)
      requires ParticleAt(particlePositions[..], j) == ParticleAt(P0, j)
      requires alpha == Alpha(sqrt, MovedAt(P0, D0, i), ParticleAt(P0, j), MinDistance)
      modifies particlesData, positions, colors
      ensures segs == segs0 + [(i, j)] && numConnected == numConnected0 + 1
      ensures Emitted(P0, D0, pos0, col0, sqrt, segs, numConnected, vertexPos, colorPos)
      ensures Counted(D0, segs)
      ensures forall k :: 0 <= k < particlesData.Length ==> particlesData[k].velocity == old(particlesData[k].velocity)
    {
      var n := particleCount;
      particlesData[i] := particlesData[i].(numConnections := particlesData[i].numConnections + 1);
      particlesData[j] := particlesData[j].(numConnections := particlesData[j].numConnections + 1);

      CapacitySuffices(n);
      vertexPos := PushVertices(vertexPos0, i, j);
      colorPos := PushColors(colorPos0, alpha);
      AppendSegment(P0, D0, n, sqrt, segs0, (i, j));
      OverwriteAfterPrefix(LineVertices(P0, D0, n, sqrt, segs0),
                           Endpoints(MovedAt(P0, D0, i), ParticleAt(P0, j)), pos0[vertexPos0..]);
      OverwriteAfterPrefix(LineColors(P0, D0, n, sqrt, segs0), Shade(alpha), col0[colorPos0..]);
      assert pos0[vertexPos0..][6..] == pos0[vertexPos..];
      assert col0[colorPos0..][6..] == col0[colorPos..];

      forall k | 0 <= k < n
        ensures Degree(segs0 + [(i, j)], k) == Degree(segs0, k) + (if i == k then 1 else 0) + (if j == k then 1 else 0)
      {
        DegreeAppend(segs0, (i, j), k);
      }
      numConnected := numConnected0 + 1;
      segs := segs0 + [(i, j)];
    }

    /** One pair test of the row of i (src/Three.jsx:185-220): skipped when the cap
        gate is on and j is saturated; otherwise, when the distance is below
        minDistance, the segment (i, j) is emitted and counted. */
    method ScanPair(i: nat, j: nat, limitConnections: bool, sqrt: real -> real,
                    vertexPos0: nat, colorPos0: nat, numConnected0: nat,
                    ghost P0: seq<real>, ghost D0: seq<ParticleData>, ghost pos0: seq<real>, ghost col0: seq<real>,
                    ghost segs0: seq<Pair>)
      returns (vertexPos: nat, colorPos: nat, numConnected: nat, ghost segs: seq<Pair>)
      requires i < j < particleCount
      requires Emitted(P0, D0, pos0, col0, sqrt, segs0, numConnected0, vertexPos0, colorPos0)
      requires Counted(D0, segs0)
      requires numConnected0 < PairsBefore(particleCount, particleCount)
      requires EndsBefore(segs0, i, j)
      requires ParticleAt(particlePositions[..], i) == MovedAt(P0, D0, i)
      requires ParticleAt(particlePositions[..], j) == ParticleAt(P0, j)
      requires !limitConnections ==> Complete(P0, D0, particleCount, sqrt, segs0, i, j)
      modifies particlesData, positions, colors
      ensures Emitted(P0, D0, pos0, col0, sqrt, segs, numConnected, vertexPos, colorPos)
      ensures Counted(D0, segs)
      ensures numConnected <= numConnected0 + 1
      // the pair is emitted iff j is not saturated under the cap and (i, j) is close
      ensures segs == segs0 || segs == segs0 + [(i, j)]
      ensures segs == segs0 + [(i, j)] <==>
        !(limitConnections && Degree(segs0, j) >= MaxConnections) && Close(P0, D0, sqrt, MinDistance, i, j)
      ensures EndsBefore(segs, i, j + 1)
      ensures forall k :: 0 <= k < particlesData.Length ==> particlesData[k].velocity == old(particlesData[k].velocity)
      ensures !limitConnections ==> Complete(P0, D0, particleCount, sqrt, segs, i, j + 1)
    {
      vertexPos, colorPos, numConnected, segs := vertexPos0, colorPos0, numConnected0, segs0;
      if limitConnections && particlesData[j].numConnections >= MaxConnections {
        return;
      }

      var dist := Distance(i, j, sqrt);

      if dist < MinDistance {
        var alpha := 1.0 - dist / MinDistance;
        vertexPos, colorPos, numConnected, segs :=
          Connect(i, j, alpha, sqrt, vertexPos, colorPos, numConnected, P0, D0, pos0, col0, segs);
      }
      if !limitConnections {
        CompleteStep(P0, D0, particleCount, sqrt, segs0, segs, i, j);
      }
    }

    /** The row of pair tests of particle i (src/Three.jsx:184-221): i, already moved,
        against every j > i, not yet moved. */
    method ScanRow(i: nat, limitConnections: bool, sqrt: real -> real,
                   vertexPos0: nat, colorPos0: nat, numConnected0: nat,
                   ghost P0: seq<real>, ghost D0: seq<ParticleData>, ghost pos0: seq<real>, ghost col0: seq<real>,
                   ghost segs0: seq<Pair>)
      returns (vertexPos: nat, colorPos: nat, numConnected: nat, ghost segs: seq<Pair>)
      requires i < particleCount
      requires Emitted(P0, D0, pos0, col0, sqrt, segs0, numConnected0, vertexPos0, colorPos0)
      requires Counted(D0, segs0)
      requires numConnected0 <= PairsBefore(particleCount, i)
      requires EndsBefore(segs0, i, 0)
      requires ParticleAt(particlePositions[..], i) == MovedAt(P0, D0, i)
      requires forall t :: 3 * (i + 1) <= t < |P0| ==> particlePositions[t] == P0[t]
      requires !limitConnections ==> Complete(P0, D0, particleCount, sqrt, segs0, i, i + 1)
      modifies particlesData, positions, colors
      ensures Emitted(P0, D0, pos0, col0, sqrt, segs, numConnected, vertexPos, colorPos)
      ensures Counted(D0, segs)
      ensures numConnected <= PairsBefore(particleCount, i + 1)
      ensures EndsBefore(segs, i + 1, 0)
      // the row only appends segments that start at i
      ensures RowExtends(segs0, segs, i)
      ensures forall k :: 0 <= k < particlesData.Length ==> particlesData[k].velocity == old(particlesData[k].velocity)
      ensures !limitConnections ==> Complete(P0, D0, particleCount, sqrt, segs, i + 1, i + 2)
    {
      var n := particleCount;
      vertexPos, colorPos, numConnected, segs := vertexPos0, colorPos0, numConnected0, segs0;
      PairsBeforeMonotone(n, i + 1);

      for j := i + 1 to n
        invariant Emitted(P0, D0, pos0, col0, sqrt, segs, numConnected, vertexPos, colorPos)
        invariant Counted(D0, segs)
        invariant numConnected <= PairsBefore(n, i) + (j - i - 1)
        invariant EndsBefore(segs, i, j)
        invariant RowExtends(segs0, segs, i)
        invariant forall k :: 0 <= k < particlesData.Length ==> particlesData[k].velocity == old(particlesData[k].velocity)
        invariant !limitConnections ==> Complete(P0, D0, n, sqrt, segs, i, j)
      {
        ghost var mid := segs;
        vertexPos, colorPos, numConnected, segs :=
          ScanPair(i, j, limitConnections, sqrt, vertexPos, colorPos, numConnected, P0, D0, pos0, col0, segs);
        RowExtendsStep(segs0, mid, segs, i, j);
      }
      if !limitConnections {
        CompleteNextRow(P0, D0, n, sqrt, segs, i);
      }
    }

    /** One iteration of the outer loop (src/Three.jsx:155-221): particle i takes its
        step and bounces, then, unless the cap gate is on and i is saturated,
        its row of pair tests runs. */
    method StepParticle(i: nat, limitConnections: bool, sqrt: real -> real,
                        vertexPos0: nat, colorPos0: nat, numConnected0: nat,
                        ghost P0: seq<real>, ghost D0: seq<ParticleData>, ghost pos0: seq<real>, ghost col0: seq<real>,
                        ghost segs0: seq<Pair>)
      returns (vertexPos: nat, colorPos: nat, numConnected: nat, ghost segs: seq<Pair>)
      requires i < particleCount
      requires Emitted(P0, D0, pos0, col0, sqrt, segs0, numConnected0, vertexPos0, colorPos0)
      requires Counted(D0, segs0)
      requires numConnected0 <= PairsBefore(particleCount, i)
      requires EndsBefore(segs0, i, 0)
      requires forall k :: 0 <= k < i ==> ParticleAt(particlePositions[..], k) == MovedAt(P0, D0, k)
      requires forall t :: 3 * i <= t < |P0| ==> particlePositions[t] == P0[t]
      requires forall k :: 0 <= k < i ==>
        particlesData[k].velocity == Bounced(MovedAt(P0, D0, k), D0[k].velocity)
      requires forall k :: i <= k < |D0| ==> particlesData[k].velocity == D0[k].velocity
      requires !limitConnections ==> Complete(P0, D0, particleCount, sqrt, segs0, i, i + 1)
      modifies particlePositions, particlesData, positions, colors
      ensures forall k :: 0 <= k < i + 1 ==> ParticleAt(particlePositions[..], k) == MovedAt(P0, D0, k)
      ensures forall t :: 3 * (i + 1) <= t < |P0| ==> particlePositions[t] == P0[t]
      ensures forall k :: 0 <= k < i + 1 ==>
        particlesData[k].velocity == Bounced(MovedAt(P0, D0, k), D0[k].velocity)
      ensures forall k :: i + 1 <= k < |D0| ==> particlesData[k].velocity == D0[k].velocity
      ensures Emitted(P0, D0, pos0, col0, sqrt, segs, numConnected, vertexPos, colorPos)
      ensures Counted(D0, segs)
      ensures numConnected <= PairsBefore(particleCount, i + 1)
      ensures EndsBefore(segs, i + 1, 0)
      // a particle already saturated under the cap scans no row
      ensures limitConnections && Degree(segs0, i) >= MaxConnections ==> segs == segs0
      ensures RowExtends(segs0, segs, i)
      ensures !limitConnections ==> Complete(P0, D0, particleCount, sqrt, segs, i + 1, i + 2)
    {
      vertexPos, colorPos, numConnected, segs := vertexPos0, colorPos0, numConnected0, segs0;
      AdvanceParticle(i);
      assert ParticleAt(particlePositions[..], i) == MovedAt(P0, D0, i);

      if limitConnections && particlesData[i].numConnections >= MaxConnections {
        return;
      }

      vertexPos, colorPos, numConnected, segs :=
        ScanRow(i, limitConnections, sqrt, vertexPos, colorPos, numConnected, P0, D0, pos0, col0, segs);
    }

    /** The outer loop of the frame (src/Three.jsx:154-221), after the reset: every
        particle in index order takes its step and then its row of pair
        tests. P0, D0, pos0, col0 are the buffers at the start of the frame. */
    method ScanFrame(limitConnections: bool, sqrt: real -> real,
                     ghost P0: seq<real>, ghost D0: seq<ParticleData>, ghost pos0: seq<real>, ghost col0: seq<real>)
      returns (numConnected: nat, ghost segs: seq<Pair>)
      requires Valid()
      requires P0 == particlePositions[..] && pos0 == positions[..] && col0 == colors[..]
      requires |D0| == particlesData.Length
      requires forall k :: 0 <= k < particleCount ==> particlesData[k] == D0[k].(numConnections := 0)
      requires forall k :: particleCount <= k < |D0| ==> particlesData[k] == D0[k]
      modifies particlePositions, particlesData, positions, colors
      ensures forall k :: 0 <= k < particleCount ==> ParticleAt(particlePositions[..], k) == MovedAt(P0, D0, k)
      ensures forall t :: 3 * particleCount <= t < |P0| ==> particlePositions[t] == P0[t]
      ensures forall k :: 0 <= k < particleCount ==>
        particlesData[k].velocity == Bounced(MovedAt(P0, D0, k), D0[k].velocity)
      ensures Emitted(P0, D0, pos0, col0, sqrt, segs, numConnected, 6 * numConnected, 6 * numConnected)
      ensures Counted(D0, segs)
      ensures numConnected <= PairsBefore(particleCount, particleCount)
      ensures !limitConnections ==> Complete(P0, D0, particleCount, sqrt, segs, particleCount, particleCount + 1)
    {
      var n := particleCount;
      var vertexPos: nat := 0;
      var colorPos: nat := 0;
      numConnected := 0;
      segs := [];

      for i := 0 to n
        invariant forall k :: 0 <= k < i ==> ParticleAt(particlePositions[..], k) == MovedAt(P0, D0, k)
        invariant forall t :: 3 * i <= t < |P0| ==> particlePositions[t] == P0[t]
        invariant forall k :: 0 <= k < i ==>
          particlesData[k].velocity == Bounced(MovedAt(P0, D0, k), D0[k].velocity)
        invariant forall k :: i <= k < |D0| ==> particlesData[k].velocity == D0[k].velocity
        invariant Emitted(P0, D0, pos0, col0, sqrt, segs, numConnected, vertexPos, colorPos)
        invariant Counted(D0, segs)
        invariant numConnected <= PairsBefore(n, i)
        invariant EndsBefore(segs, i, 0)
        invariant !limitConnections ==> Complete(P0, D0, n, sqrt, segs, i, i + 1)
      {
        vertexPos, colorPos, numConnected, segs :=
          StepParticle(i, limitConnections, sqrt, vertexPos, colorPos, numConnected, P0, D0, pos0, col0, segs);
      }
    }

    /** One frame of the simulation (src/Three.jsx:147-224). `sqrt` is Math.sqrt;
        `limitConnections` is the per-particle cap gate, which the source
        never turns on. Returns the number of segments, the draw range
        (vertex count) of the line mesh, and, as a ghost, the segments in the
        order they were written. */
    method Animate(limitConnections: bool, sqrt: real -> real)
      returns (numConnected: nat, drawCount: nat, ghost segs: seq<Pair>)
      requires Valid() && IsSqrt(sqrt)
      modifies particlePositions, particlesData, positions, colors
      // every active particle took its step; inactive ones did not move
      ensures forall k :: 0 <= k < particleCount ==>
        ParticleAt(particlePositions[..], k) == MovedAt(old(particlePositions[..]), old(particlesData[..]), k)
      ensures forall t :: 3 * particleCount <= t < particlePositions.Length ==>
        particlePositions[t] == old(particlePositions[t])
      // each velocity component was negated iff the new coordinate left the box
      ensures forall k :: 0 <= k < particleCount ==>
        particlesData[k].velocity == Bounced(ParticleAt(particlePositions[..], k), old(particlesData[k].velocity))
      ensures forall k :: particleCount <= k < particlesData.Length ==> particlesData[k] == old(particlesData[k])
      // the line buffers: one segment per close pair, in scan order
      ensures |segs| == numConnected && drawCount == 2 * numConnected
      ensures 2 * numConnected <= particleCount * (particleCount - 1)
      ensures 6 * numConnected <= colors.Length
      ensures LexSorted(segs)
      ensures Drawn(positions[..], colors[..], old(particlePositions[..]), old(particlesData[..]), particleCount, sqrt, segs)
      ensures !limitConnections ==>
        segs == Connections(old(particlePositions[..]), old(particlesData[..]), particleCount, sqrt, MinDistance)
      ensures forall t :: 6 * numConnected <= t < positions.Length ==>
        positions[t] == old(positions[t]) && colors[t] == old(colors[t])
      ensures forall t :: 0 <= t < 6 * numConnected ==> 0.0 < colors[t] <= 1.0
      // connection counts
      ensures forall k :: 0 <= k < particleCount ==> particlesData[k].numConnections == Degree(segs, k)
      ensures ConnectionTotal(particlesData[..], particleCount) == 2 * numConnected
    {
      ghost var P0 := particlePositions[..];
      ghost var D0 := particlesData[..];
      ghost var pos0 := positions[..];
      ghost var col0 := colors[..];
      var n := particleCount;

      ResetConnections();
      numConnected, segs := ScanFrame(limitConnections, sqrt, P0, D0, pos0, col0);

      drawCount := numConnected * 2;

      FrameLines(positions[..], colors[..], P0, D0, n, sqrt, segs, pos0, col0);
      if !limitConnections {
        ScanFindsConnections(P0, D0, n, sqrt, segs);
      }
      AllPairs(n);
      Handshake(segs, n);
      ConnectionTotalIsDegreeSum(particlesData[..], segs, n);
    }
  }
}
