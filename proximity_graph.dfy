/** The proximity graph of one frame, as a specification on values.
    Particles are visited in index order; particle i is moved just before its
    row of pair tests, so pair (i, j) with i < j compares the MOVED position
    of i with the NOT YET MOVED position of j. Everything here is stated in
    terms of the state at the start of the frame: the flat position buffer P
    and the per-particle records D. */
module ProximityGraph {
  import opened Geometry
  import opened Motion

  /** A line segment between particles (i, j), with i < j. */
  type Pair = (nat, nat)

  /** P holds one xyz triple per record of D, and n of them are active. */
  predicate Layout(P: seq<real>, D: seq<ParticleData>, n: nat)
  {
    |P| == 3 * |D| && n <= |D|
  }

  /** Position of particle i once it has taken this frame's step. */
  function MovedAt(P: seq<real>, D: seq<ParticleData>, i: nat): Vec
    requires |P| == 3 * |D| && i < |D|
  {
    Moved(ParticleAt(P, i), D[i].velocity)
  }

  /** Euclidean distance, with `sqrt` standing for Math.sqrt. */
  function Dist(sqrt: real -> real, a: Vec, b: Vec): real
  {
    sqrt(SqDist(a, b))
  }

  /** The pair test of the scan: moved i against unmoved j, closer than m. */
  predicate Close(P: seq<real>, D: seq<ParticleData>, sqrt: real -> real, m: real, i: nat, j: nat)
    requires |P| == 3 * |D| && i < |D| && j < |D|
  {
    Dist(sqrt, MovedAt(P, D, i), ParticleAt(P, j)) < m
  }

  /** Gray level of the line for a close pair: 1 - dist / minDistance. */
  function Alpha(sqrt: real -> real, a: Vec, b: Vec, minDistance: real): real
    requires 0.0 < minDistance
  {
    1.0 - Dist(sqrt, a, b) / minDistance
  }

  /** With an exact square root, the distance test is the squared-distance
      test: a pair is close exactly when its squared distance is below m*m. */
  lemma CloseIffSquareBelow(P: seq<real>, D: seq<ParticleData>, sqrt: real -> real, m: real, i: nat, j: nat)
    requires |P| == 3 * |D| && i < |D| && j < |D| && IsSqrt(sqrt) && 0.0 < m
    ensures Close(P, D, sqrt, m, i, j) <==> SqDist(MovedAt(P, D, i), ParticleAt(P, j)) < m * m
  {
    SqrtBelowIffSquareBelow(sqrt, SqDist(MovedAt(P, D, i), ParticleAt(P, j)), m);
  }

  /** The proximity graph: every pair i < j < n whose pair test succeeds. */
  ghost function CloseSet(P: seq<real>, D: seq<ParticleData>, n: nat, sqrt: real -> real, m: real): set<Pair>
    requires Layout(P, D, n)
  {
    set i: nat, j: nat | i < j < n && Close(P, D, sqrt, m, i, j) :: (i, j)
  }

  lemma CloseSetMembers(P: seq<real>, D: seq<ParticleData>, n: nat, sqrt: real -> real, m: real, i: nat, j: nat)
    requires Layout(P, D, n)
    ensures (i, j) in CloseSet(P, D, n, sqrt, m) <==> i < j < n && Close(P, D, sqrt, m, i, j)
  {
    if i < j < n && Close(P, D, sqrt, m, i, j) {
      assert (i, j) in CloseSet(P, D, n, sqrt, m);
    }
  }

  /** The pairs of E from (i, j) on, in the order the nested scan over
      0 <= i < j < n meets them: the rest of row i, then rows i+1, i+2, ... */
  function PairsFrom(E: set<Pair>, n: nat, i: nat, j: nat): seq<Pair>
    requires i < j
    decreases n - i, n - j
  {
    if i >= n then []
    else if j >= n then PairsFrom(E, n, i + 1, i + 2)
    else (if (i, j) in E then [(i, j)] else []) + PairsFrom(E, n, i, j + 1)
  }

  /** Every segment of the frame, in emission order. */
  ghost function Connections(P: seq<real>, D: seq<ParticleData>, n: nat, sqrt: real -> real, m: real): seq<Pair>
    requires Layout(P, D, n)
  {
    PairsFrom(CloseSet(P, D, n, sqrt, m), n, 0, 1)
  }

  /** Lexicographic order on pairs. */
  predicate LexLess(p: Pair, q: Pair)
  {
    p.0 < q.0 || (p.0 == q.0 && p.1 < q.1)
  }

  predicate LexSorted(s: seq<Pair>)
  {
    forall k, l :: 0 <= k < l < |s| ==> LexLess(s[k], s[l])
  }

  /** Two strictly sorted lists with the same elements are equal. */
  lemma {:induction false} LexSortedUnique(s: seq<Pair>, t: seq<Pair>)
    requires LexSorted(s) && LexSorted(t)
    requires forall p :: p in s <==> p in t
    ensures s == t
    decreases |s|
  {
    if t != [] {
      // t[0] is in s, so s is not empty either
      assert t[0] in t;
    }
    if s != [] {
      assert s[0] in s;
      assert t != [];
      assert t[0] in t;
      var k :| 0 <= k < |t| && t[k] == s[0];
      var l :| 0 <= l < |s| && s[l] == t[0];
      // t[0] is s[l], so it cannot come strictly before s[0] = t[k]
      assert k == 0;
      forall p
        ensures p in s[1..] <==> p in t[1..]
      {
        if p in s[1..] {
          var a :| 1 <= a < |s| && s[a] == p;
          assert LexLess(s[0], s[a]);
          assert p in s && p in t;
          var b :| 0 <= b < |t| && t[b] == p;
          assert b != 0 && t[1..][b - 1] == p;
        }
        if p in t[1..] {
          var b :| 1 <= b < |t| && t[b] == p;
          assert LexLess(t[0], t[b]);
          assert p in t && p in s;
          var a :| 0 <= a < |s| && s[a] == p;
          assert a != 0 && s[1..][a - 1] == p;
        }
      }
      LexSortedUnique(s[1..], t[1..]);
      assert s == [s[0]] + s[1..];
      assert t == [t[0]] + t[1..];
    }
  }

  /** Pair p is at or after position (i, j) of the scan. */
  predicate Ahead(p: Pair, i: nat, j: nat)
  {
    (p.0 == i && j <= p.1) || i < p.0
  }

  lemma {:induction false} PairsFromMembers(E: set<Pair>, n: nat, i: nat, j: nat)
    requires i < j
    ensures forall p :: p in PairsFrom(E, n, i, j) <==> p.0 < p.1 < n && Ahead(p, i, j) && p in E
    decreases n - i, n - j
  {
    if i >= n {
    } else if j >= n {
      PairsFromMembers(E, n, i + 1, i + 2);
    } else {
      PairsFromMembers(E, n, i, j + 1);
    }
  }

  /** A pair is a segment of the frame exactly when i < j < n and the moved i
      is closer than m to the unmoved j. */
  lemma ConnectionsMembers(P: seq<real>, D: seq<ParticleData>, n: nat, sqrt: real -> real, m: real, i: nat, j: nat)
    requires Layout(P, D, n)
    ensures (i, j) in Connections(P, D, n, sqrt, m) <==> i < j < n && Close(P, D, sqrt, m, i, j)
  {
    PairsFromMembers(CloseSet(P, D, n, sqrt, m), n, 0, 1);
    CloseSetMembers(P, D, n, sqrt, m, i, j);
  }

  lemma {:induction false} PairsFromSorted(E: set<Pair>, n: nat, i: nat, j: nat)
    requires i < j
    ensures LexSorted(PairsFrom(E, n, i, j))
    ensures forall k :: 0 <= k < |PairsFrom(E, n, i, j)| ==> Ahead(PairsFrom(E, n, i, j)[k], i, j)
    decreases n - i, n - j
  {
    if i >= n {
    } else if j >= n {
      PairsFromSorted(E, n, i + 1, i + 2);
    } else {
      PairsFromSorted(E, n, i, j + 1);
    }
  }

  /** Segments are emitted in strictly increasing lexicographic (i, j) order. */
  lemma ConnectionsSorted(P: seq<real>, D: seq<ParticleData>, n: nat, sqrt: real -> real, m: real)
    requires Layout(P, D, n)
    ensures LexSorted(Connections(P, D, n, sqrt, m))
  {
    PairsFromSorted(CloseSet(P, D, n, sqrt, m), n, 0, 1);
  }

  /** Number of pairs (a, b), a < b < n, whose row a comes before row i. */
  function PairsBefore(n: nat, i: nat): nat
    requires i <= n
  {
    if i == 0 then 0 else PairsBefore(n, i - 1) + (n - i)
  }

  lemma {:induction false} PairsBeforeClosedForm(n: nat, i: nat)
    requires i <= n
    ensures 2 * PairsBefore(n, i) == i * (2 * n - i - 1)
  {
    if i > 0 {
      PairsBeforeClosedForm(n, i - 1);
      assert (i - 1) * (2 * n - i) + 2 * (n - i) == i * (2 * n - i - 1);
    }
  }

  /** All n*(n-1)/2 pairs lie in rows 0 .. n-1. */
  lemma AllPairs(n: nat)
    ensures 2 * PairsBefore(n, n) == n * (n - 1)
  {
    PairsBeforeClosedForm(n, n);
  }

  lemma {:induction false} PairsBeforeMonotone(n: nat, i: nat)
    requires i <= n
    ensures PairsBefore(n, i) <= PairsBefore(n, n)
    decreases n - i
  {
    if i < n {
      PairsBeforeMonotone(n, i + 1);
    }
  }

  lemma {:induction false} PairsFromCount(E: set<Pair>, n: nat, i: nat, j: nat)
    requires i < j && i < n && j <= n
    ensures |PairsFrom(E, n, i, j)| + PairsBefore(n, i) + (j - i - 1) <= PairsBefore(n, n)
    decreases n - i, n - j
  {
    if j == n {
      if i + 1 < n {
        PairsFromCount(E, n, i + 1, i + 2);
      }
    } else {
      PairsFromCount(E, n, i, j + 1);
      PairsBeforeMonotone(n, i);
    }
  }

  /** A frame never has more segments than there are pairs: n*(n-1)/2. */
  lemma ConnectionsCount(P: seq<real>, D: seq<ParticleData>, n: nat, sqrt: real -> real, m: real)
    requires Layout(P, D, n)
    ensures 2 * |Connections(P, D, n, sqrt, m)| <= n * (n - 1)
  {
    AllPairs(n);
    if n > 0 {
      PairsFromCount(CloseSet(P, D, n, sqrt, m), n, 0, 1);
    }
  }

  /** Number of segments with an endpoint at particle k (a segment (k, k) would count twice). */
  function Degree(segs: seq<Pair>, k: nat): nat
  {
    if segs == [] then 0
    else
      var p := segs[|segs| - 1];
      Degree(segs[..|segs| - 1], k) + (if p.0 == k then 1 else 0) + (if p.1 == k then 1 else 0)
  }

  lemma DegreeAppend(segs: seq<Pair>, p: Pair, k: nat)
    ensures Degree(segs + [p], k) == Degree(segs, k) + (if p.0 == k then 1 else 0) + (if p.1 == k then 1 else 0)
  {
    assert (segs + [p])[..|segs|] == segs;
  }

  /** Sum of the degrees of particles 0 .. n-1. */
  function DegreeSum(segs: seq<Pair>, n: nat): nat
  {
    if n == 0 then 0 else DegreeSum(segs, n - 1) + Degree(segs, n - 1)
  }

  lemma {:induction false} DegreeSumAppend(segs: seq<Pair>, p: Pair, n: nat)
    ensures DegreeSum(segs + [p], n) == DegreeSum(segs, n) + (if p.0 < n then 1 else 0) + (if p.1 < n then 1 else 0)
  {
    if n > 0 {
      DegreeSumAppend(segs, p, n - 1);
      DegreeAppend(segs, p, n - 1);
    }
  }

  lemma {:induction false} DegreeSumEmpty(n: nat)
    ensures DegreeSum([], n) == 0
  {
    if n > 0 {
      DegreeSumEmpty(n - 1);
    }
  }

  /** Each segment adds one connection at each of its two ends. */
  lemma {:induction false} Handshake(segs: seq<Pair>, n: nat)
    requires forall k :: 0 <= k < |segs| ==> segs[k].0 < n && segs[k].1 < n
    ensures DegreeSum(segs, n) == 2 * |segs|
  {
    if segs != [] {
      var last := |segs| - 1;
      Handshake(segs[..last], n);
      DegreeSumAppend(segs[..last], segs[last], n);
      assert segs[..last] + [segs[last]] == segs;
    } else {
      DegreeSumEmpty(n);
    }
  }

  /** Lines of a close pair have an alpha in (0, 1]. */
  lemma AlphaInUnitInterval(sqrt: real -> real, a: Vec, b: Vec, minDistance: real)
    requires IsSqrt(sqrt) && 0.0 < minDistance && Dist(sqrt, a, b) < minDistance
    ensures 0.0 < Alpha(sqrt, a, b, minDistance) <= 1.0
  {
    QuotientBelowOne(Dist(sqrt, a, b), minDistance);
  }

  /** Two particles 100 apart with a threshold of 150 get alpha 1/3. */
  lemma AlphaAtDistanceHundred(sqrt: real -> real, a: Vec, b: Vec)
    requires IsSqrt(sqrt) && SqDist(a, b) == 100.0 * 100.0
    ensures Alpha(sqrt, a, b, 150.0) == 1.0 / 3.0
  {
    SqrtOfSquare(sqrt, 100.0);
  }
}
