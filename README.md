# Particle field frame update

This project models the per-frame simulation of a React/three.js particle
background, `src/Three.jsx`. The animated field holds up to 250 particles. Each
particle has a position triple in a flat float buffer (`particlePositions`) and
a record (`particlesData`) with its velocity and its connection count for the
current frame. Every frame (`animate`) does the following:

1. It resets every active particle's connection count to 0.
2. It visits the particles in index order. Each particle `i` in turn:
   - adds its velocity to its position;
   - negates each velocity component whose new coordinate lies outside
     `[-rHalf, rHalf]`, with `rHalf = 225`. The position itself is never clamped;
   - then tests every later particle `j > i`.
3. A pair whose Euclidean distance is below `minDistance = 150` becomes a line
   segment:
   - both connection counts go up by one;
   - the two endpoints are appended to the `positions` buffer;
   - the gray level `alpha = 1 - dist / minDistance` is appended twice as an
     RGB triple to the `colors` buffer;
   - `numConnected` is incremented.
4. Finally the line mesh's draw range is set to `2 * numConnected` vertices.

The model is imperative, like the source. Class `Animation.ParticleField`
holds the three Float32 buffers (`particlePositions`, `positions`, `colors`)
and the record array (`particlesData`) as Dafny arrays. Its methods mirror the nested
loops and the cursor writes: `Animate`, `ScanFrame` (the outer loop),
`StepParticle` (one outer iteration), `ScanRow` (the inner loop), `ScanPair`
(one inner iteration), `Connect` and the buffer pushes. Each of these methods is
proved against pure specification functions, which live in three modules:

- `Geometry`: vectors, squared distance, and an exact square root given as a
  parameter.
- `Motion`: the move, the bounce, and what repeated frames do on one axis.
- `ProximityGraph`: the distance test, the set of close pairs in scan order,
  and the degree and handshake facts.

`Animation` ties the methods to those specifications. It defines
`LineVertices` and `LineColors`, the exact prefix of the two line buffers that
a list of segments produces. It also proves the following:

- the segments of a frame are exactly `Connections`, the close pairs in
  lexicographic order (when the connection cap is off);
- everything past the cursors is untouched;
- every written color lies in `(0, 1]`;
- each connection count equals the particle's degree in the segment list;
- the counts sum to twice the number of segments.

Two details of the source carry over into the model unchanged.

- **Distances mix moved and unmoved positions.** The outer loop moves particle
  `i` just before its row of pair tests. So the distance of pair `(i, j)` is
  measured between `i` after this frame's step and `j` before it
  (`ProximityGraph.Close` uses `MovedAt` for `i` and the frame-start position
  for `j`).
- **The connection cap is dead code.** The cap test reads
  `effectController.limitConnections`, which the controller object
  (src/Three.jsx:24-28) never defines, so it is always off. The model keeps the
  test behind an explicit `limitConnections` parameter.

A reflective boundary suggests that a particle crossing a face is only
briefly outside the box and that positions stay within `[-r/2, r/2]`. The
code does otherwise, and the model follows the code:

- It only negates the velocity, so a coordinate that is outside the box and
  still outside after one more step never returns. It flips between two
  outside values forever (`Motion.TrappedOutside`).
- The start position of `y` is drawn from `[-400, 400)` (rLong = 800) while the
  bounce threshold is 225. So such particles exist from the first frame on.
- A coordinate that starts within one step of the box stays within one speed
  of it forever (`Motion.ConfinedForever`).

## Model

| member | source | states |
|---|---|---|
| Geometry.SqrtBelowIffSquareBelow | src/Three.jsx:195-197 | with an exact square root, `sqrt(s) < m` holds exactly when `s < m*m` (the distance test can be done on squares) |
| Geometry.SqrtOfSquare | src/Three.jsx:195 | the exact root of `r*r` for `r >= 0` is `r` |
| Motion.FrameIsAxisSteps | src/Three.jsx:158-175 | a frame's move and bounce act on the three axes independently, each as one `AxisStep` |
| Motion.ReflectNegatesIffOutside | src/Three.jsx:162-175 | the bounce negates a velocity component iff the new coordinate is outside `[-rHalf, rHalf]`, and never changes the speed on that axis |
| Motion.ConfinedForever | src/Three.jsx:158-175 | a coordinate inside the box, or one step from re-entering it, stays so in every later frame, keeps its speed, and is never further than that speed outside the box |
| Motion.TrappedOutside | src/Three.jsx:158-175 | a coordinate outside the box whose next step is also outside alternates between those two places forever, with velocity `v` and `-v` |
| ProximityGraph.CloseIffSquareBelow | src/Three.jsx:192-197 | pair `(i, j)` is close (distance of moved `i` to unmoved `j` below `m`) iff their squared distance is below `m*m` |
| ProximityGraph.CloseSetMembers | src/Three.jsx:184-197 | `(i, j)` is in the close-pair set iff `i < j < n` and the pair is close |
| ProximityGraph.ConnectionsMembers | src/Three.jsx:184-197 | `(i, j)` occurs in `Connections` iff `i < j < n` and the pair is close |
| ProximityGraph.ConnectionsSorted | src/Three.jsx:154-184 | `Connections` lists its pairs in strictly increasing lexicographic order, the order of the two nested loops |
| ProximityGraph.ConnectionsCount | src/Three.jsx:154-184 | there are at most `n(n-1)/2` connections |
| ProximityGraph.LexSortedUnique | src/Three.jsx:154-184 | two strictly sorted pair lists with the same members are equal, so the scan order fixes the segment list |
| ProximityGraph.AllPairs | src/Three.jsx:154-184 | the nested loops visit `n(n-1)/2` pairs |
| ProximityGraph.Handshake | src/Three.jsx:198-199 | when every segment joins particles below `n`, the degrees of particles `0..n-1` sum to twice the number of segments |
| ProximityGraph.AlphaInUnitInterval | src/Three.jsx:201 | for a close pair, `alpha = 1 - dist / minDistance` lies in `(0, 1]` |
| ProximityGraph.AlphaAtDistanceHundred | src/Three.jsx:201 | two points 100 apart get `alpha = 1/3` with `minDistance = 150` |
| Animation.CapacitySuffices | src/Three.jsx:61-64 | the line buffers (`250*250*3` floats) hold 6 floats for every pair of up to 250 particles |
| Animation.AppendSegment | src/Three.jsx:203-219 | appending a close pair that comes after the last segment keeps the list close and in order, and extends the buffer contents by its two endpoints and six alpha values |
| Animation.CloseInOrderSorted | src/Three.jsx:154-184 | segments emitted in scan order are strictly lexicographically sorted |
| Animation.CloseInOrderMembers | src/Three.jsx:184-197 | every emitted segment `(i, j)` has `i < j < n` and is a close pair |
| Animation.CompleteNextRow | src/Three.jsx:184 | once the row of `i` has been scanned to its end, every close pair before row `i+1` has been emitted |
| Animation.ScanFindsConnections | src/Three.jsx:154-221 | a sorted list of close pairs that contains every close pair is exactly `Connections` |
| Animation.LinesDrawn | src/Three.jsx:203-217 | the buffer prefix of a segment list holds, for segment `k`, the moved endpoint `i`, the unmoved endpoint `j` and six copies of its alpha at floats `6k..6k+5` |
| Animation.DrawnColorInUnitInterval | src/Three.jsx:201-217 | every color float written for a segment lies in `(0, 1]` |
| Animation.FrameLines | src/Three.jsx:203-224 | buffers equal to the segments' floats followed by the old tails are drawn, sorted, keep every float past `6 * numConnected`, and have all written colors in `(0, 1]` |
| Animation.ConnectionTotalIsDegreeSum | src/Three.jsx:198-199 | when each count equals the particle's degree, the counts sum to the degree sum |
| Animation.ParticleField.constructor | src/Three.jsx:61-94 | allocates the position buffer (250*3), the records (velocity, 0 connections) and the two line buffers (250*250*3), from given start positions and velocities |
| Animation.ParticleField.PushVertices | src/Three.jsx:203-209 | writes the current xyz of `i` then of `j` at the vertex cursor, changes nothing else, and advances the cursor by 6 |
| Animation.ParticleField.PushColors | src/Three.jsx:211-217 | writes `alpha` six times at the color cursor, changes nothing else, and advances the cursor by 6 |
| Animation.ParticleField.ResetConnections | src/Three.jsx:152 | every active record gets 0 connections and keeps its velocity; inactive records are unchanged |
| Animation.ParticleField.AdvanceParticle | src/Three.jsx:156-175 | particle `i` moves by its velocity, its velocity becomes the bounce of that velocity at the new position, and no other particle or record changes |
| Animation.ParticleField.Distance | src/Three.jsx:192-195 | returns the Euclidean distance between the current positions of `i` and `j` |
| Animation.ParticleField.Connect | src/Three.jsx:198-219 | for a close pair, increments both counts (each count stays the degree), appends the segment's floats at both cursors, and adds the pair to the segment list |
| Animation.ParticleField.ScanPair | src/Three.jsx:185-220 | appends nothing or exactly `(i, j)`, and appends `(i, j)` iff `j` is not saturated under the cap (its degree so far is below `MaxConnections`) and the pair is close; keeps the buffers, counts and order invariants; with the cap off, every close pair up to `(i, j)` is emitted |
| Animation.ParticleField.ScanRow | src/Three.jsx:184-221 | runs the pair tests of row `i` in order, only appending segments that start at `i`, and keeps the same invariants; with the cap off, every close pair of rows up to `i` is emitted |
| Animation.ParticleField.StepParticle | src/Three.jsx:155-221 | moves and bounces particle `i`; when `i` is saturated under the cap nothing is appended, otherwise its row is scanned, only appending segments that start at `i` |
| Animation.RowExtendsStep | src/Three.jsx:184-221 | a row that has appended segments from `i` and then appends nothing or `(i, j)` still only extends the list by segments from `i` |
| Animation.CompleteStep | src/Three.jsx:192-219 | when `(i, j)` is appended exactly if it is close, every close pair up to and including `(i, j)` is emitted |
| Animation.ParticleField.ScanFrame | src/Three.jsx:154-222 | every active particle took its step and bounce; the buffers hold exactly the emitted segments; counts are degrees; with the cap off, no close pair is missed |
| Animation.ParticleField.Animate | src/Three.jsx:147-224 | a whole frame: moved positions, bounced velocities, inactive particles untouched; the segment list is sorted and drawn into both buffers, with nothing past `6 * numConnected` changed; the draw range is `2 * numConnected`; with the cap off the segments are exactly `Connections` of the frame-start state; counts are degrees and sum to `2 * numConnected`; all written colors lie in `(0, 1]` |

## Left out

- Scene setup, camera, materials, renderer, window resize, mouse tracking and
  `render`. These are three.js and DOM calls with no state the simulation reads.
- `requestAnimationFrame`: the model is one frame; repeated frames are calls of
  `Animate` in sequence.
- `needsUpdate` flags and `setDrawRange` are GPU upload hints. The draw range
  is returned as `drawCount`.
- `Math.random` start positions and velocities are inputs of the constructor.
  Their ranges (x, z in `[-225, 225)`, y in `[-400, 400)`, velocities in
  `[-1, 1)`) are not required of them.
- Float32 storage and rounding are not modelled. Buffers hold exact reals, so
  the proved facts are about exact arithmetic.
- `Math.sqrt` is a parameter `sqrt`. `Animate` requires it to be the exact
  square root (`Geometry.IsSqrt`); rounding of the root is not modelled.
- `particleCount` is fixed at construction. The source's `let` binding is
  never reassigned.
- `limitConnections` is a method parameter because the source never defines
  it. `MaxConnections` is 10 as in the controller.
- Animation.ParticleField.Animate: with `limitConnections` on, the contract
  states soundness only. Every segment is a close pair, the list is sorted, and
  drawn and counted. It does not state which close pairs the cap suppresses.
- Animation.ParticleField.ScanFrame: with `limitConnections` on, the same
  soundness-only contract as `Animate`.
- Animation.ParticleField.ScanRow: with `limitConnections` on, states that the
  row appends only close segments from `i`, in order, but not which of them the
  cap suppresses; that decision is stated pair by pair on `ScanPair`.
- Animation.ParticleField.StepParticle: with `limitConnections` on and `i`
  not saturated, states what `ScanRow` states and no more.
