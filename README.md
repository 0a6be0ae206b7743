# GPU adventures: a verified model of the demo cores

This project models, in Dafny, the computational core of a set of Babylon.js and WebGPU demos.

- **2-D boids** (`boids/js/main.js`): a solid-particle flock in a wrapping rectangle. Each particle feels repulsion from its flock, alignment and cohesion with the flockmates it can see, and a collision push found by casting rays at fanned-out angles. Force and velocity are clamped, and the position wraps around the world.
- **3-D boids** (`boids-3d/js/main.js`):
  - the `Physics` force terms, `Utils.Vector3.ClampLength` and the Fibonacci-sphere probe table `Utils.Vector3.Probes`;
  - flock typing and visibility;
  - `IsColliding` and `Navigate` against a scene with a front-face predicate;
  - `UpdateBoid`, which sums all the forces, caps them and integrates.
- **Colours**: `HexColor` and `Utils.Color.Hex`, including ECMAScript `parseInt(…, 16)` and `substring`.
- **Marching cubes** (`marching-cubes/js/main.js`):
  - the `EDGE_CASES` and `TRIANGLE_CASES` tables and `Utils.Number.Range`;
  - the compute grid and the WGSL kernel `main`: corner sampling, the cube case, edge interpolation and the triangle copy into each voxel's 15-vertex block;
  - the 512 terrain chunk offsets.
- **Noise shaders** (the WGSL sources bundled in `noise-dist/assets/`): `MIX__hermite` and `MIX__mix_hermite`, and the value and Perlin noise functions in one to four dimensions.
- **Star shader loader** (`star/src/shader/`):
  - `index.ts` classifies shader files by the two file-name patterns, builds a table of materials with their vertex and fragment files (first file wins), drops incomplete materials and stores every source under `<material><Type>Shader`. The table is a plain object literal, so file names that match a property inherited from `Object.prototype` (such as `constructor` or `__proto__`) behave as JavaScript makes them behave, and the model follows them;
  - `preprocess.ts` expands `#include<path>` directives recursively. The model resolves the directives one after another, and in that sequential model each path is included at most once; the source resolves sibling directives concurrently, which is weaker (see "Left out").

Real arithmetic stands for JavaScript numbers and WGSL `f32`. Host functions are parameters of the model:

- square root, `sin`, `cos`, `acos`;
- ray picking;
- `Rotation.FromDirection`;
- the random functions of the noise shaders;
- the shader density and interpolation;
- the shader file loaders.

Each host function comes with only the laws the model needs. For example, `IsSqrt` says `sqrt` returns the non-negative root. Some of the source's behaviours depend on IEEE specials: `Infinity` in the 3-D repulsion clamp, and `NaN` in 2-D repulsion and `parseInt`. These are modelled explicitly.

The modules follow the demos: `Vectors`, `HexColor`, `Boids2D`, `Boids2DUpdate`, `Boids3D`, `Boids3DNavigation`, `Boids3DFlock`, `MarchingCubesTables`, `MarchingCubes`, `Mix`, `ValueNoise`, `PerlinNoise`, `ShaderRegistry`, `ShaderPreprocess`, and `Wrappers` (one `Option` type). State that the source mutates lives in classes:

- Babylon `Vector3`s updated in place;
- the particles of the 2-D system;
- the boid arrays of the 3-D flock;
- the material table and the shader store;
- the include context.

Kernel buffers are `array`s. Every method is proved against a specification function, and the properties are lemmas about those functions.

## Model

| member | source | states |
|---|---|---|
| Boids3D.AxisPushSpec | boids-3d/js/main.js:25-34 | the push on one axis is zero exactly inside `[lo, hi]`, and otherwise `bound - c`, pointing back inside |
| Boids3D.SanitizePositionSpec | boids-3d/js/main.js:25-34 | the boundary force is zero exactly when the boid is inside the world box; each axis outside gets `200 * (bound - coordinate)` with the sign that points back in |
| Boids3D.WeightedNormal | boids-3d/js/main.js:41-44 | a normalized vector scaled by a positive weight has exactly that length and the original direction, or length 0 for a zero vector |
| Boids3D.AttractionSpec | boids-3d/js/main.js:41-44 | attraction has length 50 and points from the boid to the attraction point |
| Boids3D.RepulsionSpec | boids-3d/js/main.js:51-55 | repulsion is at most 500; for distinct positions its length is `clamp(40 / d^2, 0, 500)` away from the other boid; for equal positions (the `Infinity` clamp, then normalizing zero) it is the zero vector |
| Boids3D.CohesionSpec | boids-3d/js/main.js:62-65 | cohesion has length `8 * distance` to the flock centre, and going `1/8` of it from the boid reaches the centre |
| Boids3D.AlignmentSpec | boids-3d/js/main.js:72-74 | when the flock's mean heading differs from the boid's, alignment has length 8 along `mean - heading` |
| Boids3D.AlignmentOfSame | boids-3d/js/main.js:72-74 | alignment is zero when the heading already equals the target |
| Boids3D.AvoidCollisionSpec | boids-3d/js/main.js:81-83 | when the free probe differs from the heading, collision steering has length 200 along `probe - heading` |
| Boids3D.AvoidCollisionOfSame | boids-3d/js/main.js:81-83 | collision steering is zero when the free probe is the heading |
| Boids3D.FrontFacingSwap | boids-3d/js/main.js:92-95 | reversing a triangle's winding negates the facing test, so a front-facing triangle stops facing the ray |
| Boids3D.ClampLengthSpec | boids-3d/js/main.js:106-110 | an in-band vector is returned unchanged; a too-short one gets length `min` and a too-long one length `max`, each in its own direction; a zero vector stays at length 0 |
| Boids3D.ClampLengthInBand | boids-3d/js/main.js:106-110 | any clamped vector of nonzero length has length in `[min, max]` |
| Boids3D.TypePeriodic | boids-3d/js/main.js:151-153 | the flock type repeats with period 6; it is `A` exactly for `index % 6 < 3` and `C` exactly for `index % 6 == 5` |
| Boids3D.CoincidentIsVisible | boids-3d/js/main.js:161-165 | a boid at the viewer's own position counts as visible |
| Boids3DNavigation.ProbeTable | boids-3d/js/main.js:112-126 | the loop builds 16 probes, probe `i` at inclination `acos(1 - 2i/16)` and azimuth `pi (1 + sqrt 5) i` |
| Boids3DNavigation.ProbeHeight | boids-3d/js/main.js:116-123 | probe `i` has height `z = 1 - i/8` |
| Boids3DNavigation.FirstProbe | boids-3d/js/main.js:116-123 | probe 0 is `(0, 0, 1)`, straight ahead |
| Boids3DNavigation.ProbeIsUnit | boids-3d/js/main.js:116-125 | every probe is a unit vector |
| Boids3DNavigation.Probes | boids-3d/js/main.js:132-142 | mapping the table into the heading's frame yields one probe per table entry |
| Boids3DNavigation.NormalizeOrthogonal | boids-3d/js/main.js:134-135 | a vector orthogonal to the heading stays orthogonal once normalized, so the right and up axes are |
| Boids3DNavigation.OrientAlongHeading | boids-3d/js/main.js:132-142 | right and up are orthogonal to the heading, and an oriented probe's component along the heading is its table height times `|forward|^2` |
| Boids3DNavigation.ProbesOrder | boids-3d/js/main.js:112-142 | oriented probe `i` has `dot(direction, probe) = (1 - i/8) |direction|^2`, so the probes run from straight ahead to nearly behind |
| Boids3DNavigation.ProbesStartAhead | boids-3d/js/main.js:112-142 | the first oriented probe is the heading itself |
| Boids3DNavigation.BackFaceNeverBlocks | boids-3d/js/main.js:368-377 | adding a triangle that faces away from the ray never changes whether the ray hits |
| Boids3DNavigation.TwinBlocksOnce | boids-3d/js/main.js:370-375 | a triangle and its reverse-wound twin can never both pass the pick predicate |
| Boids3DNavigation.FirstClear | boids-3d/js/main.js:388-399 | the index returned is a clear probe, or the end; every probe before it is blocked |
| Boids3DNavigation.SteerTargetSpec | boids-3d/js/main.js:386-402 | the steering target is a clear probe preceded only by blocked ones, or the reversed heading when every probe is blocked |
| Boids3DNavigation.Navigate | boids-3d/js/main.js:386-402 | the loop returns the steering target of `SteerTargetSpec` |
| Boids3DFlock.BoidSystem.SumRepulsion | boids-3d/js/main.js:449-452 | the loop sums the repulsion of every other boid |
| Boids3DFlock.BoidSystem.GatherFlock | boids-3d/js/main.js:458-466 | the loop counts the visible boids of the same type and sums their positions and headings |
| Boids3DFlock.BoidSystem.ComputeForce | boids-3d/js/main.js:444-485 | the accumulated and capped force equals the specification `Force` |
| Boids3DFlock.BoidSystem.ComputeVelocity | boids-3d/js/main.js:487-488 | the new velocity is the force applied over `deltaTime`, clamped to the speed band |
| Boids3DFlock.BoidSystem.UpdateBoid | boids-3d/js/main.js:440-492 | only boid `b` changes: it gets the new velocity, the rotation facing it and the position advanced by `velocity * deltaTime` |
| Boids3DFlock.CapForceSpec | boids-3d/js/main.js:483-485 | the capped force is at most 500; a force within the cap is kept; a longer one keeps its direction at length 500 |
| Boids3DFlock.ForceBounded | boids-3d/js/main.js:444-485 | the total force on a boid never exceeds `force.max` |
| Boids3DFlock.SpeedInBand | boids-3d/js/main.js:487-488 | after a frame a moving boid flies between speeds 12 and 16 |
| Boids3DFlock.FlockSizeBound | boids-3d/js/main.js:458-466 | a boid's flock never counts the boid itself: at most `n - 1` of the first `n` boids |
| Boids3DFlock.NoFlockmates | boids-3d/js/main.js:458-474 | without visible same-type boids the flock is empty, so there is no cohesion or alignment |
| Boids3DFlock.FlockmateExists | boids-3d/js/main.js:458-466 | a nonempty flock contains a visible same-type boid |
| Boids3DFlock.IsolatedBoidHasNoFlock | boids-3d/js/main.js:458-466 | a boid whose same-type boids are all farther than the flock range (12) has an empty flock: the loop counts only boids within range |
| Boids2D.ClampLengthInPlace | boids/js/main.js:93-98 | the vector is left holding `ClampedLength` of its old value |
| Boids2D.ScaleToLength | boids/js/main.js:96-97 | `scaleInPlace(target / len)` gives length `target` in the same direction |
| Boids2D.ClampedLengthSpec | boids/js/main.js:93-98 | a vector shorter than `1e-5` is untouched; any other gets its length clamped into `[min, max]`, in its own direction; an in-band vector is unchanged |
| Boids2D.ClampedLengthAtMost | boids/js/main.js:93-98 | whatever the input, the result is never longer than `max` |
| Boids2D.SanitizePosition | boids/js/main.js:105-111 | the position becomes its wrapped value |
| Boids2D.WrapAxisSpec | boids/js/main.js:106-109 | inside `[lo, hi]` nothing moves; within one width outside, the coordinate comes back inside; the shift is 0 or plus or minus the width |
| Boids2D.WrappedInside | boids/js/main.js:105-111 | a position less than one width outside the rectangle is wrapped back inside it, and `z` is untouched |
| Boids2D.WorldBoundaryNonEmpty | boids/js/main.js:79-84 | the world rectangle has positive width and height for every aspect ratio |
| Boids2D.CoincidentIsVisible | boids/js/main.js:119-128 | a particle at the viewer's own position counts as visible |
| Boids2D.RepulsionNaNWhenCoincident | boids/js/main.js:135-142 | as written, two coincident particles repel each other with a NaN vector |
| Boids2D.RepulsionAgrees | boids/js/main.js:135-142 | away from coincidence the corrected repulsion equals the written one |
| Boids2D.InverseSquarePositive | boids/js/main.js:141 | the factor `1 / (len * len)` is positive |
| Boids2D.RepulsionForceSpec | boids/js/main.js:135-142 | within the detection distance, repulsion has length `1 / len^2` and points away from the other particle |
| Boids2D.RepulsionForceVanishes | boids/js/main.js:139 | beyond the detection distance 5 there is no repulsion |
| Boids2D.RepulsionForceCoincident | boids/js/main.js:135-142 | corrected, coincident particles exert no repulsion |
| Boids2D.QueryOrder | boids/js/main.js:153-157 | the query order is `1, -1, 2, -2, …, n, -n`: entries `2k` and `2k + 1` are `k + 1` and `-(k + 1)` |
| Boids2D.QueriedIndices | boids/js/main.js:153-157 | the loop builds exactly that order |
| Boids2D.FirstOpen | boids/js/main.js:159-172 | the index returned is an open query direction, or the end; every query before it is blocked |
| Boids2D.SearchQueries | boids/js/main.js:159-174 | the query loop returns the avoidance direction of the first open query, or zero |
| Boids2D.SearchAvoidCollision | boids/js/main.js:149-175 | the search returns the avoidance direction for the query order `1, -1, …, 4, -4` |
| Boids2D.AvoidDirectionSpec | boids/js/main.js:159-174 | zero when every query is blocked; otherwise a unit vector from the heading toward the first open query direction, unless the two coincide |
| Boids2DUpdate.Particle.Integrate | boids/js/main.js:414-423 | acceleration, velocity, position and rotation become those of `Advance`: clamp the force, integrate, clamp the velocity, integrate, wrap, face the velocity |
| Boids2DUpdate.ParticleSystem.GatherNeighbours | boids/js/main.js:364-381 | the neighbour loop computes `Neighbours`, with the corrected repulsion (`RepulsionSumAgrees` relates it to the written one): repulsion from the same flock, and count, headings and positions of the visible flockmates |
| Boids2DUpdate.ParticleSystem.ComputeForce | boids/js/main.js:383-412 | the force before its clamp equals the specification `Force`, built on the corrected repulsion |
| Boids2DUpdate.ParticleSystem.AddFlockTerms | boids/js/main.js:387-401 | the flock branch adds alignment `* 1` and cohesion `* 5` when the flock is nonempty |
| Boids2DUpdate.ParticleSystem.AddCollisionTerm | boids/js/main.js:403-412 | the collision branch adds the avoidance direction times `200 / distance^2` when the heading ray hits |
| Boids2DUpdate.ParticleSystem.UpdateParticle | boids/js/main.js:361-424 | particle `k` takes the state of `Step` (corrected repulsion; `StepAgrees` gives the written outcome), and every other particle is unchanged |
| Boids2DUpdate.AccelerationBounded | boids/js/main.js:414-415 | for the corrected step, the acceleration never exceeds `force.max` (30); as written this holds when no flockmate coincides with the particle (`StepAgrees`) |
| Boids2DUpdate.SpeedInBand | boids/js/main.js:417-418 | for the corrected step, a particle is afterwards (nearly) at rest or flies between speeds 4 and 10; as written this holds when no flockmate coincides with it (`StepAgrees`) |
| Boids2DUpdate.StaysInWorld | boids/js/main.js:420-421 | a particle inside the world that moves less than one world width per frame stays inside |
| Boids2DUpdate.NeighbourhoodBound | boids/js/main.js:370-381 | a particle's flock never counts the particle itself |
| Boids2DUpdate.FlockHasVisibleMate | boids/js/main.js:370-381 | a nonempty flock contains a visible particle of the same flock (`i % 3`) |
| Boids2DUpdate.LoneParticleFeelsNothing | boids/js/main.js:370-381 | with no particle of its flock, a particle gets no repulsion and an empty flock |
| Boids2DUpdate.IsolatedParticleAlone | boids/js/main.js:364-381 | a particle whose flockmates are all at least the view distance (8) away gets an empty flock and, as 8 exceeds the repulsion distance 5, no repulsion |
| Boids2DUpdate.RepulsionSumAgrees | boids/js/main.js:135-142 | the neighbour loop's repulsion sum as written is NaN exactly when a flockmate sits at the particle's position, and is the corrected sum otherwise |
| Boids2DUpdate.StepAgrees | boids/js/main.js:361-424 | the written update turns the particle into NaN exactly when a flockmate coincides with it, since `clampLengthInPlace` (lines 93-98) and `sanitizePosition` leave NaN alone; otherwise it is the corrected `Step` |
| Boids2DUpdate.CoincidentMateMakesNaN | boids/js/main.js:135-142 | two particles of one flock at one position: as written the update of either is NaN |
| HexColor.Substring | boids/js/main.js:15-17 | `substring(start, end)` never yields more than `end - start` characters |
| HexColor.ParsePair | boids/js/main.js:15-17 | two hex digits parse to `16 d0 + d1`, in `0..255` |
| HexColor.ChannelOfPair | boids/js/main.js:15-17 | a two-digit pair gives the channel `value / 255`, in `[0, 1]` |
| HexColor.HexOfDigits | boids/js/main.js:14-19 | six hex digits give three channels `pair / 255`, each in `[0, 1]` |
| HexColor.Uniform | boids-3d/js/main.js:196-201 | six copies of a digit give the grey `17 d / 255`: `ffffff` is white and `000000` black |
| HexColor.RoundTrip | boids/js/main.js:14-19 | writing three bytes as `rrggbb` and parsing them back gives `byte / 255` per channel |
| HexColor.PairRoundTrip | boids/js/main.js:15 | one byte written as two digits parses back to itself |
| HexColor.ChannelBounds | boids/js/main.js:15-17 | a string of at most two characters that parses to a number gives a channel in `[-15/255, 1]`; `-f` is the lowest |
| HexColor.HexBounds | boids-3d/js/main.js:196-201 | every channel of every colour string that is a number lies in `[-15/255, 1]` |
| HexColor.NotANumber | boids/js/main.js:15-17 | a pair starting with anything but white space, a sign or a hex digit gives NaN |
| HexColor.ShortInput | boids/js/main.js:14-19 | a colour string of at most four characters has a NaN blue channel |
| MarchingCubes.Range | marching-cubes/js/main.js:320-331 | `Range` returns `lower, lower + 1, …, upper - 1`, with one argument read as the upper bound, and empty when `upper <= lower` |
| MarchingCubes.GridTotal | marching-cubes/js/main.js:358-365 | the grid's total is the product of the workgroup size total and the workgroup count total |
| MarchingCubes.DemoGrid | marching-cubes/js/main.js:338-365 | the grid is `8 x 4 x 8 = 256` voxels and the vertex buffer holds 3840 vertices |
| MarchingCubes.DispatchCoversGrid | marching-cubes/js/main.js:740-745 | `dispatchWhenReady(2, 1, 2)` with workgroups of `4 x 4 x 4` puts every invocation in the grid, and reaches every grid point from exactly one workgroup and local id |
| MarchingCubes.IndexOffsetInBuffer | marching-cubes/js/main.js:590-594 | each invocation's 15-vertex block lies inside the buffer |
| MarchingCubes.IndexOffsetsDisjoint | marching-cubes/js/main.js:590-594 | distinct invocations write disjoint blocks |
| MarchingCubes.LinearIndexInjective | marching-cubes/js/main.js:590-594 | `x + 8y + 32z` determines the invocation in the grid |
| MarchingCubes.EdgesJoinNeighbours | marching-cubes/js/main.js:479-503 | every edge joins two cube corners that differ in exactly one axis |
| MarchingCubes.CornerDensities | marching-cubes/js/main.js:559-561 | the densities at the eight corners, in corner order |
| MarchingCubes.SampleCorners | marching-cubes/js/main.js:556-561 | the first loop fills `cube_densities` with those densities |
| MarchingCubes.CaseBitsStep | marching-cubes/js/main.js:563-565 | one iteration ORs in `inside << i` |
| MarchingCubes.CubeCaseUnrolled | marching-cubes/js/main.js:563-565 | the eight iterations give the OR of all corner bits |
| MarchingCubes.CubeCaseBits | marching-cubes/js/main.js:563-565 | `cube_case` is at most `0xff`, and bit `i` is set exactly when corner `i` has positive density |
| MarchingCubes.CubeIndex | marching-cubes/js/main.js:563-565 | the case as a number lies in `0..255` |
| MarchingCubes.CubeCaseValue | marching-cubes/js/main.js:563-565 | the `u32` the loop builds is the sum of `2^i` over the corners inside |
| MarchingCubes.ComputeCubeCase | marching-cubes/js/main.js:563-565 | the second loop computes that case number |
| MarchingCubes.EmptyOrFull | marching-cubes/js/main.js:567-571 | the case is 0 exactly when no corner is inside, and 255 exactly when all are |
| MarchingCubes.InterpolateEdges | marching-cubes/js/main.js:573-587 | the edge loop interpolates a vertex exactly on the edges marked in `edge_case` |
| MarchingCubes.SlotsUsed | marching-cubes/js/main.js:596-598 | the triangle loop copies at most 5 triangles, stopping at the first one that opens with a negative index |
| MarchingCubes.FlatIndex | marching-cubes/js/main.js:597 | `triangle_cases[c * 16 + i]` is entry `i` of row `c` |
| MarchingCubes.LoadedRow | marching-cubes/js/main.js:664-665 | once the tables are loaded, the buffers hold `EDGE_CASES[c]` and row `c` of `TRIANGLE_CASES` |
| MarchingCubes.SlotsUsedCount | marching-cubes/js/main.js:596-598 | read from a buffer holding a row, the loop's stopping rule yields that row's triangle count |
| MarchingCubes.LoadedRowsUseMarkedEdges | marching-cubes/js/main.js:574-604 | every index the triangle loop reads is an edge marked in `edge_cases[c]` |
| MarchingCubes.LoadedRowCount | marching-cubes/js/main.js:596-604 | with the tables loaded, the loop copies `TriangleCount` triangles of row `c`, each naming marked edges |
| MarchingCubes.VoxelOutputOnTables | marching-cubes/js/main.js:567-615 | empty and full voxels and slots past the triangles keep their old value; each other slot `k` gets the vertex on edge `TRIANGLE_CASES[16c + k]`, which `EDGE_CASES[c]` marks |
| MarchingCubes.EmitTriangles | marching-cubes/js/main.js:596-615 | the loop copies the named edge vertices into the first `3 * SlotsUsed` slots of the block and leaves every other buffer entry unchanged |
| MarchingCubes.MeshVoxel | marching-cubes/js/main.js:573-615 | for a voxel that is neither empty nor full, the buffer afterwards is `VoxelOutput` slot by slot |
| MarchingCubes.KernelMain | marching-cubes/js/main.js:550-616 | one kernel invocation leaves the buffer equal to `KernelOutput` slot by slot |
| MarchingCubes.ChunkInWorld | marching-cubes/js/main.js:795-803 | every voxel of every chunk lies in `[0, 64) x [0, 32) x [0, 64)` |
| MarchingCubes.ChunkDigits | marching-cubes/js/main.js:800-802 | the offset formula recovers the base-8 digits of the chunk number |
| MarchingCubes.CellInChunk | marching-cubes/js/main.js:795-803 | every cell of the box is a voxel of some chunk |
| MarchingCubes.ChunkUnique | marching-cubes/js/main.js:795-803 | a cell belongs to only one chunk, at only one local cell |
| MarchingCubes.ChunkOffsetsDistinct | marching-cubes/js/main.js:795-803 | the 512 chunk offsets are pairwise distinct |
| MarchingCubesTables.TriangleCase | marching-cubes/js/main.js:46-303 | flat entry `i` is entry `i % 16` of row `i / 16` |
| MarchingCubesTables.BitIsShift | marching-cubes/js/main.js:579 | the mask bit of an edge is `1u << e` |
| MarchingCubesTables.TriangleCount | marching-cubes/js/main.js:596-598 | a row emits at most 5 triangles |
| MarchingCubesTables.TriangleCountStops | marching-cubes/js/main.js:596-598 | a slot opens with a non-negative entry exactly while it is below the count |
| MarchingCubesTables.EmittedSlot | marching-cubes/js/main.js:46-303 | the three entries of an emitted slot are edges marked in the mask |
| MarchingCubesTables.EmittedEntry | marching-cubes/js/main.js:46-303 | every entry before the row's first `-1` is a marked edge |
| MarchingCubesTables.PaddingSlot | marching-cubes/js/main.js:46-303 | every slot from the count on is `-1, -1, -1`, and so is the final entry |
| MarchingCubesTables.TrianglesUseMarkedEdges | marching-cubes/js/main.js:27-303 | every row of `TRIANGLE_CASES` consists of edges marked in its `EDGE_CASES` entry, padded with `-1` |
| MarchingCubesTables.EdgeCaseComplement | marching-cubes/js/main.js:27-44 | `EDGE_CASES` is below `2^12` and unchanged when inside and outside are swapped (`c` and `255 - c`) |
| MarchingCubesTables.EmptyAndFullCases | marching-cubes/js/main.js:27-303 | cases 0 and 255 cross no edge and emit no triangle |
| Mix.Fract | noise-dist/assets/value-ad1523d4-c8cd8e84.js:7-8 | `fract` lies in `[0, 1)` |
| Mix.LatticePoint | noise-dist/assets/value-ad1523d4-c8cd8e84.js:7-8 | at an integer, `floor` is that integer and `fract` is 0 |
| Mix.HermiteEnds | noise-dist/assets/mix-73c782c0-63ae1594.js:1-3 | `hermite(0) = 0`, `hermite(1) = 1`, `hermite(1/2) = 1/2` |
| Mix.HermiteSymmetric | noise-dist/assets/mix-73c782c0-63ae1594.js:1-3 | `hermite(1 - t) = 1 - hermite(t)` |
| Mix.HermiteInUnit | noise-dist/assets/mix-73c782c0-63ae1594.js:1-3 | `hermite` maps `[0, 1]` into `[0, 1]` |
| Mix.HermiteMonotone | noise-dist/assets/mix-73c782c0-63ae1594.js:1-3 | `hermite` is non-decreasing on `[0, 1]` |
| Mix.LerpEnds | noise-dist/assets/mix-73c782c0-63ae1594.js:5-7 | `mix(a, b, 0) = a` and `mix(a, b, 1) = b` |
| Mix.LerpBetween | noise-dist/assets/mix-73c782c0-63ae1594.js:5-7 | for a weight in `[0, 1]`, `mix(a, b, s)` lies between `a` and `b` |
| Mix.MixHermiteEnds | noise-dist/assets/mix-73c782c0-63ae1594.js:5-7 | `mix_hermite` gives `a` at `t = 0` and `b` at `t = 1` |
| Mix.MixHermiteBetween | noise-dist/assets/mix-73c782c0-63ae1594.js:5-7 | for `t` in `[0, 1]`, `mix_hermite(a, b, t)` lies between `a` and `b` |
| Mix.MixHermiteWithin | noise-dist/assets/mix-73c782c0-63ae1594.js:5-7 | mixing two values of `[lo, hi]` stays in `[lo, hi]` |
| Mix.MixHermite2 | noise-dist/assets/mix-73c782c0-63ae1594.js:9-11 | the 2-D variant applies the scalar `mix_hermite` to each component with a shared weight |
| Mix.MixHermite3 | noise-dist/assets/mix-73c782c0-63ae1594.js:13-15 | the same for three components |
| Mix.MixHermite4 | noise-dist/assets/mix-73c782c0-63ae1594.js:17-19 | the same for four components |
| Mix.MixHermiteVectorEnds | noise-dist/assets/mix-73c782c0-63ae1594.js:9-19 | the 2-D and 4-D variants return `a` at `t = 0` and `b` at `t = 1` |
| Mix.MixHermite3Ends | noise-dist/assets/mix-73c782c0-63ae1594.js:13-15 | the 3-D variant returns `a` at `t = 0` and `b` at `t = 1` |
| ValueNoise.Noise1AtLattice | noise-dist/assets/value-ad1523d4-c8cd8e84.js:6-15 | at an integer, 1-D value noise is the random value there |
| ValueNoise.Noise1Continuous | noise-dist/assets/value-ad1523d4-c8cd8e84.js:6-15 | a cell's formula at its far end equals the noise at the next integer, so the noise is continuous |
| ValueNoise.Noise1Between | noise-dist/assets/value-ad1523d4-c8cd8e84.js:6-15 | the noise lies between the random values at the two enclosing integers |
| ValueNoise.Noise1InUnit | noise-dist/assets/value-ad1523d4-c8cd8e84.js:6-15 | with random values in `[0, 1]` the noise is in `[0, 1]` |
| ValueNoise.Noise2AtLattice | noise-dist/assets/value-ad1523d4-c8cd8e84.js:17-31 | at a lattice point, 2-D noise is the random value there |
| ValueNoise.Noise2OnEdge | noise-dist/assets/value-ad1523d4-c8cd8e84.js:26-30 | where `fract(y) = 0`, 2-D noise is the 1-D blend of the two lower corners |
| ValueNoise.Noise2InUnit | noise-dist/assets/value-ad1523d4-c8cd8e84.js:17-31 | with random values in `[0, 1]`, 2-D noise is in `[0, 1]` |
| ValueNoise.Noise3AtLattice | noise-dist/assets/value-ad1523d4-c8cd8e84.js:33-59 | at a lattice point, 3-D noise is the random value there |
| ValueNoise.Noise3InUnit | noise-dist/assets/value-ad1523d4-c8cd8e84.js:33-59 | with random values in `[0, 1]`, 3-D noise is in `[0, 1]` |
| ValueNoise.Noise4AtLattice | noise-dist/assets/value-ad1523d4-c8cd8e84.js:61-111 | at a lattice point, 4-D noise is the random value there |
| ValueNoise.Noise4InUnit | noise-dist/assets/value-ad1523d4-c8cd8e84.js:61-111 | with random values in `[0, 1]`, 4-D noise is in `[0, 1]` |
| PerlinNoise.GradientRange | noise-dist/assets/perlin-2ba572b5-f82fc4cc.js:10-11 | a random value in `[0, 1]` gives a gradient in `[-1, 1]` |
| PerlinNoise.Noise1AtLattice | noise-dist/assets/perlin-2ba572b5-f82fc4cc.js:6-18 | at every integer, 1-D Perlin noise is exactly 0.5 |
| PerlinNoise.Noise1Continuous | noise-dist/assets/perlin-2ba572b5-f82fc4cc.js:6-18 | a cell's formula at its far end is also 0.5, the value at the next integer |
| PerlinNoise.Noise1InUnit | noise-dist/assets/perlin-2ba572b5-f82fc4cc.js:6-18 | with random values in `[0, 1]`, 1-D Perlin noise is in `[0, 1]` |
| PerlinNoise.CellInUnit | noise-dist/assets/perlin-2ba572b5-f82fc4cc.js:6-18 | one cell's value is in `[0, 1]` when its two random values and the offset are |
| PerlinNoise.CellValuesInUnit | noise-dist/assets/perlin-2ba572b5-f82fc4cc.js:13-17 | the blend of two gradients in `[-1, 1]` at an offset in `[0, 1]` is in `[0, 1]` |
| PerlinNoise.OutputInUnit | noise-dist/assets/perlin-2ba572b5-f82fc4cc.js:13 | `0.5 + 0.5 x` maps `[-1, 1]` into `[0, 1]` |
| PerlinNoise.Noise2AtLattice | noise-dist/assets/perlin-2ba572b5-f82fc4cc.js:20-42 | at every lattice point, 2-D Perlin noise is 0.5 |
| PerlinNoise.Noise3AtLattice | noise-dist/assets/perlin-2ba572b5-f82fc4cc.js:44-86 | at every lattice point, 3-D Perlin noise is 0.5 |
| PerlinNoise.Noise4AtLattice | noise-dist/assets/perlin-2ba572b5-f82fc4cc.js:88-170 | at every lattice point, 4-D Perlin noise is 0.5 |
| ShaderRegistry.MatchMaterialSound | star/src/shader/index.ts:5-6 | a match splits the path into a directory prefix (empty or ending in `/`), a `[\w.]+` name and the extension |
| ShaderRegistry.MatchMaterialComplete | star/src/shader/index.ts:5-6 | every such path matches and captures exactly that name |
| ShaderRegistry.ExtensionsExclusive | star/src/shader/index.ts:5-6 | no path ends in both `.vert.wgsl` and `.frag.wgsl` |
| ShaderRegistry.MatchNeedsExtension | star/src/shader/index.ts:5-6 | a path that matches ends in that pattern's extension |
| ShaderRegistry.EarthIsAVertexShader | star/src/shader/index.ts:133-136 | `/res/shader/material/planet/earth.vert.wgsl` is a vertex shader for `earth`, and not a fragment shader |
| ShaderRegistry.ClassifyMatches | star/src/shader/index.ts:75-106 | a path is classified as kind `t` of material `n` exactly when the pattern of kind `t` captures `n` |
| ShaderRegistry.ClassifiedNonEmpty | star/src/shader/index.ts:75-91 | a classified path is longer than its extension, so it is never empty |
| ShaderRegistry.WithSlot | star/src/shader/index.ts:89 | setting one slot leaves the other untouched |
| ShaderRegistry.FirstFileClassified | star/src/shader/index.ts:74-106 | the first file of a kind for a material is one of the files, classified as that kind of that material |
| ShaderRegistry.FirstFileAppend | star/src/shader/index.ts:86-103 | a later file changes the first file of a kind only when there was none |
| ShaderRegistry.ConstructWellFormed | star/src/shader/index.ts:71-110 | the built table lists each key once and never holds an empty slot |
| ShaderRegistry.AddClassifiedWellFormed | star/src/shader/index.ts:74-106 | one loop iteration keeps the table well formed |
| ShaderRegistry.ConstructFirstWins | star/src/shader/index.ts:71-110 | for the own-key table (`??=` corrected to create an entry for every name): a material has an entry exactly when some file is a shader of it, and each slot holds the first file of its kind; later duplicates change nothing |
| ShaderRegistry.OwnNamedAppend | star/src/shader/index.ts:81-103 | a later file keeps its place among the files of own-key names exactly when its material is not an inherited property name |
| ShaderRegistry.FirstFileOwnNamed | star/src/shader/index.ts:81-103 | among those files a material named after an inherited property has no file, and every other material keeps its first file of each kind |
| ShaderRegistry.ConstructAsWrittenOwnNamed | star/src/shader/index.ts:71-110 | with no `__proto__` shader file, the loop as written never throws, leaves `Object.prototype` clean, and builds the own-key table of the files whose material is not named after an inherited property |
| ShaderRegistry.ConstructAsWrittenAgrees | star/src/shader/index.ts:71-110 | when no file's material is named after an inherited property, the loop as written and the own-key table agree, and nothing is thrown or written onto `Object.prototype` |
| ShaderRegistry.OwnNamedOfOwn | star/src/shader/index.ts:81-103 | without inherited names no file is dropped |
| ShaderRegistry.ConstructAsWrittenWellFormed | star/src/shader/index.ts:71-110 | the table the loop as written builds lists each key once, never holds an empty slot and never has an own entry for an `Object.prototype` name; what the loop puts on `Object.prototype` is a non-empty path |
| ShaderRegistry.FirstWinsAsWritten | star/src/shader/index.ts:71-110 | as written, unless it threw: a material has an entry exactly when it is not an `Object.prototype` name, some file is a shader of it, and no `__proto__` file before its first file has made its name an inherited slot property; each slot holds the first file of its kind |
| ShaderRegistry.SlotsOfTable | star/src/shader/index.ts:13-15 | in a built table a slot is truthy exactly when it is set |
| ShaderRegistry.AddClassifiedSlots | star/src/shader/index.ts:78-106 | how one own-key iteration changes a material's entry: it is created by `??=` (for every name, as the corrected table does), and a slot is filled only when it was empty |
| ShaderRegistry.SlotHoldsOwnKind | star/src/shader/index.ts:78-103 | a slot only ever holds a file of its own kind for its own material |
| ShaderRegistry.MissingMeansUnassigned | star/src/shader/index.ts:13-15 | in a built table `isMissingShader` holds exactly when a slot is still `null` |
| ShaderRegistry.ConstructorFilesClassified | star/src/shader/index.ts:5-6 | `constructor.vert.wgsl` and `constructor.frag.wgsl` are recognised for material `constructor` |
| ShaderRegistry.PrototypeNamedMaterialLost | star/src/shader/index.ts:81-103 | as written, a complete material named `constructor` never reaches the table; nothing throws and `Object.prototype` is untouched |
| ShaderRegistry.PrototypeNamedMaterialKept | star/src/shader/index.ts:81-103 | corrected, both of its shaders are recorded |
| ShaderRegistry.NamedFileClassified | star/src/shader/index.ts:5-6 | a file `<n>.vert.wgsl` or `<n>.frag.wgsl` without a directory is a shader of that kind for material `n` |
| ShaderRegistry.PollutedMaterialLost | star/src/shader/index.ts:81-103 | as written, `__proto__.vert.wgsl` and `__proto__.frag.wgsl` fill the slot properties of `Object.prototype`, and the complete material `vertexShaderFile` after them gets no entry |
| ShaderRegistry.PollutionThrows | star/src/shader/index.ts:94-102 | as written, `__proto__.vert.wgsl` followed by `vertexShaderFile.frag.wgsl` assigns to a slot of a string and throws |
| ShaderRegistry.PollutedMaterialKept | star/src/shader/index.ts:81-103 | corrected, those four files give two complete materials |
| ShaderRegistry.NewMaterialStep | star/src/shader/index.ts:78-90 | a shader file of a material without an entry appends the material to the keys and creates its entry with that one slot filled |
| ShaderRegistry.EmptySlotStep | star/src/shader/index.ts:86-103 | a shader file whose slot in an existing entry is empty fills that slot and changes nothing else |
| ShaderRegistry.MaterialAdded | star/src/shader/index.ts:74-107 | a vertex file and then a fragment file of a material without an entry add that material, complete, after the existing keys |
| ShaderRegistry.TableStep | star/src/shader/index.ts:78-106 | one written iteration keeps the table well formed; a material gains an entry exactly when the file is its shader and its name is neither an `Object.prototype` name nor an inherited slot property; an existing slot stays, an empty one takes the file |
| ShaderRegistry.ProtoStep | star/src/shader/index.ts:81-102 | one written iteration fills an empty slot property of `Object.prototype` exactly with a `__proto__` file of that kind, and never changes a set one |
| ShaderRegistry.ThrowStep | star/src/shader/index.ts:81-102 | one written iteration throws exactly when the file's material has no own entry, is not an `Object.prototype` name, yields an inherited string, and that string's slot of the file's kind is falsy; a thrown run stays thrown |
| ShaderRegistry.ConstructAsWrittenNext | star/src/shader/index.ts:74-107 | the loop over the first `i + 1` keys is one iteration after the loop over the first `i` |
| ShaderRegistry.ThrownRunStays | star/src/shader/index.ts:74-107 | after a throw the remaining keys change nothing |
| ShaderRegistry.PrototypeAsWritten | star/src/shader/index.ts:81-102 | unless the loop threw, each slot property of `Object.prototype` is the one it started with, or else the first `__proto__` file of that kind |
| ShaderRegistry.PollutedNameAsWritten | star/src/shader/index.ts:81-102 | unless the loop threw, a material name yields an inherited string exactly when it is a slot property set by then |
| ShaderRegistry.PollutedGrows | star/src/shader/index.ts:81-102 | once a slot property of `Object.prototype` is set, it stays set for every longer prefix of the files |
| ShaderRegistry.ThrowsAsWritten | star/src/shader/index.ts:71-110 | the loop as written throws exactly when some file is a shader of kind `Other(u)` for material `SlotProperty(u)`, a `__proto__` file of kind `u` comes before that material's first file, and no `__proto__` file of kind `Other(u)` comes before it |
| ShaderRegistry.MissingMaterialsMembers | star/src/shader/index.ts:113-115 | the filtered list names exactly the listed keys whose entry is missing a shader |
| ShaderRegistry.MissingMaterialsSet | star/src/shader/index.ts:113-115 | in a well-formed table that list holds exactly the incomplete materials |
| ShaderRegistry.WithoutMembers | star/src/shader/index.ts:117-122 | after the deletes, a key remains listed exactly when it was listed and not deleted |
| ShaderRegistry.WithoutTwice | star/src/shader/index.ts:117-118 | deleting the keys one at a time is deleting them all at once |
| ShaderRegistry.WithoutDistinct | star/src/shader/index.ts:122 | the remaining key list still has no duplicates |
| ShaderRegistry.SanitizedExact | star/src/shader/index.ts:112-125 | exactly the complete materials remain, with their entries unchanged |
| ShaderRegistry.SanitizedWellFormed | star/src/shader/index.ts:112-125 | the sanitized table is still well formed |
| ShaderRegistry.LoadedMaterials | star/src/shader/index.ts:71-125 | for the own-key table: after construction and sanitizing, a material is listed exactly when both of its shader kinds have a file |
| ShaderRegistry.LoadedMaterialsAsWritten | star/src/shader/index.ts:71-125 | as written, unless construction threw: after construction and sanitizing, a material is listed exactly when it is not an `Object.prototype` name, both of its shader kinds have a file, and its name was not an inherited slot property at its first file |
| ShaderRegistry.MaterialShaders.constructor | star/src/shader/index.ts:72 | the table starts empty |
| ShaderRegistry.MaterialShaders.AddShaderFile | star/src/shader/index.ts:75-106 | one loop iteration as written, on the table and on `Object.prototype`: `AddFileAsWritten` of the old state, including the `TypeError` it may throw |
| ShaderRegistry.MaterialShaders.Sanitize | star/src/shader/index.ts:112-125 | the table becomes `Sanitized` of the old one, stays well formed, and its remaining keys are returned |
| ShaderRegistry.MaterialShaders.DeleteMaterials | star/src/shader/index.ts:117-120 | the delete loop removes exactly the listed keys and keeps the order of the others |
| ShaderRegistry.ObjectPrototype.constructor | star/src/shader/index.ts:81-102 | a realm starts with no slot property on `Object.prototype` |
| ShaderRegistry.ObjectPrototype.SetSlot | star/src/shader/index.ts:89 | writing through `shaderFiles.__proto__` sets that slot property of `Object.prototype` and leaves the other |
| ShaderRegistry.ConstructMaterialShaders | star/src/shader/index.ts:71-110 | the loop over the file keys leaves the table, `Object.prototype` and the thrown flag at `ConstructAsWritten` of the keys and the old `Object.prototype`; a throw ends the loop there |
| ShaderRegistry.StoreKeyInjective | star/src/shader/index.ts:24 | two store keys are equal exactly when material and type are |
| ShaderRegistry.JobsLayout | star/src/shader/index.ts:164-178 | each found material yields a vertex job then a fragment job, at positions `2i` and `2i + 1` |
| ShaderRegistry.JobsOfMaterials | star/src/shader/index.ts:164-178 | every job belongs to a found material |
| ShaderRegistry.JobKeysDistinct | star/src/shader/index.ts:164-181 | when materials are listed once, every job gets its own store key |
| ShaderRegistry.ApplyJobsStores | star/src/shader/index.ts:179-183 | with distinct keys, every job's source lands under its key, in whatever order the loads complete, and no other key changes |
| ShaderRegistry.ShaderStore.Load | star/src/shader/index.ts:19-26 | the store gains the source under `<material><Type>Shader`, and only that key changes |
| ShaderRegistry.ShaderStore.LoadAll | star/src/shader/index.ts:164-183 | loading the jobs one after another leaves the store at `ApplyJobs` of the old store |
| ShaderRegistry.FoundLoadable | star/src/shader/index.ts:161-171 | every found material has both files set, and no material is listed twice |
| ShaderRegistry.LoadWGSLShaders | star/src/shader/index.ts:152-186 | a non-object or `null` argument raises `TypeError` and changes nothing; a `TypeError` from the construction is raised before any load, leaving the store alone; otherwise the found materials are returned and the store is updated by their jobs; `Object.prototype` ends as the construction left it |
| ShaderRegistry.LoadedStore | star/src/shader/index.ts:152-186 | after loading (as written, when nothing threw), each found material's first vertex and fragment sources are stored under its two keys |
| ShaderPreprocess.SkipSpace | star/src/shader/preprocess.ts:3 | `\s*` consumes the longest run of white space |
| ShaderPreprocess.FindClose | star/src/shader/preprocess.ts:3 | the first `>` from a position on, or the end |
| ShaderPreprocess.DirectiveIff | star/src/shader/preprocess.ts:3 | a directive is recognised at `q` exactly when the text there is `#include`, white space, `<`, a path with no `>`, then `>`, and the path is not a reserved uniform-buffer name |
| ShaderPreprocess.DirectiveSound | star/src/shader/preprocess.ts:3 | a recognised directive has that shape |
| ShaderPreprocess.DirectiveComplete | star/src/shader/preprocess.ts:3 | every text of that shape is recognised |
| ShaderPreprocess.ReservedOfRest | star/src/shader/preprocess.ts:3 | the lookahead, which sees the rest of the text, rejects exactly the reserved paths |
| ShaderPreprocess.MatchAt | star/src/shader/preprocess.ts:3 | a match tried at `p` starts at `p` and is non-empty |
| ShaderPreprocess.MatchAllOrdered | star/src/shader/preprocess.ts:37 | `matchAll` yields non-empty matches inside the source, one after another without overlap |
| ShaderPreprocess.MatchesStartLines | star/src/shader/preprocess.ts:3 | every match is a directive at the very start of the text or a `\n` followed by a directive |
| ShaderPreprocess.MatchAtStartsLine | star/src/shader/preprocess.ts:3 | the same for a single match |
| ShaderPreprocess.ReservedNeverMatched | star/src/shader/preprocess.ts:3 | `sceneUboDeclaration` and `meshUboDeclaration` are never captured |
| ShaderPreprocess.Splices | star/src/shader/preprocess.ts:38-44 | each match is paired with its resolved text |
| ShaderPreprocess.SplicesInOrder | star/src/shader/preprocess.ts:36-46 | the spans follow one another inside the source |
| ShaderPreprocess.SpliceIntoSplit | star/src/shader/preprocess.ts:49 | one step of the fold replaces the span by its text |
| ShaderPreprocess.ReduceRightPrefix | star/src/shader/preprocess.ts:48-51 | splices that end inside a prefix leave the suffix alone |
| ShaderPreprocess.ReduceRightAssembles | star/src/shader/preprocess.ts:48-51 | splicing from the right keeps the earlier offsets valid: the result is the source with every span replaced and every other character kept, in order |
| ShaderPreprocess.Resolve | star/src/shader/preprocess.ts:14-26 | corrected so that the path is entered before its source is preprocessed: the context only grows and gains the path; a known path yields `""` and changes nothing; a new path is stored with its text; a failed load gives `""` |
| ShaderPreprocess.PreprocessWith | star/src/shader/preprocess.ts:28-52 | the context only grows; an empty source comes back unchanged |
| ShaderPreprocess.ResolveAll | star/src/shader/preprocess.ts:36-46 | one text per match, and the context only grows |
| ShaderPreprocess.PreprocessSplices | star/src/shader/preprocess.ts:28-52 | the result is the source with each directive replaced by the text its include resolved to |
| ShaderPreprocess.NoMatches | star/src/shader/preprocess.ts:36-37 | a source without directives has no matches |
| ShaderPreprocess.NoDirectiveUnchanged | star/src/shader/preprocess.ts:28-52 | a source without directives comes back unchanged, and so does the context |
| ShaderPreprocess.KnownPathEmpty | star/src/shader/preprocess.ts:18-20 | a path already in the context contributes `""` wherever it is matched |
| ShaderPreprocess.IncludedOnce | star/src/shader/preprocess.ts:14-26 | with the directives resolved one after another (the sequential model), each path is included at most once: a later match of it resolves to `""` |
| ShaderPreprocess.ResolveAsWritten | star/src/shader/preprocess.ts:14-26 | as written, when it finishes the context has grown and holds the path |
| ShaderPreprocess.PreprocessAsWritten | star/src/shader/preprocess.ts:28-52 | as written, when it finishes the context has grown, and an empty source comes back at once |
| ShaderPreprocess.ResolveAllAsWritten | star/src/shader/preprocess.ts:36-46 | as written, when it finishes there is one text per match |
| ShaderPreprocess.SelfIncludeMatches | star/src/shader/preprocess.ts:3 | `#include<a>` is one match of path `a` spanning the whole text |
| ShaderPreprocess.SelfIncludeNeverFinishes | star/src/shader/preprocess.ts:14-26 | as written, a library file that includes itself is never finished, whatever the bound on nesting |
| ShaderPreprocess.SelfIncludeResolves | star/src/shader/preprocess.ts:14-26 | corrected, the inner include finds `a` in progress and the result is `""` |
| ShaderPreprocess.ResolveAgrees | star/src/shader/preprocess.ts:14-26 | without include cycles, resolving a path as written finishes with the corrected text, and its context is the corrected one minus the paths in progress |
| ShaderPreprocess.PreprocessAgrees | star/src/shader/preprocess.ts:28-52 | the same for a whole source whose includes rank below the bound |
| ShaderPreprocess.ResolveAllAgrees | star/src/shader/preprocess.ts:36-46 | the same for the run of matches, resolved left to right |
| ShaderPreprocess.PreprocessAsWrittenAgrees | star/src/shader/preprocess.ts:14-52 | in a library without include cycles (some rank drops along every include), the written preprocessor with enough nesting bound returns exactly what the corrected one returns, text and context |
| ShaderPreprocess.IncludeContext.ResolveFromIncludePath | star/src/shader/preprocess.ts:14-26 | the returned text and the new context are those of `Resolve` |
| ShaderPreprocess.IncludeContext.PreprocessSource | star/src/shader/preprocess.ts:28-52 | the returned text and the new context are those of `PreprocessWith` |
| ShaderPreprocess.Preprocess | star/src/shader/preprocess.ts:54-56 | `preprocess` starts from an empty context and returns `Preprocessed` |

## Left out

- Floating point: all arithmetic is on reals. Some IEEE cases are modelled explicitly: the `Infinity` clamp of 3-D repulsion, the NaN of coincident 2-D repulsion (`RepulsionForceAsWritten`, which `RepulsionSumAsWritten` and `StepAsWritten` carry through the update as `None`), and the NaN of `parseInt`. Rounding, overflow and other NaN or `Infinity` propagation are not.
- Boids2DUpdate.Neighbours follows the corrected repulsion `RepulsionForce`. In the source a flockmate at the particle's own position makes the repulsion NaN, and `clampLengthInPlace` and `sanitizePosition` only compare, so the acceleration, velocity, position and rotation all become NaN. `StepAgrees` states that outcome, and shows the two agree whenever no flockmate coincides.
- Boids2DUpdate.Force follows the corrected repulsion `RepulsionForce`. In the source a flockmate at the particle's own position makes the repulsion NaN, and `clampLengthInPlace` and `sanitizePosition` only compare, so the acceleration, velocity, position and rotation all become NaN. `StepAgrees` states that outcome, and shows the two agree whenever no flockmate coincides.
- Boids2DUpdate.Step follows the corrected repulsion `RepulsionForce`. In the source a flockmate at the particle's own position makes the repulsion NaN, and `clampLengthInPlace` and `sanitizePosition` only compare, so the acceleration, velocity, position and rotation all become NaN. `StepAgrees` states that outcome, and shows the two agree whenever no flockmate coincides.
- Boids2DUpdate.ParticleSystem.GatherNeighbours follows the corrected repulsion `RepulsionForce`. In the source a flockmate at the particle's own position makes the repulsion NaN, and `clampLengthInPlace` and `sanitizePosition` only compare, so the acceleration, velocity, position and rotation all become NaN. `StepAgrees` states that outcome, and shows the two agree whenever no flockmate coincides.
- Boids2DUpdate.ParticleSystem.ComputeForce follows the corrected repulsion `RepulsionForce`. In the source a flockmate at the particle's own position makes the repulsion NaN, and `clampLengthInPlace` and `sanitizePosition` only compare, so the acceleration, velocity, position and rotation all become NaN. `StepAgrees` states that outcome, and shows the two agree whenever no flockmate coincides.
- Boids2DUpdate.ParticleSystem.UpdateParticle follows the corrected repulsion `RepulsionForce`. In the source a flockmate at the particle's own position makes the repulsion NaN, and `clampLengthInPlace` and `sanitizePosition` only compare, so the acceleration, velocity, position and rotation all become NaN. `StepAgrees` states that outcome, and shows the two agree whenever no flockmate coincides.
- Boids2DUpdate.AccelerationBounded is proved of the corrected `Step`; as written it holds when no flockmate coincides with the particle, and otherwise the acceleration is NaN (`StepAgrees`).
- Boids2DUpdate.SpeedInBand is proved of the corrected `Step`; as written it holds when no flockmate coincides with the particle, and otherwise the velocity is NaN (`StepAgrees`).
- Boids2D.Pick only carries positive hit distances. A hit at distance 0 would make the source scale the avoidance direction by `1 / (0 * 0)`, that is `Infinity`, giving an infinite or NaN collision force. That case is not modelled.
- Boids2DUpdate.ParticleSystem.AddCollisionTerm inherits that restriction from `Pick`: the zero-distance hit and its `Infinity` weight are not modelled.
- ShaderRegistry.ConstructFirstWins states the own-key table `Construct`, which corrects `??=` so that it creates an entry for every name. The loop as written builds `ConstructAsWritten`, which also tracks `Object.prototype` and a thrown `TypeError`. `FirstWinsAsWritten` states first-wins for it, and `ConstructAsWrittenOwnNamed` shows that without `__proto__` files it is `Construct` of the files whose material is not named after an inherited property.
- ShaderRegistry.AddClassifiedSlots describes one step of the own-key table. The written step is `AddFileAsWritten`, described by `TableStep`, `ProtoStep` and `ThrowStep`.
- ShaderRegistry.LoadedMaterials is about the own-key table. For the loop as written, `LoadedMaterialsAsWritten` also excludes materials named after inherited properties and slot properties a `__proto__` file made inherited.
- ShaderRegistry.FirstWinsAsWritten requires `ProtoFilled`: a slot property already on `Object.prototype` when the loop starts must be a non-empty string. Every value the loop itself writes there is one (`ConstructAsWrittenWellFormed`). A falsy or non-string value placed there by other code is not modelled.
- ShaderRegistry.PrototypeAsWritten requires `ProtoFilled` too, for the same reason.
- ShaderRegistry.PollutedNameAsWritten requires `ProtoFilled` too, for the same reason.
- ShaderRegistry.ThrowsAsWritten requires `ProtoFilled` too, for the same reason.
- ShaderRegistry.LoadedMaterialsAsWritten requires `ProtoFilled` too, for the same reason.
- ShaderRegistry.LoadedStore requires `ProtoFilled` too, for the same reason.
- `Object.prototype` is modelled only through the two slot properties the loop can write (`ObjectPrototype`). Writes onto the inherited functions (`constructor`, `toString`, …) are not recorded: they never reach the table or the slot properties. Other realms, frozen prototypes and getters are not modelled.
- Square root, trigonometry, ray picking (`scene.pickWithRay`), `Matrix`/`TransformCoordinates`, `Math.atan2` and `Rotation.FromDirection` are host functions passed as parameters. Only the laws stated for them are assumed. The value of `cos(0.8 pi)` is a parameter, with only its sign used.
- Randomness: the particle and boid setup (`initParticles`, `Rotation.Random`, `Scalar.RandomRange`) and the scene and mesh construction are not modelled. The model starts from given positions and velocities.
- The render loop, `setParticles`, the per-frame call order over the particles, and `engine.getDeltaTime()` (a parameter) are not modelled.
- 2-D visualisation helpers (`UpdateCollisionVizMesh`, `CreateArcMesh` and the obstacle builders) are display only.
- Boids3DNavigation.ProbeTable: the probe `x` and `y` are kept as `sin`/`cos` terms. Only `x^2 + y^2 = 1 - z^2` and `z = 1 - i/8` are proved, not their exact values.
- Marching cubes:
  - The WGSL `density` function and the simplex noise `snoise` behind it are a shader parameter, as is edge interpolation (the `mix` weight and normal).
  - The per-triangle `normal` computed at line 606 is never used by the shader, so it is not modelled.
- The marching-cubes GPU side is not modelled either: the `StorageBuffer` creation, `dispatchWhenReady`, the read-back, the vertex-buffer update and the `Task.Chain` promise sequencing. Concurrent invocations are modelled one at a time, and `IndexOffsetsDisjoint` shows that they write disjoint blocks.
- MarchingCubes.Range: JavaScript numbers are integers here; fractional or non-numeric bounds are not modelled.
- The simplex, `ndim`, `sine_fract` and `perlin_linker` shader files are context. The noise `random` functions are parameters.
- `loadWGSLShaders` and `_preprocess` await their loads with `Promise.all`; the model resolves them one after another.
  - In the store the order does not matter (`ApplyJobsStores`).
  - In `_preprocess` it does: every `context.has` check in a `Promise.all` batch runs before any `context.set`. So two sibling includes of the same path are both expanded concurrently, while the sequential model expands the first and gives `""` for the later one.
- ShaderPreprocess.IncludedOnce: holds for the sequential model only, not for the source. In the source, every `context.has` check of one `Promise.all` batch runs before any `context.set`, because `context.set` waits for the load and the nested preprocessing. So the source `#include<a>\n#include<a>` expands `a` twice. With library file `a` = `#include<b>`, the source `#include<a>\n#include<b>` can also expand `b` twice, depending on which load finishes first.
- Object key order: `Object.keys` lists integer-like keys first. The model keeps insertion order for the file list and for the table's `names`.
- Logging (`debug`, `warn`, `console.group`) and the log module are left out, and so is the `import()` behind `loadFromIncludePath`. That import becomes a library map: a missing path loads as `""`.
- Strings are sequences of Dafny characters, not UTF-16 code units; `\w`, `\s` and `parseInt` are modelled on those characters.
- ShaderPreprocess.ResolveAsWritten, ShaderPreprocess.PreprocessAsWritten and ShaderPreprocess.ResolveAllAsWritten take a nesting bound `fuel` and return `None` when it runs out. This is how a run that never ends is represented; every finite run with enough fuel is modelled.

## Findings

| source | as written | input that shows it | evidently intended | confidence | as-written member | corrected member |
|---|---|---|---|---|---|---|
| boids/js/main.js:135-142 | `diff.normalize().scaleInPlace(1 / (len * len))` with `len == 0` gives `0 * Infinity`, which is NaN in every component | two particles of the same flock at the same position | no repulsion between coincident particles, as the 3-D demo's clamp gives | not executed | Boids2D.RepulsionNaNWhenCoincident | Boids2D.RepulsionForceCoincident |
| star/src/shader/index.ts:81-103 | `shaderFiles[materialName] ??= …` reads inherited properties, so for a material named after an `Object.prototype` property no entry is created and the slots go to the inherited object | files `constructor.vert.wgsl` and `constructor.frag.wgsl` | every correctly named material is recorded | not executed | ShaderRegistry.PrototypeNamedMaterialLost | ShaderRegistry.PrototypeNamedMaterialKept |
| star/src/shader/index.ts:81-102 | for material `__proto__`, `shaderFiles[materialName]` is `Object.prototype`, so its files become the inherited `vertexShaderFile` and `fragmentShaderFile` of every object; a later material with one of those names then finds a string, gets no entry, and an assignment to the string's empty slot throws `TypeError` | files `__proto__.vert.wgsl`, `__proto__.frag.wgsl`, `vertexShaderFile.vert.wgsl`, `vertexShaderFile.frag.wgsl` (no entry); `__proto__.vert.wgsl`, `vertexShaderFile.frag.wgsl` (throws) | both materials recorded, nothing written onto `Object.prototype` | not executed | ShaderRegistry.PollutedMaterialLost | ShaderRegistry.PollutedMaterialKept |
| star/src/shader/preprocess.ts:14-26 | `context.set` runs only after the included source has been preprocessed, so a file that includes itself, directly or through a cycle, recurses without end | library file `a` = `#include<a>`, source `#include<a>` | a path that is already being included resolves to `""`, so a cyclic include ends | not executed | ShaderPreprocess.SelfIncludeNeverFinishes | ShaderPreprocess.SelfIncludeResolves |

How each finding is carried through the rest of the model:
- The 2-D update (`Neighbours`, `Step` and the particle-system methods) uses the corrected repulsion. `StepAgrees` gives the written outcome: NaN exactly when a flockmate coincides.
- The registry's methods (`MaterialShaders.AddShaderFile`, `ConstructMaterialShaders`, `LoadWGSLShaders`) follow the loop as written, writes onto `Object.prototype` and `TypeError` included. `FirstWinsAsWritten` and `ThrowsAsWritten` say exactly which materials it records and when it throws. `ConstructAsWrittenOwnNamed` shows that without `__proto__` files it builds the corrected table of the files whose name is not inherited, and `ConstructAsWrittenAgrees` shows the two agree when no such name occurs. `PollutionThrows` is the second input of the pollution finding.
- The preprocessor's methods use the corrected resolution. `PreprocessAsWrittenAgrees` shows the written one returns the same result in any library without include cycles.

The 3-D visibility test `IsVisible` (boids-3d/js/main.js:161-165) counts a boid at the viewer's own position as visible. `normalize` leaves the zero difference at zero, and `0 >= cos(0.8 pi)`. The 2-D test behaves the same. This is modelled as written (`Boids3D.CoincidentIsVisible`, `Boids2D.CoincidentIsVisible`). It is harmless there, because the updates skip the boid itself by index.
