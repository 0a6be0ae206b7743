/**
 * The integer logic of the marching-cubes demo: `Utils.Number.Range`, the
 * `$ENV` compute grid, the meshing kernel `main` of the WGSL compute shader,
 * and the placement of the 512 terrain chunks.
 *
 * The kernel works on one voxel.  It samples the density at the 8 cube
 * corners, packs the signs into an 8-bit `cube_case`, looks up the crossed
 * edges in `EDGE_CASES`, interpolates a vertex on each crossed edge, and
 * copies the vertices named by the voxel's `TRIANGLE_CASES` row into its own
 * 15-vertex block of the `vertices` storage buffer.  The density function
 * (simplex noise) and the vertex interpolation (float `mix`, `normalize`) are
 * parameters of the model.
 */
module MarchingCubes {
  import opened Vectors
  import opened Wrappers
  import opened MarchingCubesTables

  // ---------------------------------------------------------------------
  // Utils.Number.Range
  // ---------------------------------------------------------------------

  /** The bounds `Range` iterates over: a single argument is the upper bound. */
  function RangeBounds(lower: int, upper: Option<int>): (int, int) {
    match upper
    case None => (0, lower)
    case Some(u) => (lower, u)
  }

  /** `Range(lower, upper)`: the integers `lower, lower + 1, ..., upper - 1`, pushed in order. */
  method Range(lower: int, upper: Option<int>) returns (ret: seq<int>)
    ensures var l, u := RangeBounds(lower, upper).0, RangeBounds(lower, upper).1;
      |ret| == (if u > l then u - l else 0) && forall k :: 0 <= k < |ret| ==> ret[k] == l + k
  {
    var l, u := lower, lower;
    match upper {
      case None => l := 0;
      case Some(v) => u := v;
    }
    assert (l, u) == RangeBounds(lower, upper);
    ret := [];
    var i := l;
    while i < u
      invariant l <= i <= (if u > l then u else l)
      invariant |ret| == i - l
      invariant forall k :: 0 <= k < |ret| ==> ret[k] == l + k
    {
      ret := ret + [i];
      i := i + 1;
    }
  }

  // ---------------------------------------------------------------------
  // The $ENV compute grid
  // ---------------------------------------------------------------------

  datatype Dims = Dims(x: int, y: int, z: int)

  function Total(d: Dims): int { d.x * d.y * d.z }

  /** `computeShaderGrid`: workgroup size times workgroup count, per axis. */
  function GridOf(size: Dims, count: Dims): Dims {
    Dims(size.x * count.x, size.y * count.y, size.z * count.z)
  }

  const WorkgroupSize := Dims(4, 4, 4)
  const NumWorkgroups := Dims(2, 1, 2)
  const Grid := GridOf(WorkgroupSize, NumWorkgroups)

  /** `MAX_VERTICES_PER_VOXEL`: five triangles. */
  const MaxVerticesPerVoxel := 15

  /** The vertex count of one chunk's storage buffer, `15 * computeShaderGrid.total`. */
  const VertexCount := MaxVerticesPerVoxel * Total(Grid)

  lemma Reorder(a: int, b: int, c: int, d: int, e: int, f: int)
    ensures (a * d) * (b * e) * (c * f) == (a * b * c) * (d * e * f)
  {
    calc {
      (a * d) * (b * e) * (c * f);
      a * (d * (b * e)) * (c * f);
      a * (b * (d * e)) * (c * f);
      (a * b) * (d * e) * (c * f);
      (a * b) * ((d * e) * (c * f));
      (a * b) * (c * ((d * e) * f));
      (a * b * c) * (d * e * f);
    }
  }

  /** The grid holds one invocation per workgroup slot: its total is the product of the two totals. */
  lemma GridTotal(size: Dims, count: Dims)
    ensures Total(GridOf(size, count)) == Total(size) * Total(count)
  {
    Reorder(size.x, size.y, size.z, count.x, count.y, count.z);
  }

  /** The demo's grid is `8 x 4 x 8 = 256` voxels and its buffers hold 3840 vertices. */
  lemma DemoGrid()
    ensures Grid == Dims(8, 4, 8) && Total(Grid) == 256 && VertexCount == 3840
    ensures Total(Grid) == Total(WorkgroupSize) * Total(NumWorkgroups)
  {
    GridTotal(WorkgroupSize, NumWorkgroups);
  }

  /** `global_invocation_id`, an unsigned vector. */
  datatype Invocation = Invocation(x: nat, y: nat, z: nat)

  predicate InGrid(id: Invocation) {
    id.x < Grid.x && id.y < Grid.y && id.z < Grid.z
  }

  /** WebGPU's `global_invocation_id = workgroup_id * workgroup_size + local_invocation_id`. */
  function GlobalId(workgroup: Invocation, local: Invocation): Invocation {
    Invocation(workgroup.x * WorkgroupSize.x + local.x,
               workgroup.y * WorkgroupSize.y + local.y,
               workgroup.z * WorkgroupSize.z + local.z)
  }

  predicate Below(id: Invocation, d: Dims) {
    id.x < d.x && id.y < d.y && id.z < d.z
  }

  /**
   * `dispatchWhenReady(2, 1, 2)` runs exactly the invocations of the grid:
   * each workgroup slot lands in the grid, and each grid point is the slot
   * of one workgroup and local id.
   */
  lemma DispatchCoversGrid(workgroup: Invocation, local: Invocation, id: Invocation)
    ensures Below(workgroup, NumWorkgroups) && Below(local, WorkgroupSize) ==> InGrid(GlobalId(workgroup, local))
    ensures InGrid(id) ==>
      var w := Invocation(id.x / 4, id.y / 4, id.z / 4);
      Below(w, NumWorkgroups) && Below(Invocation(id.x % 4, id.y % 4, id.z % 4), WorkgroupSize)
      && GlobalId(w, Invocation(id.x % 4, id.y % 4, id.z % 4)) == id
  {
  }

  /** The shader's `index_offset`: the voxel's linear index times 15. */
  function IndexOffset(id: Invocation): int {
    (id.x + id.y * Grid.x + id.z * (Grid.x * Grid.y)) * MaxVerticesPerVoxel
  }

  /** Every invocation's 15-vertex block lies inside the buffer. */
  lemma IndexOffsetInBuffer(id: Invocation)
    requires InGrid(id)
    ensures 0 <= IndexOffset(id) && IndexOffset(id) + MaxVerticesPerVoxel <= VertexCount
  {
    DemoGrid();
  }

  /** Distinct invocations write disjoint 15-vertex blocks. */
  lemma IndexOffsetsDisjoint(a: Invocation, b: Invocation)
    requires InGrid(a) && InGrid(b) && a != b
    ensures IndexOffset(a) + MaxVerticesPerVoxel <= IndexOffset(b) || IndexOffset(b) + MaxVerticesPerVoxel <= IndexOffset(a)
  {
    DemoGrid();
    var la := a.x + 8 * a.y + 32 * a.z;
    var lb := b.x + 8 * b.y + 32 * b.z;
    assert IndexOffset(a) == 15 * la && IndexOffset(b) == 15 * lb;
    if la == lb {
      LinearIndexInjective(a, b);
    }
  }

  /** Within the grid, `x + 8 * y + 32 * z` determines the invocation. */
  lemma LinearIndexInjective(a: Invocation, b: Invocation)
    requires a.x < 8 && a.y < 4 && a.z < 8 && b.x < 8 && b.y < 4 && b.z < 8
    requires a.x + 8 * a.y + 32 * a.z == b.x + 8 * b.y + 32 * b.z
    ensures a == b
  {
    assert 0 <= a.x + 8 * a.y < 32 && 0 <= b.x + 8 * b.y < 32;
    assert a.z == b.z;
    assert a.y == b.y;
  }

  // ---------------------------------------------------------------------
  // The cube: corners and edges
  // ---------------------------------------------------------------------

  /** `cube_offsets[i]`, the corner `i` of the unit cube. */
  function CubeOffset(i: int): Vec3 {
    match i
    case 0 => Vec3(0.0, 0.0, 0.0)
    case 1 => Vec3(1.0, 0.0, 0.0)
    case 2 => Vec3(1.0, 1.0, 0.0)
    case 3 => Vec3(0.0, 1.0, 0.0)
    case 4 => Vec3(0.0, 0.0, 1.0)
    case 5 => Vec3(1.0, 0.0, 1.0)
    case 6 => Vec3(1.0, 1.0, 1.0)
    case _ => Vec3(0.0, 1.0, 1.0)
  }

  /** `edge_vertex_indices[e]`: the two corners edge `e` joins. */
  function EdgeCorners(e: int): (int, int) {
    match e
    case 0 => (0, 1)
    case 1 => (1, 2)
    case 2 => (2, 3)
    case 3 => (3, 0)
    case 4 => (4, 5)
    case 5 => (5, 6)
    case 6 => (6, 7)
    case 7 => (7, 4)
    case 8 => (0, 4)
    case 9 => (1, 5)
    case 10 => (2, 6)
    case _ => (3, 7)
  }

  function Differs(a: real, b: real): int { if a == b then 0 else 1 }

  /** The number of axes along which two corners differ. */
  function AxesApart(p: Vec3, q: Vec3): int {
    Differs(p.x, q.x) + Differs(p.y, q.y) + Differs(p.z, q.z)
  }

  /** Every edge joins two corners of the cube that differ in exactly one axis. */
  lemma EdgesJoinNeighbours(e: int)
    requires 0 <= e < 12
    ensures var (a, b) := EdgeCorners(e); 0 <= a < 8 && 0 <= b < 8
    ensures var (a, b) := EdgeCorners(e); AxesApart(CubeOffset(a), CubeOffset(b)) == 1
  {
  }

  // ---------------------------------------------------------------------
  // The kernel
  // ---------------------------------------------------------------------

  /** `vec4<f32>` returned by the WGSL `density`: gradient in `xyz`, value in `w`. */
  datatype Density = Density(gradient: Vec3, value: real)

  /** `struct Vertex` of the `vertices` storage buffer. */
  datatype Vertex = Vertex(position: Vec3, normal: Vec3)

  /** What a WGSL `var` of type `Vertex` holds before it is assigned. */
  const Blank := Vertex(Zero, Zero)

  /**
   * The float numerics the kernel calls: `density(position)` and, for an
   * edge from corner `a` to corner `b`, `interpolate(offset, d_a, d_b, c_a, c_b)`
   * gives `offset + mix(c_a, c_b, w)` with normal
   * `normalize(-mix(d_a.xyz, d_b.xyz, w))`, where `w = d_a.w / (d_a.w - d_b.w)`.
   */
  datatype Shader = Shader(density: Vec3 -> Density, interpolate: (Vec3, Density, Density, Vec3, Vec3) -> Vertex)

  /** `vec3<f32>(global_invocation_id)`. */
  function Offset(id: Invocation): Vec3 { Vec3(id.x as real, id.y as real, id.z as real) }

  /** `cube_offsets[i] + global_offset + offset`. */
  function CornerPosition(globalOffset: Vec3, id: Invocation, i: int): Vec3 {
    Add(Add(CubeOffset(i), globalOffset), Offset(id))
  }

  function CornerDensity(s: Shader, globalOffset: Vec3, id: Invocation, i: int): Density {
    s.density(CornerPosition(globalOffset, id, i))
  }

  /** `cube_densities` after the first loop. */
  function CornerDensities(s: Shader, globalOffset: Vec3, id: Invocation): (ds: seq<Density>)
    ensures |ds| == 8 && forall i :: 0 <= i < 8 ==> ds[i] == CornerDensity(s, globalOffset, id, i)
  {
    seq(8, i => CornerDensity(s, globalOffset, id, i))
  }

  /** `u32(d.w > 0.0)`. */
  function Inside(d: Density): bv32 { if d.value > 0.0 then 1 else 0 }

  /** The first `n` corner bits of `cube_case`, as the loop (with its `u32` counter) ORs them in. */
  function CaseBits(ds: seq<Density>, n: bv32): bv32
    requires n <= 8 && n as int <= |ds|
    decreases n
  {
    if n == 0 then 0 else CaseBits(ds, n - 1) | (Inside(ds[n - 1]) << (n - 1))
  }

  /** `cube_case` of the voxel: bit `i` for corner `i` inside. */
  function CubeCase(ds: seq<Density>): bv32
    requires |ds| == 8
  {
    CaseBits(ds, 8)
  }

  /** One iteration of the case loop. */
  lemma CaseBitsStep(ds: seq<Density>, n: bv32)
    requires n < 8 && n as int < |ds|
    ensures CaseBits(ds, n + 1) == CaseBits(ds, n) | (Inside(ds[n]) << n)
  {
  }

  /** The eight iterations of the case loop, written out. */
  lemma CubeCaseUnrolled(ds: seq<Density>)
    requires |ds| == 8
    ensures CubeCase(ds) == Inside(ds[0]) | (Inside(ds[1]) << 1) | (Inside(ds[2]) << 2) | (Inside(ds[3]) << 3)
      | (Inside(ds[4]) << 4) | (Inside(ds[5]) << 5) | (Inside(ds[6]) << 6) | (Inside(ds[7]) << 7)
  {
    CaseBitsStep(ds, 0);
    CaseBitsStep(ds, 1);
    CaseBitsStep(ds, 2);
    CaseBitsStep(ds, 3);
    CaseBitsStep(ds, 4);
    CaseBitsStep(ds, 5);
    CaseBitsStep(ds, 6);
    CaseBitsStep(ds, 7);
  }

  /**
   * `cube_case` lies in `0..255`, and corner `i` is inside the surface
   * (density above 0) exactly when bit `i` is set.
   */
  lemma CubeCaseBits(ds: seq<Density>, i: int)
    requires |ds| == 8 && 0 <= i < 8
    ensures CubeCase(ds) <= 0xff
    ensures HasBit(CubeCase(ds), i) <==> ds[i].value > 0.0
  {
    CubeCaseUnrolled(ds);
  }

  /** Corner `d`'s share of the case number: its bit value `w` if it is inside. */
  function CornerWeight(d: Density, w: int): int { if d.value > 0.0 then w else 0 }

  /** `cube_case` as a number: the sum of `2^i` over the corners `i` inside the surface. */
  function CubeIndex(ds: seq<Density>): (c: int)
    requires |ds| == 8
    ensures 0 <= c < 256
  {
    CornerWeight(ds[0], 1) + CornerWeight(ds[1], 2) + CornerWeight(ds[2], 4) + CornerWeight(ds[3], 8)
    + CornerWeight(ds[4], 16) + CornerWeight(ds[5], 32) + CornerWeight(ds[6], 64) + CornerWeight(ds[7], 128)
  }

  /** The `u32` the loop builds is that number. */
  lemma CubeCaseValue(ds: seq<Density>)
    requires |ds| == 8
    ensures CubeCase(ds) as int == CubeIndex(ds)
  {
    CubeCaseUnrolled(ds);
  }

  /** The voxel is empty (case 0) when no corner is inside, and full (case 255) when all are. */
  lemma EmptyOrFull(ds: seq<Density>)
    requires |ds| == 8
    ensures CubeIndex(ds) == 0 <==> forall i :: 0 <= i < 8 ==> ds[i].value <= 0.0
    ensures CubeIndex(ds) == 255 <==> forall i :: 0 <= i < 8 ==> ds[i].value > 0.0
  {
  }

  /** The vertex the edge loop interpolates on edge `e`. */
  function EdgePoint(s: Shader, id: Invocation, ds: seq<Density>, e: int): Vertex
    requires |ds| == 8
  {
    var (a, b) := EdgeCorners(e);
    if 0 <= a < 8 && 0 <= b < 8 then s.interpolate(Offset(id), ds[a], ds[b], CubeOffset(a), CubeOffset(b))
    else Blank
  }

  /** What the edge loop leaves in `edge_vertices[e]`: the interpolated vertex if `e` is marked, else a blank. */
  function EdgeVertex(s: Shader, id: Invocation, ds: seq<Density>, edgeCase: bv32, e: int): Vertex
    requires |ds| == 8
  {
    if 0 <= e < 12 && HasBit(edgeCase, e) then EdgePoint(s, id, ds, e) else Blank
  }

  /** Triangle `u` of the row at `base` opens with an edge index, not -1. */
  predicate Opens(tc: seq<int>, base: int, u: int)
    requires 0 <= base && base + 15 <= |tc| && 0 <= u < 5
  {
    tc[base + 3 * u] >= 0
  }

  /**
   * The number of triangles the triangle loop copies from the row at `base`,
   * reading triangles from `t` on: it stops at the first one opening with a
   * negative index, or after five.
   */
  function SlotsUsed(tc: seq<int>, base: int, t: nat): (n: nat)
    requires 0 <= base && base + 15 <= |tc| && t <= 5
    ensures t <= n <= 5
    ensures n < 5 ==> !Opens(tc, base, n)
    ensures forall u :: t <= u < n ==> Opens(tc, base, u)
    decreases 5 - t
  {
    if t < 5 && Opens(tc, base, t) then SlotsUsed(tc, base, t + 1) else t
  }

  /**
   * What a voxel of case `c` leaves in slot `k` of its 15-slot block (and,
   * for `k` outside `0..14`, in the rest of the buffer), reading the bound
   * `edge_cases` and `triangle_cases` buffers: an empty or full voxel
   * writes nothing; otherwise the slots below three times the row's
   * triangle count receive the edge vertex the row names, and every other
   * slot keeps its previous content.
   */
  function VoxelOutput(s: Shader, id: Invocation, ds: seq<Density>, edgeCases: seq<bv32>, triangleCases: seq<int>,
                       c: int, k: int, previous: Vertex): Vertex
    requires |ds| == 8 && |edgeCases| == 256 && |triangleCases| == 4096 && 0 <= c < 256
  {
    if c == 0 || c == 255 then previous
    else if 0 <= k < 3 * SlotsUsed(triangleCases, c * 16, 0) then
      EdgeVertex(s, id, ds, edgeCases[c], triangleCases[c * 16 + k])
    else previous
  }

  /** What the kernel invocation `id` leaves in slot `j` of the vertex buffer. */
  function KernelOutput(s: Shader, globalOffset: Vec3, id: Invocation, edgeCases: seq<bv32>, triangleCases: seq<int>,
                        j: int, previous: Vertex): Vertex
    requires |edgeCases| == 256 && |triangleCases| == 4096
  {
    var ds := CornerDensities(s, globalOffset, id);
    VoxelOutput(s, id, ds, edgeCases, triangleCases, CubeIndex(ds), j - IndexOffset(id), previous)
  }

  /** The first loop: `cube_densities[i] = density(cube_offsets[i] + global_offset + offset)`. */
  method SampleCorners(s: Shader, globalOffset: Vec3, id: Invocation) returns (densities: array<Density>)
    ensures fresh(densities) && densities[..] == CornerDensities(s, globalOffset, id)
  {
    densities := new Density[8](i => Density(Zero, 0.0));
    var i := 0;
    while i < 8
      invariant 0 <= i <= 8
      invariant forall k :: 0 <= k < i ==> densities[k] == CornerDensity(s, globalOffset, id, k)
    {
      densities[i] := s.density(CornerPosition(globalOffset, id, i));
      i := i + 1;
    }
  }

  /** The second loop: `cube_case |= u32(cube_densities[i].w > 0.0) << i`. */
  method ComputeCubeCase(densities: array<Density>) returns (cubeCase: bv32)
    requires densities.Length == 8
    ensures cubeCase as int == CubeIndex(densities[..])
  {
    ghost var ds := densities[..];
    cubeCase := 0;
    var i: bv32 := 0;
    while i < 8
      invariant i <= 8
      invariant cubeCase == CaseBits(ds, i)
    {
      CaseBitsStep(ds, i);
      assert densities[i] == ds[i];
      cubeCase := cubeCase | (Inside(densities[i]) << i);
      i := i + 1;
    }
    CubeCaseValue(ds);
  }

  /**
   * The edge loop: interpolate a vertex on each edge marked in `edge_case`
   * (`HasBit` is the shader's `edge_case & (1u << i) != 0`, see `BitIsShift`).
   */
  method InterpolateEdges(s: Shader, id: Invocation, densities: array<Density>, edgeCase: bv32)
    returns (edgeVertices: array<Vertex>)
    requires densities.Length == 8
    ensures fresh(edgeVertices) && edgeVertices.Length == 12
    ensures forall e :: 0 <= e < 12 ==> edgeVertices[e] == EdgeVertex(s, id, densities[..], edgeCase, e)
  {
    edgeVertices := new Vertex[12](e => Blank);
    var i := 0;
    while i < 12
      invariant 0 <= i <= 12
      invariant forall e :: 0 <= e < 12 ==>
        edgeVertices[e] == if e < i && HasBit(edgeCase, e) then EdgePoint(s, id, densities[..], e) else Blank
    {
      if HasBit(edgeCase, i) {
        var (v0, v1) := EdgeCorners(i);
        edgeVertices[i] := s.interpolate(Offset(id), densities[v0], densities[v1], CubeOffset(v0), CubeOffset(v1));
      }
      i := i + 1;
    }
  }

  lemma FlatIndex(c: int, i: int)
    requires 0 <= c < 256 && 0 <= i < 16
    ensures 0 <= c * 16 + i < 4096 && TriangleCase(c * 16 + i) == Entry(TriangleRow(c), i)
  {
    assert (c * 16 + i) / 16 == c && (c * 16 + i) % 16 == i;
  }

  /**
   * The storage buffers `edge_cases` (256 `u32`) and `triangle_cases`
   * (4096 `i32`) hold the two tables, as `update` loads them.
   */
  predicate Loaded(edgeCases: seq<bv32>, triangleCases: seq<int>) {
    |edgeCases| == 256 && |triangleCases| == 4096
    && (forall c {:trigger EdgeCase(c)} :: 0 <= c < 256 ==> edgeCases[c] == EdgeCase(c))
    && (forall i {:trigger TriangleCase(i)} :: 0 <= i < 4096 ==> triangleCases[i] == TriangleCase(i))
  }

  /** With the tables loaded, `triangle_cases[c * 16 + k]` is entry `k` of row `c`. */
  lemma LoadedRow(edgeCases: seq<bv32>, triangleCases: seq<int>, c: int)
    requires Loaded(edgeCases, triangleCases) && 0 <= c < 256
    ensures edgeCases[c] == EdgeCase(c)
    ensures forall k :: 0 <= k < 16 ==> triangleCases[c * 16 + k] == Entry(TriangleRow(c), k)
  {
    forall k | 0 <= k < 16
      ensures triangleCases[c * 16 + k] == Entry(TriangleRow(c), k)
    {
      FlatIndex(c, k);
    }
  }

  /** Read from a buffer holding row `r`, the loop's stopping rule finds `TriangleCount(r)`. */
  lemma {:induction false} SlotsUsedCount(triangleCases: seq<int>, base: int, r: Row, t: nat)
    requires 0 <= base && base + 16 <= |triangleCases| && t <= TriangleCount(r)
    requires forall k :: 0 <= k < 16 ==> triangleCases[base + k] == Entry(r, k)
    ensures SlotsUsed(triangleCases, base, t) == TriangleCount(r)
    decreases 5 - t
  {
    if t < 5 {
      TriangleCountStops(r, t);
      assert triangleCases[base + 3 * t] == Entry(r, 3 * t);
      if t < TriangleCount(r) {
        assert Opens(triangleCases, base, t);
        SlotsUsedCount(triangleCases, base, r, t + 1);
        assert SlotsUsed(triangleCases, base, t) == SlotsUsed(triangleCases, base, t + 1);
      } else {
        assert !Opens(triangleCases, base, t);
      }
    }
  }

  /**
   * With the tables loaded, the loop copies `TriangleCount` triangles of the
   * voxel's row, and every index it reads is an edge marked in
   * `edge_cases[c]`, so no triangle uses a vertex the edge loop left blank.
   */
  lemma LoadedRowsUseMarkedEdges(edgeCases: seq<bv32>, triangleCases: seq<int>, c: int)
    requires Loaded(edgeCases, triangleCases) && 0 <= c < 256
    ensures forall k :: c * 16 <= k < c * 16 + 3 * SlotsUsed(triangleCases, c * 16, 0) ==>
      IsEdgeOf(triangleCases[k], edgeCases[c])
  {
    LoadedRowCount(edgeCases, triangleCases, c);
  }

  /** With the tables loaded, the loop copies `TriangleCount` triangles of row `c`. */
  lemma LoadedRowCount(edgeCases: seq<bv32>, triangleCases: seq<int>, c: int)
    requires Loaded(edgeCases, triangleCases) && 0 <= c < 256
    ensures SlotsUsed(triangleCases, c * 16, 0) == TriangleCount(TriangleRow(c))
    ensures forall k :: c * 16 <= k < c * 16 + 3 * TriangleCount(TriangleRow(c)) ==>
      IsEdgeOf(triangleCases[k], edgeCases[c])
  {
    var r := TriangleRow(c);
    TrianglesUseMarkedEdges(c);
    LoadedRow(edgeCases, triangleCases, c);
    SlotsUsedCount(triangleCases, c * 16, r, 0);
    forall k | c * 16 <= k < c * 16 + 3 * TriangleCount(r)
      ensures IsEdgeOf(triangleCases[k], edgeCases[c])
    {
      EmittedEntry(r, EdgeCase(c), k - c * 16);
      assert triangleCases[c * 16 + (k - c * 16)] == Entry(r, k - c * 16);
    }
  }

  /**
   * With the tables loaded, a voxel of case `c` writes, in the first
   * `3 * TriangleCount` slots of its block, the vertex interpolated on edge
   * `TRIANGLE_CASES[c * 16 + k]`, an edge that `EDGE_CASES[c]` marks, and
   * nothing anywhere else.
   */
  lemma VoxelOutputOnTables(s: Shader, id: Invocation, ds: seq<Density>, edgeCases: seq<bv32>, triangleCases: seq<int>,
                            c: int, k: int, previous: Vertex)
    requires |ds| == 8 && Loaded(edgeCases, triangleCases) && 0 <= c < 256
    ensures var r := TriangleRow(c);
      if c == 0 || c == 255 || !(0 <= k < 3 * TriangleCount(r)) then
        VoxelOutput(s, id, ds, edgeCases, triangleCases, c, k, previous) == previous
      else
        IsEdgeOf(Entry(r, k), EdgeCase(c)) &&
        VoxelOutput(s, id, ds, edgeCases, triangleCases, c, k, previous) == EdgePoint(s, id, ds, Entry(r, k))
  {
    var r := TriangleRow(c);
    LoadedRowCount(edgeCases, triangleCases, c);
    LoadedRow(edgeCases, triangleCases, c);
    if c != 0 && c != 255 && 0 <= k < 3 * TriangleCount(r) {
      assert triangleCases[c * 16 + k] == Entry(r, k);
      assert IsEdgeOf(triangleCases[c * 16 + k], edgeCases[c]);
    }
  }

  /**
   * The triangle loop over row `c` of `triangle_cases`: copy the vertices it
   * names into the block at `indexOffset`, three at a time, stopping at the
   * first -1.  Block slots past the triangles and the rest of the buffer are
   * left alone.
   */
  method EmitTriangles(vertices: array<Vertex>, indexOffset: int, triangleCases: array<int>, c: int,
                       edgeVertices: array<Vertex>)
    requires 0 <= c < 256 && triangleCases.Length == 4096
    requires forall k :: c * 16 <= k < c * 16 + 3 * SlotsUsed(triangleCases[..], c * 16, 0) ==> 0 <= triangleCases[k] < 12
    requires 0 <= indexOffset && indexOffset + 15 <= vertices.Length
    requires edgeVertices.Length == 12 && edgeVertices != vertices
    modifies vertices
    ensures forall j :: 0 <= j < vertices.Length ==>
      if indexOffset <= j < indexOffset + 3 * SlotsUsed(triangleCases[..], c * 16, 0)
      then vertices[j] == edgeVertices[triangleCases[c * 16 + (j - indexOffset)]]
      else vertices[j] == old(vertices[j])
  {
    ghost var count := SlotsUsed(triangleCases[..], c * 16, 0);
    var i := 0;
    ghost var t := 0;
    while i < 15
      invariant 0 <= t <= count && i == 3 * t
      invariant forall j :: 0 <= j < vertices.Length && !(indexOffset <= j < indexOffset + i) ==>
        vertices[j] == old(vertices[j])
      invariant forall j :: indexOffset <= j < indexOffset + i ==>
        vertices[j] == edgeVertices[triangleCases[c * 16 + (j - indexOffset)]]
    {
      var idx0 := triangleCases[c * 16 + i];
      if idx0 < 0 {
        assert !Opens(triangleCases[..], c * 16, t);
        break;
      }
      assert Opens(triangleCases[..], c * 16, t);
      var idx1 := triangleCases[c * 16 + i + 1];
      var idx2 := triangleCases[c * 16 + i + 2];
      vertices[indexOffset + i] := edgeVertices[idx0];
      vertices[indexOffset + i + 1] := edgeVertices[idx1];
      vertices[indexOffset + i + 2] := edgeVertices[idx2];
      i, t := i + 3, t + 1;
    }
  }

  /**
   * The part of `main` after the early return, for a voxel of case `c` that
   * is neither empty nor full: look up `edge_case`, interpolate the marked
   * edges and copy the row's triangles into the voxel's block.
   */
  method MeshVoxel(s: Shader, id: Invocation, densities: array<Density>, c: int,
                   edgeCases: array<bv32>, triangleCases: array<int>, vertices: array<Vertex>)
    requires densities.Length == 8 && 0 < c < 255
    requires InGrid(id) && vertices.Length == VertexCount && Loaded(edgeCases[..], triangleCases[..])
    modifies vertices
    ensures forall j :: 0 <= j < vertices.Length ==>
      vertices[j] == VoxelOutput(s, id, densities[..], edgeCases[..], triangleCases[..], c, j - IndexOffset(id), old(vertices[j]))
  {
    var edgeCase := edgeCases[c];
    var edgeVertices := InterpolateEdges(s, id, densities, edgeCase);
    var indexOffset := (id.x + id.y * Grid.x + id.z * (Grid.x * Grid.y)) * MaxVerticesPerVoxel;
    IndexOffsetInBuffer(id);
    LoadedRowsUseMarkedEdges(edgeCases[..], triangleCases[..], c);
    EmitTriangles(vertices, indexOffset, triangleCases, c, edgeVertices);
  }

  /**
   * The kernel `main` for one invocation, reading the bound buffers: the
   * vertex buffer afterwards is `KernelOutput` slot by slot.
   */
  method KernelMain(s: Shader, globalOffset: Vec3, id: Invocation,
                    edgeCases: array<bv32>, triangleCases: array<int>, vertices: array<Vertex>)
    requires InGrid(id) && vertices.Length == VertexCount && Loaded(edgeCases[..], triangleCases[..])
    modifies vertices
    ensures forall j :: 0 <= j < vertices.Length ==>
      vertices[j] == KernelOutput(s, globalOffset, id, edgeCases[..], triangleCases[..], j, old(vertices[j]))
  {
    var densities := SampleCorners(s, globalOffset, id);
    var cubeCase := ComputeCubeCase(densities);
    var c := cubeCase as int;
    if c == 0 || c == 255 {
      return;
    }
    MeshVoxel(s, id, densities, c, edgeCases, triangleCases, vertices);
  }

  // ---------------------------------------------------------------------
  // Terrain chunks
  // ---------------------------------------------------------------------

  /** The `global_offset` of terrain chunk `i` in `createScene`. */
  function ChunkOffset(i: int): Dims {
    Dims(((i / 64) % 8) * Grid.x, ((i / 8) % 8) * Grid.y, (i % 8) * Grid.z)
  }

  /** The voxel at local cell `id` of chunk `i`, in world cells. */
  function WorldCell(i: int, id: Invocation): Dims {
    var o := ChunkOffset(i);
    Dims(o.x + id.x, o.y + id.y, o.z + id.z)
  }

  predicate InWorld(p: Dims) {
    0 <= p.x < 64 && 0 <= p.y < 32 && 0 <= p.z < 64
  }

  /** The chunk that holds world cell `p`, and the cell's place inside it. */
  function ChunkOf(p: Dims): int {
    (p.x / 8) * 64 + (p.y / 4) * 8 + p.z / 8
  }

  function LocalCell(p: Dims): Invocation
    requires InWorld(p)
  {
    Invocation(p.x % 8, p.y % 4, p.z % 8)
  }

  /** Every voxel of every chunk lies in the box `[0, 64) x [0, 32) x [0, 64)`. */
  lemma ChunkInWorld(i: int, id: Invocation)
    requires 0 <= i < 512 && InGrid(id)
    ensures InWorld(WorldCell(i, id))
  {
    DemoGrid();
  }

  /** The base-8 digits of a chunk number. */
  lemma ChunkDigits(a: int, b: int, c: int)
    requires 0 <= a < 8 && 0 <= b < 8 && 0 <= c < 8
    ensures var i := 64 * a + 8 * b + c; i / 64 == a && (i / 8) % 8 == b && i % 8 == c
  {
    var i := 64 * a + 8 * b + c;
    assert i == 8 * (8 * a + b) + c;
    assert i / 8 == 8 * a + b;
    assert i == 64 * a + (8 * b + c) && 8 * b + c < 64;
  }

  /** Each cell of the box is a voxel of chunk `ChunkOf(p)`. */
  lemma CellInChunk(p: Dims)
    requires InWorld(p)
    ensures 0 <= ChunkOf(p) < 512 && WorldCell(ChunkOf(p), LocalCell(p)) == p && InGrid(LocalCell(p))
  {
    DemoGrid();
    var a, b, c := p.x / 8, p.y / 4, p.z / 8;
    assert 0 <= a < 8 && 0 <= b < 8 && 0 <= c < 8;
    ChunkDigits(a, b, c);
    var i := ChunkOf(p);
    assert i == 64 * a + 8 * b + c;
    assert ChunkOffset(i) == Dims(a * 8, b * 4, c * 8);
    assert p.x == 8 * a + p.x % 8 && p.y == 4 * b + p.y % 4 && p.z == 8 * c + p.z % 8;
  }

  /** Division by one of the grid's constants recovers quotient and remainder. */
  lemma QuotientRemainder(q: int, r: int, d: int)
    requires 0 <= q && 0 <= r < d && (d == 4 || d == 8 || d == 64)
    ensures (d * q + r) / d == q && (d * q + r) % d == r
  {
    if d == 4 {
      assert d * q + r == 4 * q + r;
    } else if d == 8 {
      assert d * q + r == 8 * q + r;
    } else {
      assert d * q + r == 64 * q + r;
    }
  }

  /** ... and of no other chunk, at no other local cell. */
  lemma ChunkUnique(i: int, id: Invocation)
    requires 0 <= i < 512 && InGrid(id)
    ensures InWorld(WorldCell(i, id))
    ensures ChunkOf(WorldCell(i, id)) == i && LocalCell(WorldCell(i, id)) == id
  {
    DemoGrid();
    ChunkInWorld(i, id);
    var j, c := i / 8, i % 8;
    var a, b := j / 8, j % 8;
    assert i == 64 * a + (8 * b + c);
    QuotientRemainder(a, 8 * b + c, 64);
    assert 0 <= a < 8;
    QuotientRemainder(0, a, 8);
    assert ChunkOffset(i) == Dims(8 * a, 4 * b, 8 * c);
    var p := WorldCell(i, id);
    assert p == Dims(8 * a + id.x, 4 * b + id.y, 8 * c + id.z);
    QuotientRemainder(a, id.x, 8);
    QuotientRemainder(b, id.y, 4);
    QuotientRemainder(c, id.z, 8);
  }

  /** The 512 chunk offsets are pairwise distinct. */
  lemma ChunkOffsetsDistinct(i: int, k: int)
    requires 0 <= i < 512 && 0 <= k < 512 && i != k
    ensures ChunkOffset(i) != ChunkOffset(k)
  {
    DemoGrid();
    var origin := Invocation(0, 0, 0);
    ChunkUnique(i, origin);
    ChunkUnique(k, origin);
    assert WorldCell(i, origin) == ChunkOffset(i) && WorldCell(k, origin) == ChunkOffset(k);
  }
}
