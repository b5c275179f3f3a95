# Wireframe mesh builders of sphere_in_torus, in Dafny

This project models the vertex data of the sphere-in-torus WebGPU demo
(`sphere_in_torus/src/vertex_data.ts`):

- `SphereWireframeData(radius, u, v, center, color)` and
  `TorusWireframeData(R, r, N, n, center, color)`. Each samples a U x V grid
  of surface points. For the sphere the angles are `i * 180 / (u - 1)` and
  `j * 360 / (v - 1)`; for the torus they are `i * 360 / (N - 1)` and
  `j * 360 / (n - 1)`. Each then walks the (U-1) x (V-1) cells row by row and
  pushes one chunk of 6-float vertex records (position xyz, color rgb) per
  cell. The sphere's chunk is `p0, p1, p0, p3`; the torus's chunk is
  `p0, p1, p3, p0, p2, p1`. The chunks are flattened into one line-list
  buffer. A resolution below 2 gives `undefined`.
- The constant tables `CubeData1` (8 vertex records and a 36-entry index
  list) and `CubeData` (36 positions and 36 colors, written out face by face).
- The caller in `main.ts` that builds the two meshes with the scene's
  constants and takes `length / 6` as the vertex count of each draw call.

Files:

- `layout.dfy` (module `VertexLayout`): the vertex record and the chunk of
  records pushed per cell (`Records`), the flattening of chunks, and the row-major numbering of cell vertices (`SlotOf`,
  `VertexIndex`).
- `wireframe.dfy` (module `WireframeData`): the grid sampling and emission
  loops as methods, and the lemmas about them.
- `cube.dfy` (module `CubeTables`): the two literal tables and their lemmas.
- `scene.dfy` (module `SceneSetup`): the mesh setup of `main.ts`.

The surface samplers `SpherePosition` and `TorusPosition` are parameters of
the builders. They have the source's argument order and can be any function
of that shape. So everything proved here is about where sampled points and
colors land in the buffer, not about their coordinates. `undefined` is
`None` of an `Option`. A `Float32Array` is a `seq<real>`. The array literal
pushed for a cell is `Records([p0, p1, p0, p3], color)` (sphere) or
`Records([p0, p1, p3, p0, p2, p1], color)` (torus): the floats
`p[0], p[1], p[2], color[0], color[1], color[2]` of each listed point in
turn. The default arguments (`center = [0, 0, 0]`, sphere color `[0, 1, 1]`, torus color
`[1, 1, 1]`) are Dafny default parameter values.

The builders' postconditions describe the whole buffer. Its length is exact.
Every vertex `m` holds the color argument and the sampled grid point
`SphereCorner(m)` or `TorusCorner(m)`. Those functions name the cell of
vertex `m` and the corner it takes within that cell.

Under line-list topology the six vertices `p0, p1, p3, p0, p2, p1` of a torus
cell are three segments, p0-p1, p3-p0 and p2-p1, not two triangle loops. All
three are grid edges and none is a diagonal (`TorusLinesAreGridEdges`). The
quad's fourth edge, p3-p2, is the p0-p1 segment of the next cell in the row;
in the last column it is drawn only because column n-1 repeats column 0, which
holds when the sampler is 360°-periodic (`TorusGridCloses`).

## Model

| member | source | states |
|---|---|---|
| `VertexLayout.RecordRoundTrip` | sphere_in_torus/src/vertex_data.ts:172 | a record appended to a whole number of records reads back as its position (floats 0..2) and its color (floats 3..5) |
| `VertexLayout.ReadPrefix` | sphere_in_torus/src/vertex_data.ts:171-176 | pushing more floats onto a buffer leaves the position and color of every record already in it unchanged |
| `VertexLayout.Records` | sphere_in_torus/src/vertex_data.ts:171-176 | the chunk pushed for a cell holds 6 floats per listed point (24 for the sphere's 4 points, 36 for the torus's 6) |
| `VertexLayout.RecordsAt` | sphere_in_torus/src/vertex_data.ts:203-210 | record `k` of a chunk `p[0], p[1], p[2], color[0], color[1], color[2], ...` appended to a buffer of whole records reads back as the `k`-th listed point, in the chunk's color |
| `VertexLayout.FlattenPush` | sphere_in_torus/src/vertex_data.ts:179 | flattening after pushing one more chunk gives the old flattening followed by that chunk's floats |
| `VertexLayout.SlotOf` | sphere_in_torus/src/vertex_data.ts:166-167 | every vertex number has a cell `(row, col)` with `col` inside the row and a slot `k` inside the cell's chunk, and numbering that slot row-major gives the vertex number back |
| `VertexLayout.IndexRoundTrip` | sphere_in_torus/src/vertex_data.ts:166-167 | taking the slot of a slot's row-major number gives the same slot back (the inverse direction of SlotOf) |
| `VertexLayout.SlotRowBound` | sphere_in_torus/src/vertex_data.ts:166 | a vertex numbered below rows x width x perCell lies in one of the first `rows` rows of cells |
| `VertexLayout.VertexIndexBound` | sphere_in_torus/src/vertex_data.ts:166-167 | every slot of a rows x width grid of cells is numbered below rows x width x perCell |
| `WireframeData.AngleSweep` | sphere_in_torus/src/vertex_data.ts:158 | the first grid index is sampled at 0 degrees and the last one at the full range (180 or 360) |
| `WireframeData.AngleMonotone` | sphere_in_torus/src/vertex_data.ts:189 | sample angles stay within [0, range] and grow with the grid index |
| `WireframeData.SampleGrid` | sphere_in_torus/src/vertex_data.ts:153-162 | the sampled grid has `rows` rows of `cols` points, and point `(a, b)` is the sampler at angles `a * range1 / (rows - 1)` and `b * range2 / (cols - 1)` (the torus's loops at lines 184-193 are the same, with ranges 360 and 360) |
| `WireframeData.SphereCorner` | sphere_in_torus/src/vertex_data.ts:168-170 | the grid point a sphere vertex reads, `pts[i][j]`, `pts[i + 1][j]` or `pts[i][j + 1]`, always lies inside the u x v grid |
| `WireframeData.SphereEmitStep` | sphere_in_torus/src/vertex_data.ts:171-176 | pushing the chunk `p0, p1, p0, p3` of cell `(i, j)` extends a buffer that holds the first `i * (v - 1) + j` cells by exactly that cell |
| `WireframeData.EmitSphereLines` | sphere_in_torus/src/vertex_data.ts:164-179 | the flattened buffer has `(u - 1) * (v - 1) * 4 * 6` floats; vertex `m` holds `pts` at SphereCorner(m) and the color argument |
| `WireframeData.SphereWireframeData` | sphere_in_torus/src/vertex_data.ts:151-180 | no buffer exactly when `u < 2 or v < 2`; otherwise `(u - 1) * (v - 1) * 4 * 6` floats, where vertex `m` holds `SpherePosition(radius, i * 180 / (u - 1), j * 360 / (v - 1), center)` for `(i, j)` = SphereCorner(m), and `color` |
| `WireframeData.SphereCellCorners` | sphere_in_torus/src/vertex_data.ts:166-176 | slot `k` of cell `(i, j)` is vertex `4 * (i * (v - 1) + j) + k` of the buffer, and it reads the `k`-th of the grid points `(i, j)`, `(i + 1, j)`, `(i, j)`, `(i, j + 1)` |
| `WireframeData.SphereLinesAreGridEdges` | sphere_in_torus/src/vertex_data.ts:171-176 | every line (vertices `2t`, `2t + 1`) of the sphere buffer joins two neighbouring grid points |
| `WireframeData.SphereGridCloses` | sphere_in_torus/src/vertex_data.ts:158 | if the sampler repeats every 360 degrees of the second angle, column `v - 1` of the sphere grid equals column 0 |
| `WireframeData.TorusCorner` | sphere_in_torus/src/vertex_data.ts:199-202 | the grid point a torus vertex reads, one of `p0 .. p3`, always lies inside the N x n grid |
| `WireframeData.TorusEmitStep` | sphere_in_torus/src/vertex_data.ts:203-210 | pushing the chunk of cell `(i, j)` extends a buffer that holds the first `i * (n - 1) + j` cells by exactly that cell |
| `WireframeData.EmitTorusLines` | sphere_in_torus/src/vertex_data.ts:195-214 | the flattened buffer has `(N - 1) * (n - 1) * 6 * 6` floats; vertex `m` holds `pts` at TorusCorner(m) and the color argument |
| `WireframeData.TorusWireframeData` | sphere_in_torus/src/vertex_data.ts:182-215 | no buffer exactly when `n < 2 or N < 2`; otherwise `(N - 1) * (n - 1) * 6 * 6` floats, where vertex `m` holds `TorusPosition(R, r, i * 360 / (N - 1), j * 360 / (n - 1), center)` for `(i, j)` = TorusCorner(m), and `color` |
| `WireframeData.TorusCellCorners` | sphere_in_torus/src/vertex_data.ts:197-210 | slot `k` of cell `(i, j)` is vertex `6 * (i * (n - 1) + j) + k` of the buffer, and it reads the `k`-th of `p0, p1, p3, p0, p2, p1`, where `p0 = (i, j)`, `p1 = (i + 1, j)`, `p2 = (i + 1, j + 1)` and `p3 = (i, j + 1)` |
| `WireframeData.TorusLinesAreGridEdges` | sphere_in_torus/src/vertex_data.ts:203-210 | every line of the torus buffer joins two neighbouring grid points: the segments are p0-p1, p3-p0 and p2-p1, with no diagonal |
| `WireframeData.TorusGridCloses` | sphere_in_torus/src/vertex_data.ts:189 | if the sampler repeats every 360 degrees in each angle, row `N - 1` equals row 0 and column `n - 1` equals column 0 |
| `CubeTables.CubeData1` | sphere_in_torus/src/vertex_data.ts:5-42 | 8 vertex records of 6 floats and 36 indices, each below 8 |
| `CubeTables.CubeData` | sphere_in_torus/src/vertex_data.ts:44-149 | 108 floats of positions and 108 of colors, i.e. 36 corners x 3 |
| `CubeTables.AllCornersAgree` | sphere_in_torus/src/vertex_data.ts:45-93 | each of the 36 entries of the index list names a vertex below 8, and that vertex's position is the corresponding corner of CubeData's positions |
| `CubeTables.CubeTablesAgree` | sphere_in_torus/src/vertex_data.ts:18-36 | the two tables describe the same 12 triangles: corner `t` of CubeData is the position of the vertex that CubeData1's index `t` names |
| `CubeTables.CubeData1ColorsArePositions` | sphere_in_torus/src/vertex_data.ts:6-16 | each corner's color is its position mapped from [-1, 1] to [0, 1] |
| `CubeTables.CubeData1TrianglesAreProper` | sphere_in_torus/src/vertex_data.ts:18-36 | the index list is 12 triangles, each naming three different vertices |
| `CubeTables.AllCornersOnFaces` | sphere_in_torus/src/vertex_data.ts:95-143 | each of the 36 corners carries its face's color and lies in its face's plane |
| `CubeTables.CubeDataFaces` | sphere_in_torus/src/vertex_data.ts:45-143 | CubeData is six faces of six corners: corner `t` has the color of face `t / 6` (blue, red, yellow, aqua, green, fuchsia) and lies in that face's plane (front z = 1, right x = 1, back z = -1, left x = -1, top y = 1, bottom y = -1) |
| `SceneSetup.CreateWireframeMeshes` | sphere_in_torus/src/main.ts:11-23 | with R = 2, r = 0.5, N = n = 20 and a sphere of radius 0.4 at u = v = 20, the torus has 19 x 19 x 6 = 2166 vertices and the sphere 19 x 19 x 4 = 1444, all red and all green respectively |

## Left out

- The rest of `main.ts`. It is WebGPU plumbing: device and pipeline creation, uniform buffer and bind groups, textures, render passes and `queue.writeBuffer`. It is not part of this model.
- The per-frame transform and orbit math in `draw`. These are gl-matrix calls (`mat4.rotate`, `mat4.getRotation`, `mat4.fromQuat`, `mat4.multiply`) over floating-point trigonometry, so they are foreign calls. The unused `performance.now()` angle is left out too.
- The animation driver `CreateAnimation` and the re-initialisation on window resize. These are event plumbing from a helper module that is not part of this model.
- The bodies of `SpherePosition` and `TorusPosition`. `math-func.ts` is not part of this model, so the samplers are arbitrary function parameters. The only coordinate facts are grid closure, proved under an explicit 360° periodicity assumption on the sampler: `SphereGridCloses` (column v-1 equals column 0) and `TorusGridCloses` (row N-1 equals row 0, column n-1 equals column 0). Nothing is stated about points lying on a sphere or torus. `CylinderPosition` and `ConePosition` are imported but never used.
- `Float32Array` and double-precision rounding. Buffers hold exact reals, and the angle `i * 180 / (u - 1)` is exact real division.
- Non-integer resolutions. `u`, `v`, `N` and `n` are JavaScript numbers; here they are integers. A value such as 2.5 passes the guard in the source and changes the loop counts; this model does not cover that case.
- The 32-bit width of `Uint32Array`. The index list is a `seq<nat>`; all its entries are below 8 anyway.
