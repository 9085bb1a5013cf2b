# Voxels to mesh: a Dafny model of niivue-mesh's marching-cubes.js

This project models `voxels2mesh` from marching-cubes.js and the stages it runs, and proves
properties of them. `voxels2mesh` turns a scalar voxel volume into a triangle mesh in these stages:

1. The dimension guard.
2. The shift applied for a negative isovalue.
3. `zeroVolumeEdges`.
4. `largestClusterOnly`, if asked for.
5. `fillBubbles`, if asked for. It runs `fillh`, a FIFO-queue flood fill.
6. Table-driven marching cubes into a growable float buffer (`CustomBuffer`).
7. Vertex welding (`unifyVertices`).
8. `cullDegenerateTriangles`.
9. Smoothing.
10. The voxel-to-world affine (`verticesVox2mm`). When the affine's determinant is not positive, the faces are reversed.

Volumes are flat `seq<real>` in x-fastest order. Vertices are `Vec3` records and triangles are
`Tri(a, b, c)` records. The marching-cubes output stays a flat float sequence, as the buffer
holds it. `Unflatten` reads it back as vertices.

Modules, one per file:

- `Wrappers` (wrappers.dfy): `Result` and `Option`, and the thrown errors as `MeshError`.
- `Grid` (grid.dfy): dimensions, flat indexing and border voxels.
- `Masks` (masks.dfy): counting and ordering boolean masks.
- `Geometry` (geometry.dfy): `Vec3`, boxes, and the flat float layout.
- `CubeEdges` (cube_edges.dfy): the edge and corner tables, and what a triangle table must satisfy.
- `Tables` (tables.dfy): the 256-row `triTable`, checked row by row.
- `Buffers` (buffer.dfy): `CustomBuffer`.
- `Cubes` (cubes.dfy): `marchingCubesJS`.
- `ZeroEdges` (zero_edges.dfy): `zeroVolumeEdges`.
- `FloodFill` (flood_fill.dfy): `fillh`.
- `Bubbles` (bubbles.dfy): `fillBubbles`.
- `Clusters` (cluster.dfy): `largestClusterOnly` and the negative-isovalue shift.
- `Meshes` (cull.dfy): triangles, meshes and `cullDegenerateTriangles`.
- `Weld` (weld.dfy): `unifyVertices`.
- `WeldSplit` (weld_split.dfy): a concrete welding counterexample.
- `Orient` (orient.dfy): `isPositiveDeterminant`, `reverseMeshFaces` and `verticesVox2mm`.
- `Pipeline` (pipeline.dfy): `voxels2mesh` over any valid table.
- `Driver` (driver.dfy): `voxels2mesh` over the source's table.

Three things outside the file become parameters:

- `labeler` is the connected-component labeler, from a mask to the label of each voxel index.
- `smooth` is the smoothing arithmetic, from the mesh to the new position of each vertex.
- `root` stands for `Math.sqrt` in the welding keys.

Some behaviours of marching-cubes.js worth knowing when reading the contracts:

- `fillBubbles` raises every voxel of the filled mask to `max(v, isovalue + 1)`, foreground voxels too, whenever the fill found a cavity. It does not raise only the cavity voxels. See `Bubbles.FillBubbles`.
- `fillh` leaves positive voxels alone, but it treats negative voxels as open space. So "nonzero voxels never change" holds only for positive voxels.
- `voxels2mesh` shifts the volume and the isovalue when the isovalue is negative and some voxel is below 0. The pipeline includes that shift.
- `voxels2mesh` welds with `unifyVertices` as written, which can recapture vertices an earlier leader already grouped. The pipeline uses that welding, `Weld.UnifyVerticesAsWritten`. It does not guarantee that equal vertices end up as one output vertex; see Findings. `Weld.UnifyVertices` is the corrected welding, which does.

## Model

| member | source | states |
|---|---|---|
| Tables.TriTableValid | marching-cubes.js:10-267 | Every row of triTable has 16 entries. Each row lists a whole number of triangles, at most five, ended by -1. Every listed edge crosses the isovalue in that row's case: its two corners fall on different sides. |
| Cubes.UniformCaseEmpty | marching-cubes.js:10-267 | In any valid table, and so in triTable, cases 0 and 255, where all corners are on one side, list no edges. |
| CubeEdges.EdgeCount | marching-cubes.js:412 | The number of edges a row lists is the position of its first -1: every earlier entry is not -1. |
| Buffers.NewBuffer | marching-cubes.js:319-341 | A new buffer has the requested capacity and no contents. |
| Buffers.Clear | marching-cubes.js:356-358 | clear empties the contents and keeps the storage. |
| Buffers.GrownCapacity | marching-cubes.js:345 | Growth takes the floor of 1.5 times the capacity: never smaller, and strictly larger from capacity 2 up. |
| Buffers.Append | marching-cubes.js:343-354 | append grows once, by half, when the chunk reaches the capacity. It then succeeds exactly when the chunk fits; otherwise the typed-array write raises a range error. On success the contents are the old contents followed by the chunk, and the slots past the end are the old storage or zeros. |
| Buffers.StartReady | marching-cubes.js:377-379 | The buffer marching cubes starts with, capacity 3 and cleared, can take a 3-float vertex. |
| Buffers.Append3Safe | marching-cubes.js:343-354 | Appending 3 floats at a time to such a buffer never raises and keeps it ready for the next vertex. |
| Grid.CoordsOfIdx | marching-cubes.js:301 | The coordinates of an in-grid voxel are recovered from its flat index. |
| Grid.IdxOfCoords | marching-cubes.js:301 | Every flat index in range is the index of exactly the in-grid voxel whose coordinates it encodes. |
| Grid.IdxInjectiveAll | marching-cubes.js:301 | Distinct in-grid voxels have distinct flat indices. |
| Cubes.CaseIndex | marching-cubes.js:386-391 | Bit v of the case index is set exactly when corner v is at or below the isovalue. |
| Cubes.CaseIndexLoop | marching-cubes.js:386-391 | The source's OR-loop over the 8 corners computes that case index. |
| Cubes.UniformIndex | marching-cubes.js:386-391 | No bit set means case 0, and every bit set means case 255. |
| Cubes.CornerValues | marching-cubes.js:296-304 | The 8 corner values of a cell are voxels of the volume. |
| Cubes.LerpTUnit | marching-cubes.js:306-316 | On an edge that crosses the isovalue, the interpolation parameter lies in [0, 1], including the near-flat case where it is 0. |
| Cubes.LerpHitsIso | marching-cubes.js:306-316 | When the end values differ by at least 0.0001, interpolation lands exactly on the isovalue. |
| Cubes.EdgePointInCell | marching-cubes.js:413-416 | The point placed on a crossing edge lies inside the unit cube. |
| Cubes.CrossingPoints | marching-cubes.js:412-423 | After the dual-grid shift by (i, j, k) + 0.5, every emitted point lies in that cell's dual box. |
| Cubes.ListedEdges | marching-cubes.js:412 | The edges a valid table lists for a case are whole triangles of edges that cross in that case. |
| Cubes.CellVerts | marching-cubes.js:385-424 | A cell emits a whole number of triangles, at most 15 vertices, all in its dual box. A volume on one side of the isovalue emits nothing. |
| Cubes.CellVertsOfRow | marching-cubes.js:412-424 | The vertices a cell emits are the table row's edges before the -1, interpolated in order. |
| Cubes.VolumeVerts | marching-cubes.js:380-426 | The triple loop over cells emits a whole number of triangles, all inside [0.5, n - 0.5] on each axis. |
| Cubes.EmitCell | marching-cubes.js:412-424 | Appending one cell's vertices to the buffer adds exactly their floats, in order, and keeps the buffer ready. |
| Cubes.MarchingCubes | marching-cubes.js:373-429 | marchingCubesJS returns the flattened triangle soup. Its length is a multiple of 9 and every vertex is in the dual grid. A volume on one side of the isovalue gives an empty result. |
| Geometry.FlattenRoundTrip | marching-cubes.js:914-922 | Reading the float buffer as vertices and flattening again are inverse to each other. |
| ZeroEdges.ZeroVolumeEdges | marching-cubes.js:725-755 | zeroVolumeEdges sets exactly the voxels on the six faces of the volume to 0 and leaves every other voxel unchanged. |
| ZeroEdges.ZeroSides | marching-cubes.js:728-738 | The first loop zeroes exactly the x = 0 and x = nx - 1 faces. |
| ZeroEdges.ZeroFrontBack | marching-cubes.js:739-747 | The second loop adds exactly the y = 0 and y = ny - 1 faces. |
| ZeroEdges.ZeroSlices | marching-cubes.js:748-753 | The last loop adds exactly the z = 0 and z = nz - 1 slices. |
| FloodFill.KernelSymmetric | marching-cubes.js:603-632 | The 26- and 6-neighbour kernels are symmetric: every offset's negation is also an offset. |
| FloodFill.EscapeMaskLeast | marching-cubes.js:636-677 | The reference escape mask is closed under the fill's steps. It is the least such mask, so it marks exactly what the flood can reach. |
| FloodFill.SaturateLeast | marching-cubes.js:659-677 | Saturating from the seeds never marks a voxel that some closed mask above the seeds leaves unmarked. |
| FloodFill.LoadEdges | marching-cubes.js:642-658 | Loading the edges marks every seed, that is, the open border voxels and the voxels already set. Only marked open voxels are queued, and the marks stay within any closed bound. |
| FloodFill.Flood | marching-cubes.js:659-677 | The FIFO queue ends with a mask that is closed and lies below any closed mask given as a bound. |
| FloodFill.Fillh | marching-cubes.js:593-683 | fillh returns nothing for a dimension below 3. Otherwise it sets to 1 exactly the voxels the flood did not reach. Positive voxels and border voxels keep their values. |
| Bubbles.EscapeHasForeground | marching-cubes.js:686 | Foreground voxels are never enclosed: an enclosed voxel lies below the isovalue. |
| Bubbles.CountsAgreeIffNoCavity | marching-cubes.js:687-693 | The foreground counts before and after fillh agree exactly when no voxel is enclosed. |
| Bubbles.FillBubbles | marching-cubes.js:685-705 | fillBubbles fails when fillh returns nothing. Otherwise it returns the input unchanged when nothing is enclosed, and it never lowers a voxel. Enclosed voxels become isovalue + 1, and open background voxels keep their values. When a cavity exists, every foreground voxel becomes at least isovalue + 1. |
| Bubbles.BubblesFilledIdempotent | marching-cubes.js:685-705 | Filling bubbles twice gives the same volume as filling once. |
| Clusters.LargestClusterOnly | marching-cubes.js:707-723 | A voxel labelled 0 becomes 0, and a voxel labelled 1 keeps its value. |
| Clusters.ClusterIsForeground | marching-cubes.js:707-723 | For a positive isovalue and a labeler that returns a 0/1 cluster of the foreground, the result's foreground is exactly that cluster. A voxel at or above the isovalue in the result was so in the input. |
| Clusters.ClusterIdempotent | marching-cubes.js:707-723 | With a labeler that keeps a mask that is already one cluster, a second pass changes nothing. |
| Clusters.MinOf | marching-cubes.js:891-894 | The minimum is a lower bound of every voxel and is attained by one. |
| Clusters.ShiftKeepsThreshold | marching-cubes.js:890-902 | The shift keeps every voxel on its side of the isovalue and keeps differences between voxels. It changes nothing unless the isovalue and some voxel are negative. When it applies, no voxel is left negative and one voxel lands on 0. |
| Clusters.ShiftNegative | marching-cubes.js:890-902 | The source's minimum loop and subtraction loop compute that shift. |
| Meshes.KeepValid | marching-cubes.js:580-590 | The copy loop keeps only non-degenerate triangles, all of them from the input. |
| Meshes.KeepValidCount | marching-cubes.js:563-575 | The count of kept triangles equals the input's exactly when all are valid, and is zero exactly when all are degenerate. |
| Meshes.KeepValidComplete | marching-cubes.js:580-590 | Every non-degenerate input triangle is kept. |
| Meshes.Cull | marching-cubes.js:560-591 | cullDegenerateTriangles throws exactly when a non-empty list is all degenerate. An all-valid list is returned as it is, and otherwise exactly the valid triangles are kept, in order. |
| Meshes.CullIdempotent | marching-cubes.js:560-591 | Culling a culled list changes nothing. |
| Weld.RootClose | marching-cubes.js:480-486 | For a true square root, the pairwise test distance < tol holds exactly when the squared distance is below tol squared. |
| Weld.SortOrder | marching-cubes.js:467 | The stable sort visits every vertex once, in ascending key order, with ties in input order. |
| Weld.SortedStays | marching-cubes.js:467 | Keys already ascending leave the order as the identity. |
| Weld.WindowEnd | marching-cubes.js:478 | The window of a leader ends at the first key at least tol beyond its own. |
| Weld.ScanEffect | marching-cubes.js:478-490 | One leader's scan gives its group number to exactly the window vertices that pass the pairwise test. |
| Weld.GroupingFacts | marching-cubes.js:473-493 | Every vertex lands in a group whose leader is within tol of it. Without recapture, equal vertices land in the same group, and when no two vertices merge the vertices are pairwise distinct. |
| Weld.WeldWith | marching-cubes.js:450-518 | The output is never larger than the input, and the input comes back unchanged when nothing merges. Every input vertex maps to an output vertex within tol of it, and every output vertex is an input vertex. Triangle corners are moved through the remap. |
| Weld.UnifyVerticesAsWritten | marching-cubes.js:450-518 | The source's welding, with recapture, maps every vertex to an output vertex within tol. It keeps the triangle count, returns the input unchanged when nothing merges, draws every output vertex from the input, and otherwise moves each corner through the remap. |
| Weld.UnifyVertices | marching-cubes.js:450-518 | The corrected welding keeps those properties and also sends equal vertices to the same output vertex. |
| WeldSplit.RecaptureSplitsDuplicates | marching-cubes.js:473-493 | On vertices of the splitting shape, the source's welding sends two copies of one point to different output vertices. The corrected welding keeps them together. |
| WeldSplit.ExampleSplits | marching-cubes.js:450-518 | A concrete five-vertex input has that shape, given exact square roots. |
| Orient.Det | marching-cubes.js:520-529 | isPositiveDeterminant's cofactor expansion is the triple product of the affine's rows. |
| Orient.ReverseFace | marching-cubes.js:531-539 | Reversing a face keeps its first corner, swaps the other two, and keeps degeneracy. |
| Orient.ReverseTwice | marching-cubes.js:531-539 | Reversing all faces twice gives back the original faces. |
| Orient.VoxToMm | marching-cubes.js:543-551 | A vertex moves half a voxel back, then through the affine's linear part and translation. |
| Orient.VerticesVox2mm | marching-cubes.js:541-558 | Every vertex is mapped to world space. Faces are kept for a positive determinant and reversed otherwise. |
| Orient.WindingKept | marching-cubes.js:541-558 | After conversion, every face's signed volume against a mapped point equals the original times the absolute value of the determinant. So no face turns inside out. |
| Orient.TripleScales | marching-cubes.js:520-529 | The affine scales every triple product by its determinant. |
| Pipeline.Smoothed | marching-cubes.js:795-798 | Smoothing keeps the vertex count and leaves the vertices alone for fewer than one iteration. |
| Pipeline.SoupTrisCover | marching-cubes.js:915-919 | The identity triangle list uses flat entry x as vertex x, and no soup triangle repeats a vertex. |
| Pipeline.IdentityTris | marching-cubes.js:915-919 | The source's loop `triangles[i] = i` builds that identity triangle list. |
| Pipeline.WeldIndexed | marching-cubes.js:450-518 | The source's welding keeps every triangle corner inside the vertex list. |
| Pipeline.CullIndexed | marching-cubes.js:560-591 | Culling keeps every triangle corner inside the vertex list. |
| Pipeline.Vox2mmIndexed | marching-cubes.js:541-558 | The affine conversion keeps every triangle corner inside the vertex list. |
| Pipeline.Prepared | marching-cubes.js:890-909 | The volume that extraction sees has the input's length. |
| Pipeline.PrepareVolume | marching-cubes.js:890-909 | The shift, zeroVolumeEdges, largestClusterOnly and fillBubbles, run in order, give the prepared volume and isovalue. |
| Pipeline.SoupOf | marching-cubes.js:910-911 | The soup of the prepared volume is whole triangles inside the dual grid. |
| Pipeline.Cleanup | marching-cubes.js:920-930 | The stages after extraction throw "no valid triangles" exactly when the source's welding, `unifyVertices` with recapture, left every triangle degenerate. |
| Pipeline.CleanupWellFormed | marching-cubes.js:920-930 | A mesh that comes out of those stages, welded as the source welds, has distinct, in-range corners in every triangle. It has no more vertices or triangles than the soup. |
| Pipeline.MeshFromFloats | marching-cubes.js:912-930 | An empty buffer throws "no voxels survive". Otherwise the buffer is read as vertices over the identity triangles, and cleaned up with the source's welding. |
| Pipeline.MeshOfOutcomes | marching-cubes.js:877-932 | voxels2mesh throws "too small" exactly for a dimension below 3, and "no voxels survive" exactly when the soup is empty. It throws nothing else but "no valid triangles". Otherwise every triangle has distinct corners inside a non-empty vertex list. |
| Pipeline.MeshInDualGrid | marching-cubes.js:877-932 | Without smoothing and affine, every output vertex lies in the dual grid. |
| Pipeline.Voxels2MeshWith | marching-cubes.js:877-932 | The source's driver computes the functional pipeline for any valid table. |
| Driver.Voxels2Mesh | marching-cubes.js:877-932 | The driver over the source's triangle table computes the functional pipeline, and that table is valid. |

## Left out

- Float32 storage and floating-point rounding are not modelled: vertex coordinates and voxel values are exact reals, and NaN and infinities do not occur.
- Uint32 wrap-around of triangle indices is not modelled: indices are `nat`. The soup has at most 15 vertices per cell.
- Laplacian smoothing (`laplacian_smooth`, `laplacian_smoothHC`) is the parameter `smooth`. Only its early return for fewer than one iteration, and the fact that it keeps the vertex count, are modelled.
- The connected-component labeler (`BWLabeler`) is not part of this model. It is the parameter `labeler`.
- `Math.sqrt` in the welding keys is the parameter `root`. The pairwise test is stated on squared distances, and `Weld.RootClose` relates the two.
- `sortVerticesByDistance` is dead code and is left out.
- Console logging and the `isVerbose` flags are left out.
- The `dtype` choices of `CustomBuffer` other than float32 are left out, as are `stride`.
- The affine is taken as its first three rows. An `affine` that does not have four rows is `None`.
- Triangle lists are `Tri` records rather than a flat Uint32Array. The three-at-a-time loops of the source read the same triples.
- In the source the table is a global constant. The pipeline functions take it as a parameter constrained by `ValidTable`, and `Driver.Voxels2Mesh` passes the source's table.
- ZeroEdges.ZeroVolumeEdges: requires every dimension to be at least 1. With a zero dimension the source writes to indices outside the array.
- Weld.UnifyVertices: does not state that every output vertex is used by some triangle.
- Weld.UnifyVertices: does not state a minimum distance between output vertices; the sweep's windows do not guarantee one.
- Clusters.ClusterIsForeground: assumes the labeler returns a 0/1 mask inside the foreground, which is the labeler's documented contract.
- Mesh file encoders, the web worker, the UI and the mesh simplifier lie outside marching-cubes.js's pipeline and are not modelled.

## Findings

| source | as written | input that shows it | evidently intended | confidence | as-written member | corrected member |
|---|---|---|---|---|---|---|
| marching-cubes.js:478-488 | The window scan of a new leader reassigns `outIndex` and `triRemaps` for every vertex within tol, including vertices an earlier leader has already captured. | Vertices O = (0,0,0), L = (-0.0000059, 0.0000062, 0.0000134), P = (0.0000001, 0.0000018, 0.0000162), Q = (0.0000018, 0.0000001, 0.0000162), and P again. L's scan captures both copies of P but not Q. Q then leads, and its scan recaptures only the second P. The two copies of the same point end up as different output vertices. | A vertex already in a group stays there, so coincident vertices are always welded into one. | medium, not executed | Weld.UnifyVerticesAsWritten, WeldSplit.RecaptureSplitsDuplicates, WeldSplit.ExampleSplits | Weld.UnifyVertices |
