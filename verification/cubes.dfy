/**
 * Isosurface extraction (marchingCubesJS): for every cell of the grid, in z-major, then y, then x
 * order, the 8-bit case index of its corners, and for every edge its triangle-table row lists,
 * the interpolated crossing point moved onto the dual grid.
 */
module Cubes {
  import opened Grid
  import opened CubeEdges
  import opened Geometry
  import opened Buffers

  /** Number of cells along an axis with n samples: the loop bound `n - 1`, empty when n is 0. */
  function Cells(n: nat): nat {
    if n == 0 then 0 else n - 1
  }

  /** (i, j, k) is the bottom corner of a cell. */
  predicate InCells(d: Dims, i: int, j: int, k: int) {
    0 <= i < Cells(d.nx) && 0 <= j < Cells(d.ny) && 0 <= k < Cells(d.nz)
  }

  /** The sample at grid point (x, y, z). */
  function Voxel(vol: seq<real>, d: Dims, x: int, y: int, z: int): (r: real)
    requires |vol| == d.Count() && d.InGrid(x, y, z)
    ensures r in vol
  {
    IdxInRange(d, x, y, z);
    var i := Idx(d, x, y, z);
    vol[i]
  }

  /** Every corner of a cell is a grid point. */
  lemma CornerInGrid(d: Dims, i: int, j: int, k: int, v: int)
    requires InCells(d, i, j, k) && 0 <= v < 8
    ensures d.InGrid(i + CornerOffset(v).0, j + CornerOffset(v).1, k + CornerOffset(v).2)
  {
  }

  function CornerValue(vol: seq<real>, d: Dims, i: int, j: int, k: int, v: int): (r: real)
    requires |vol| == d.Count() && InCells(d, i, j, k) && 0 <= v < 8
    ensures r in vol
  {
    CornerInGrid(d, i, j, k, v);
    Voxel(vol, d, i + CornerOffset(v).0, j + CornerOffset(v).1, k + CornerOffset(v).2)
  }

  /** The corner offsets, as the source's index_to_vertex rows. */
  function CornerOffset(v: int): (o: (int, int, int))
    requires 0 <= v < 8
    ensures 0 <= o.0 <= 1 && 0 <= o.1 <= 1 && 0 <= o.2 <= 1
  {
    IndexToVertex[v]
  }

  /** computeVertexValues: the samples at the 8 corners of cell (i, j, k). */
  function CornerValues(vol: seq<real>, d: Dims, i: int, j: int, k: int): (vals: seq<real>)
    requires |vol| == d.Count() && InCells(d, i, j, k)
    ensures |vals| == 8
    ensures forall v | 0 <= v < 8 :: vals[v] in vol
  {
    seq(8, v requires 0 <= v < 8 => CornerValue(vol, d, i, j, k, v))
  }

  /** The case index: bit v is set, `index |= 1 << v`, when corner v is at or below the isovalue. */
  function CaseIndex(vals: seq<real>, iso: real): (c: bv8)
    requires |vals| == 8
    ensures forall v | 0 <= v < 8 :: Bit(c, v) <==> vals[v] <= iso
  {
    (if vals[0] <= iso then 1 else 0) | (if vals[1] <= iso then 2 else 0) |
    (if vals[2] <= iso then 4 else 0) | (if vals[3] <= iso then 8 else 0) |
    (if vals[4] <= iso then 16 else 0) | (if vals[5] <= iso then 32 else 0) |
    (if vals[6] <= iso then 64 else 0) | (if vals[7] <= iso then 128 else 0)
  }

  /** A case index with no bit set is 0, one with every bit set is 255. */
  lemma UniformIndex(c: bv8)
    ensures (forall v | 0 <= v < 8 :: !Bit(c, v)) ==> c == 0
    ensures (forall v | 0 <= v < 8 :: Bit(c, v)) ==> c == 255
  {
    if forall v | 0 <= v < 8 :: !Bit(c, v) {
      assert !Bit(c, 0) && !Bit(c, 1) && !Bit(c, 2) && !Bit(c, 3);
      assert !Bit(c, 4) && !Bit(c, 5) && !Bit(c, 6) && !Bit(c, 7);
    }
    if forall v | 0 <= v < 8 :: Bit(c, v) {
      assert Bit(c, 0) && Bit(c, 1) && Bit(c, 2) && Bit(c, 3);
      assert Bit(c, 4) && Bit(c, 5) && Bit(c, 6) && Bit(c, 7);
    }
  }

  function Abs(r: real): real {
    if r < 0.0 then -r else r
  }

  /** The interpolation parameter of lerpVerts, 0 when the two samples are within 1e-4. */
  function LerpT(fa: real, fb: real, iso: real): real {
    if Abs(fa - fb) < 0.0001 then 0.0 else (iso - fa) / (fb - fa)
  }

  /** lerpVerts: the point a fraction LerpT of the way from va to vb. */
  function Lerp(va: Vec3, vb: Vec3, fa: real, fb: real, iso: real): Vec3 {
    Add(va, Scale(LerpT(fa, fb, iso), Sub(vb, va)))
  }

  lemma DivUnit(n: real, d: real)
    requires 0.0 <= n <= d && d > 0.0
    ensures 0.0 <= n / d <= 1.0
  {
  }

  /** On an edge whose samples lie on opposite sides of the isovalue the parameter lies in [0, 1]. */
  lemma LerpTUnit(fa: real, fb: real, iso: real)
    requires (fa <= iso) != (fb <= iso)
    ensures 0.0 <= LerpT(fa, fb, iso) <= 1.0
  {
    if Abs(fa - fb) >= 0.0001 {
      if fa <= iso {
        DivUnit(iso - fa, fb - fa);
      } else {
        DivUnit(fa - iso, fa - fb);
        assert (iso - fa) / (fb - fa) == (fa - iso) / (fa - fb);
      }
    }
  }

  /** Away from the 1e-4 guard the interpolated sample is exactly the isovalue. */
  lemma LerpHitsIso(fa: real, fb: real, iso: real)
    requires Abs(fa - fb) >= 0.0001
    ensures fa + LerpT(fa, fb, iso) * (fb - fa) == iso
  {
  }

  function CornerPoint(v: int): (p: Vec3)
    requires 0 <= v < 8
    ensures p.x in {0.0, 1.0} && p.y in {0.0, 1.0} && p.z in {0.0, 1.0}
  {
    var o := CornerOffset(v);
    Vec3(o.0 as real, o.1 as real, o.2 as real)
  }

  /** The crossing point on edge e of the unit cell, for corner samples vals. */
  function EdgePoint(vals: seq<real>, iso: real, e: int): Vec3
    requires |vals| == 8 && 0 <= e < 12
  {
    var (a, b) := EdgeVertices[e];
    Lerp(CornerPoint(a), CornerPoint(b), vals[a], vals[b], iso)
  }

  lemma CoordUnit(a: real, b: real, t: real)
    requires a in {0.0, 1.0} && b in {0.0, 1.0}
    requires 0.0 <= t <= 1.0
    ensures 0.0 <= a + t * (b - a) <= 1.0
  {
  }

  /** A point a fraction t in [0, 1] of the way between two corners of the unit cell stays in it. */
  lemma BetweenCorners(pa: Vec3, pb: Vec3, t: real)
    requires pa.x in {0.0, 1.0} && pa.y in {0.0, 1.0} && pa.z in {0.0, 1.0}
    requires pb.x in {0.0, 1.0} && pb.y in {0.0, 1.0} && pb.z in {0.0, 1.0}
    requires 0.0 <= t <= 1.0
    ensures InBox(Add(pa, Scale(t, Sub(pb, pa))), Vec3(0.0, 0.0, 0.0), Vec3(1.0, 1.0, 1.0))
  {
    CoordUnit(pa.x, pb.x, t);
    CoordUnit(pa.y, pb.y, t);
    CoordUnit(pa.z, pb.z, t);
    UnitCoords(pa, pb, t);
  }

  lemma UnitCoords(pa: Vec3, pb: Vec3, t: real)
    requires 0.0 <= pa.x + t * (pb.x - pa.x) <= 1.0
    requires 0.0 <= pa.y + t * (pb.y - pa.y) <= 1.0
    requires 0.0 <= pa.z + t * (pb.z - pa.z) <= 1.0
    ensures InBox(Add(pa, Scale(t, Sub(pb, pa))), Vec3(0.0, 0.0, 0.0), Vec3(1.0, 1.0, 1.0))
  {
  }

  /** The interpolated point between two corners on opposite sides of the isovalue lies in the unit cell. */
  lemma LerpInCell(vals: seq<real>, iso: real, a: int, b: int)
    requires |vals| == 8 && 0 <= a < 8 && 0 <= b < 8
    requires (vals[a] <= iso) != (vals[b] <= iso)
    ensures InBox(Lerp(CornerPoint(a), CornerPoint(b), vals[a], vals[b], iso),
                  Vec3(0.0, 0.0, 0.0), Vec3(1.0, 1.0, 1.0))
  {
    LerpTUnit(vals[a], vals[b], iso);
    BetweenCorners(CornerPoint(a), CornerPoint(b), LerpT(vals[a], vals[b], iso));
  }

  /** On an edge that crosses in the case of vals, the crossing point lies in the unit cell. */
  lemma EdgePointInCell(vals: seq<real>, iso: real, e: int)
    requires |vals| == 8 && 0 <= e < 12
    requires Crosses(CaseIndex(vals, iso), e)
    ensures InBox(EdgePoint(vals, iso, e), Vec3(0.0, 0.0, 0.0), Vec3(1.0, 1.0, 1.0))
  {
    var (a, b) := EdgeVertices[e];
    LerpInCell(vals, iso, a, b);
  }

  /** The dual-grid offset `(i + 0.5, j + 0.5, k + 0.5)` added to the vertices of cell (i, j, k). */
  function CellOffset(i: int, j: int, k: int): Vec3 {
    Vec3(i as real + 0.5, j as real + 0.5, k as real + 0.5)
  }

  /** The dual-grid cell of cell (i, j, k): [i + 0.5, i + 1.5] x [j + 0.5, j + 1.5] x [k + 0.5, k + 1.5]. */
  predicate InDualCell(p: Vec3, i: int, j: int, k: int) {
    InBox(p, CellOffset(i, j, k), CellOffset(i + 1, j + 1, k + 1))
  }

  /** Every sample of the volume lies on the same side of the isovalue. */
  predicate Uniform(vol: seq<real>, iso: real) {
    (forall v | v in vol :: v <= iso) || (forall v | v in vol :: v > iso)
  }

  lemma ShiftedUnit(p: Vec3, i: int, j: int, k: int)
    requires InBox(p, Vec3(0.0, 0.0, 0.0), Vec3(1.0, 1.0, 1.0))
    ensures InDualCell(Add(p, CellOffset(i, j, k)), i, j, k)
  {
  }

  /** The edge ids row c of a triangle table lists before its sentinel. */
  function ListedEdges(table: seq<seq<int>>, c: bv8): (edges: seq<int>)
    requires ValidTable(table)
    ensures |edges| < 16 && |edges| % 3 == 0
    ensures forall t | 0 <= t < |edges| :: 0 <= edges[t] < 12 && Crosses(c, edges[t])
  {
    var row := table[c as int];
    assert (c as int) as bv8 == c;
    row[..EdgeCount(row)]
  }

  /** No edge crosses when all corners lie on the same side: cases 0 and 255 list no edges. */
  lemma UniformCaseEmpty(table: seq<seq<int>>, c: bv8)
    requires ValidTable(table)
    ensures c == 0 || c == 255 ==> ListedEdges(table, c) == []
  {
    var edges := ListedEdges(table, c);
    if (c == 0 || c == 255) && |edges| > 0 {
      assert false;
    }
  }

  /** The vertices of one cell: one per edge its case lists, in the row's order. */
  function CellVerts(table: seq<seq<int>>, vol: seq<real>, d: Dims, iso: real, i: int, j: int, k: int): (r: seq<Vec3>)
    requires ValidTable(table) && |vol| == d.Count() && InCells(d, i, j, k)
    ensures |r| % 3 == 0 && |r| <= 15
    ensures AllInBox(r, CellOffset(i, j, k), CellOffset(i + 1, j + 1, k + 1))
    ensures Uniform(vol, iso) ==> r == []
  {
    var vals := CornerValues(vol, d, i, j, k);
    var c := CaseIndex(vals, iso);
    var edges := ListedEdges(table, c);
    CrossingPoints(vals, iso, c, edges, i, j, k);
    UniformCorners(vol, vals, iso, c);
    UniformCaseEmpty(table, c);
    RowPoints(vals, iso, edges, CellOffset(i, j, k))
  }

  /** The vertex emitted for edge e: its crossing point moved by the dual-grid offset `off`. */
  function EdgeVertex(vals: seq<real>, iso: real, e: int, off: Vec3): Vec3
    requires |vals| == 8 && 0 <= e < 12
  {
    Add(EdgePoint(vals, iso, e), off)
  }

  /** The vertices of the listed edges, in order. */
  function RowPoints(vals: seq<real>, iso: real, edges: seq<int>, off: Vec3): (r: seq<Vec3>)
    requires |vals| == 8 && forall t | 0 <= t < |edges| :: 0 <= edges[t] < 12
    ensures |r| == |edges|
    ensures forall t | 0 <= t < |r| :: r[t] == EdgeVertex(vals, iso, edges[t], off)
  {
    seq(|edges|, t requires 0 <= t < |edges| => EdgeVertex(vals, iso, edges[t], off))
  }

  lemma CrossingPoints(vals: seq<real>, iso: real, c: bv8, edges: seq<int>, i: int, j: int, k: int)
    requires |vals| == 8 && c == CaseIndex(vals, iso)
    requires forall t | 0 <= t < |edges| :: 0 <= edges[t] < 12 && Crosses(c, edges[t])
    ensures forall t | 0 <= t < |edges| ::
              InDualCell(EdgeVertex(vals, iso, edges[t], CellOffset(i, j, k)), i, j, k)
  {
    forall t | 0 <= t < |edges|
      ensures InDualCell(EdgeVertex(vals, iso, edges[t], CellOffset(i, j, k)), i, j, k)
    {
      EdgePointInCell(vals, iso, edges[t]);
      ShiftedUnit(EdgePoint(vals, iso, edges[t]), i, j, k);
    }
  }

  /** When the whole volume lies on one side of the isovalue, so do a cell's corners: case 0 or 255. */
  lemma UniformCorners(vol: seq<real>, vals: seq<real>, iso: real, c: bv8)
    requires |vals| == 8 && c == CaseIndex(vals, iso)
    requires forall v | 0 <= v < 8 :: vals[v] in vol
    ensures Uniform(vol, iso) ==> c == 0 || c == 255
  {
    UniformIndex(c);
    if forall v | v in vol :: v <= iso {
      assert forall v | 0 <= v < 8 :: Bit(c, v);
    } else if forall v | v in vol :: v > iso {
      assert forall v | 0 <= v < 8 :: !Bit(c, v);
    }
  }

  /** Concatenating two whole runs of triangles gives a whole run of triangles. */
  lemma WholeTriangles(a: seq<Vec3>, b: seq<Vec3>)
    requires |a| % 3 == 0 && |b| % 3 == 0
    ensures |a + b| % 3 == 0
  {
    assert |a + b| == 3 * (|a| / 3 + |b| / 3);
  }

  /** The vertices of cells 0 .. n - 1 of row (j, k), in the source's x order. */
  function RowVerts(table: seq<seq<int>>, vol: seq<real>, d: Dims, iso: real, j: int, k: int, n: nat): (r: seq<Vec3>)
    requires ValidTable(table) && |vol| == d.Count() && 0 <= j < Cells(d.ny) && 0 <= k < Cells(d.nz) && n <= Cells(d.nx)
    ensures |r| % 3 == 0
    ensures AllInBox(r, CellOffset(0, j, k), CellOffset(n, j + 1, k + 1))
    ensures Uniform(vol, iso) ==> r == []
    decreases n
  {
    if n == 0 then []
    else
      var a := RowVerts(table, vol, d, iso, j, k, n - 1);
      var b := CellVerts(table, vol, d, iso, n - 1, j, k);
      WholeTriangles(a, b);
      AllInBoxAppend(a, b, CellOffset(0, j, k), CellOffset(n - 1, j + 1, k + 1),
                     CellOffset(n - 1, j, k), CellOffset(n, j + 1, k + 1), CellOffset(0, j, k), CellOffset(n, j + 1, k + 1));
      a + b
  }

  /** The vertices of rows 0 .. m - 1 of slab k, in the source's y order. */
  function SlabVerts(table: seq<seq<int>>, vol: seq<real>, d: Dims, iso: real, k: int, m: nat): (r: seq<Vec3>)
    requires ValidTable(table) && |vol| == d.Count() && 0 <= k < Cells(d.nz) && m <= Cells(d.ny)
    ensures |r| % 3 == 0
    ensures AllInBox(r, CellOffset(0, 0, k), CellOffset(Cells(d.nx), m, k + 1))
    ensures Uniform(vol, iso) ==> r == []
    decreases m
  {
    if m == 0 then []
    else
      var a := SlabVerts(table, vol, d, iso, k, m - 1);
      var b := RowVerts(table, vol, d, iso, m - 1, k, Cells(d.nx));
      WholeTriangles(a, b);
      AllInBoxAppend(a, b, CellOffset(0, 0, k), CellOffset(Cells(d.nx), m - 1, k + 1),
                     CellOffset(0, m - 1, k), CellOffset(Cells(d.nx), m, k + 1),
                     CellOffset(0, 0, k), CellOffset(Cells(d.nx), m, k + 1));
      a + b
  }

  /** The vertices of slabs 0 .. p - 1, in the source's z order. */
  function VolumeVerts(table: seq<seq<int>>, vol: seq<real>, d: Dims, iso: real, p: nat): (r: seq<Vec3>)
    requires ValidTable(table) && |vol| == d.Count() && p <= Cells(d.nz)
    ensures |r| % 3 == 0
    ensures AllInBox(r, CellOffset(0, 0, 0), CellOffset(Cells(d.nx), Cells(d.ny), p))
    ensures Uniform(vol, iso) ==> r == []
    decreases p
  {
    if p == 0 then []
    else
      var a := VolumeVerts(table, vol, d, iso, p - 1);
      var b := SlabVerts(table, vol, d, iso, p - 1, Cells(d.ny));
      WholeTriangles(a, b);
      AllInBoxAppend(a, b, CellOffset(0, 0, 0), CellOffset(Cells(d.nx), Cells(d.ny), p - 1),
                     CellOffset(0, 0, p - 1), CellOffset(Cells(d.nx), Cells(d.ny), p),
                     CellOffset(0, 0, 0), CellOffset(Cells(d.nx), Cells(d.ny), p));
      a + b
  }

  /** The triangle soup of the whole volume: every three consecutive vertices form a triangle. */
  function Soup(table: seq<seq<int>>, vol: seq<real>, d: Dims, iso: real): seq<Vec3>
    requires ValidTable(table) && |vol| == d.Count()
  {
    VolumeVerts(table, vol, d, iso, Cells(d.nz))
  }

  /** Two case indices with the same eight bits are equal. */
  lemma SameBits(c: bv8, c': bv8)
    requires forall v | 0 <= v < 8 :: Bit(c, v) == Bit(c', v)
    ensures c == c'
  {
    assert Bit(c, 0) == Bit(c', 0) && Bit(c, 1) == Bit(c', 1) && Bit(c, 2) == Bit(c', 2);
    assert Bit(c, 3) == Bit(c', 3) && Bit(c, 4) == Bit(c', 4) && Bit(c, 5) == Bit(c', 5);
    assert Bit(c, 6) == Bit(c', 6) && Bit(c, 7) == Bit(c', 7);
  }

  /** Setting bit v of c sets that bit and leaves the others as they were. */
  lemma SetBit(c: bv8, v: int, w: int)
    requires 0 <= v < 8 && 0 <= w < 8
    ensures Bit(c | BitMask[v], w) <==> Bit(c, w) || w == v
  {
    assert (c | BitMask[v]) & BitMask[w] == (c & BitMask[w]) | (BitMask[v] & BitMask[w]);
    assert (BitMask[v] & BitMask[w] != 0) == (v == w);
  }

  /** The source's bit loop: `index |= 1 << v` for every corner at or below the isovalue. */
  method CaseIndexLoop(vals: seq<real>, iso: real) returns (index: bv8)
    requires |vals| == 8
    ensures index == CaseIndex(vals, iso)
  {
    index := 0;
    for v := 0 to 8
      invariant forall w | 0 <= w < v :: Bit(index, w) <==> vals[w] <= iso
      invariant forall w | v <= w < 8 :: !Bit(index, w)
    {
      if vals[v] <= iso {
        ghost var old_index := index;
        index := index | BitMask[v];
        forall w | 0 <= w < 8
          ensures Bit(index, w) <==> Bit(old_index, w) || w == v
        {
          SetBit(old_index, v, w);
        }
      }
    }
    SameBits(index, CaseIndex(vals, iso));
  }

  /** Flattening one more vertex appends its three coordinates. */
  lemma FlattenSnoc(vs: seq<Vec3>, t: nat)
    requires t < |vs|
    ensures Flatten(vs[..t + 1]) == Flatten(vs[..t]) + [vs[t].x, vs[t].y, vs[t].z]
  {
    assert vs[..t + 1][..t] == vs[..t];
  }

  /** The vertices of a cell, spelled out over the row of its case up to the sentinel. */
  lemma CellVertsOfRow(table: seq<seq<int>>, vol: seq<real>, d: Dims, iso: real, i: int, j: int, k: int)
    requires ValidTable(table) && |vol| == d.Count() && InCells(d, i, j, k)
    ensures var vals := CornerValues(vol, d, i, j, k);
      var row := table[CaseIndex(vals, iso) as int];
      var cell := CellVerts(table, vol, d, iso, i, j, k);
      |cell| < |row| && row[|cell|] == Sentinel &&
      forall t | 0 <= t < |cell| ::
        row[t] != Sentinel && 0 <= row[t] < 12 && cell[t] == EdgeVertex(vals, iso, row[t], CellOffset(i, j, k))
  {
    var vals := CornerValues(vol, d, i, j, k);
    var c := CaseIndex(vals, iso);
    var row := table[c as int];
    var edges := ListedEdges(table, c);
    assert edges == row[..EdgeCount(row)];
    assert CellVerts(table, vol, d, iso, i, j, k) == RowPoints(vals, iso, edges, CellOffset(i, j, k));
    PointsBeforeSentinel(vals, iso, row, edges, CellOffset(i, j, k));
  }

  /** The points of the edges a row lists before its sentinel, position by position. */
  lemma PointsBeforeSentinel(vals: seq<real>, iso: real, row: seq<int>, edges: seq<int>, off: Vec3)
    requires |vals| == 8 && |edges| < |row| && edges == row[..|edges|] && row[|edges|] == Sentinel
    requires forall t | 0 <= t < |edges| :: row[t] != Sentinel && 0 <= edges[t] < 12
    ensures var cell := RowPoints(vals, iso, edges, off);
      |cell| < |row| && row[|cell|] == Sentinel &&
      forall t | 0 <= t < |cell| :: row[t] != Sentinel && 0 <= row[t] < 12 && cell[t] == EdgeVertex(vals, iso, row[t], off)
  {
  }

  /**
   * One cell of the extraction loop: the corner samples, the case index, then the vertices
   * of the case's row.
   */
  method EmitCell(table: seq<seq<int>>, vol: seq<real>, d: Dims, iso: real, i: int, j: int, k: int, buf: Buffer)
    returns (out: Buffer)
    requires ValidTable(table) && |vol| == d.Count() && InCells(d, i, j, k) && Chunk3Ready(buf)
    ensures Chunk3Ready(out)
    ensures Contents(out) == Contents(buf) + Flatten(CellVerts(table, vol, d, iso, i, j, k))
  {
    var vals := CornerValues(vol, d, i, j, k);
    var index := CaseIndexLoop(vals, iso);
    CellVertsOfRow(table, vol, d, iso, i, j, k);
    out := EmitRow(vals, iso, table[index as int], CellOffset(i, j, k), buf, CellVerts(table, vol, d, iso, i, j, k));
  }

  /** Append one vertex per table entry of `row` up to the sentinel. */
  method EmitRow(vals: seq<real>, iso: real, row: seq<int>, off: Vec3, buf: Buffer, ghost cell: seq<Vec3>)
    returns (out: Buffer)
    requires |vals| == 8 && |cell| < |row| && row[|cell|] == Sentinel
    requires forall t | 0 <= t < |cell| :: row[t] != Sentinel && 0 <= row[t] < 12
    requires forall t | 0 <= t < |cell| :: cell[t] == EdgeVertex(vals, iso, row[t], off)
    requires Chunk3Ready(buf)
    ensures Chunk3Ready(out)
    ensures Contents(out) == Contents(buf) + Flatten(cell)
  {
    ghost var n := |cell|;
    out := buf;
    var t := 0;
    while row[t] != Sentinel
      invariant 0 <= t <= n
      invariant Chunk3Ready(out)
      invariant Contents(out) == Contents(buf) + Flatten(cell[..t])
      decreases n - t
    {
      var vert := EdgeVertex(vals, iso, row[t], off);
      assert vert == cell[t];
      EmitStep(out, Contents(buf), cell, t);
      out := Append(out, [vert.x, vert.y, vert.z]).value;
      t := t + 1;
    }
    assert cell[..t] == cell;
  }

  /** Appending the next vertex of `cell` keeps the buffer ready and extends the flattened prefix. */
  lemma EmitStep(b: Buffer, pre: seq<real>, cell: seq<Vec3>, t: nat)
    requires Chunk3Ready(b) && t < |cell| && Contents(b) == pre + Flatten(cell[..t])
    ensures var r := Append(b, [cell[t].x, cell[t].y, cell[t].z]);
      r.Ok? && Chunk3Ready(r.value) && Contents(r.value) == pre + Flatten(cell[..t + 1])
  {
    Append3Safe(b, [cell[t].x, cell[t].y, cell[t].z]);
    FlattenSnoc(cell, t);
  }

  /** The inner loop over x: the cells of row (j, k). */
  method MarchRow(table: seq<seq<int>>, vol: seq<real>, d: Dims, iso: real, j: int, k: int, buf: Buffer)
    returns (out: Buffer)
    requires ValidTable(table) && |vol| == d.Count() && 0 <= j < Cells(d.ny) && 0 <= k < Cells(d.nz)
    requires Chunk3Ready(buf)
    ensures Chunk3Ready(out)
    ensures Contents(out) == Contents(buf) + Flatten(RowVerts(table, vol, d, iso, j, k, Cells(d.nx)))
  {
    out := buf;
    for i := 0 to Cells(d.nx)
      invariant Chunk3Ready(out)
      invariant Contents(out) == Contents(buf) + Flatten(RowVerts(table, vol, d, iso, j, k, i))
    {
      ghost var a, b := RowVerts(table, vol, d, iso, j, k, i), CellVerts(table, vol, d, iso, i, j, k);
      out := EmitCell(table, vol, d, iso, i, j, k, out);
      FlattenExtend(Contents(buf), a, b);
      assert RowVerts(table, vol, d, iso, j, k, i + 1) == a + b;
    }
  }

  /** The middle loop over y: the rows of slab k. */
  method MarchSlab(table: seq<seq<int>>, vol: seq<real>, d: Dims, iso: real, k: int, buf: Buffer)
    returns (out: Buffer)
    requires ValidTable(table) && |vol| == d.Count() && 0 <= k < Cells(d.nz)
    requires Chunk3Ready(buf)
    ensures Chunk3Ready(out)
    ensures Contents(out) == Contents(buf) + Flatten(SlabVerts(table, vol, d, iso, k, Cells(d.ny)))
  {
    out := buf;
    for j := 0 to Cells(d.ny)
      invariant Chunk3Ready(out)
      invariant Contents(out) == Contents(buf) + Flatten(SlabVerts(table, vol, d, iso, k, j))
    {
      ghost var a, b := SlabVerts(table, vol, d, iso, k, j), RowVerts(table, vol, d, iso, j, k, Cells(d.nx));
      out := MarchRow(table, vol, d, iso, j, k, out);
      FlattenExtend(Contents(buf), a, b);
      assert SlabVerts(table, vol, d, iso, k, j + 1) == a + b;
    }
  }

  /**
   * marchingCubesJS: the flat float array of the triangle soup, three coordinates per vertex
   * and three vertices per triangle, every vertex inside the dual grid's box.
   */
  method MarchingCubes(table: seq<seq<int>>, vol: seq<real>, d: Dims, iso: real) returns (out: seq<real>)
    requires ValidTable(table) && |vol| == d.Count()
    ensures out == Flatten(Soup(table, vol, d, iso))
    ensures |out| % 9 == 0
    ensures forall q | 0 <= q < |out| / 3 ::
              InBox(Vec3(out[3 * q], out[3 * q + 1], out[3 * q + 2]),
                    Vec3(0.5, 0.5, 0.5), Vec3(Cells(d.nx) as real + 0.5, Cells(d.ny) as real + 0.5, Cells(d.nz) as real + 0.5))
    ensures Uniform(vol, iso) ==> out == []
  {
    var buf := Clear(NewBuffer(3));
    StartReady();
    buf := MarchVolume(table, vol, d, iso, buf);
    out := Contents(buf);
    FlatSoup(table, vol, d, iso);
  }

  /** The outer loop over z: the slabs of the volume. */
  method MarchVolume(table: seq<seq<int>>, vol: seq<real>, d: Dims, iso: real, buf: Buffer)
    returns (out: Buffer)
    requires ValidTable(table) && |vol| == d.Count() && Chunk3Ready(buf)
    ensures Chunk3Ready(out)
    ensures Contents(out) == Contents(buf) + Flatten(VolumeVerts(table, vol, d, iso, Cells(d.nz)))
  {
    out := buf;
    for k := 0 to Cells(d.nz)
      invariant Chunk3Ready(out)
      invariant Contents(out) == Contents(buf) + Flatten(VolumeVerts(table, vol, d, iso, k))
    {
      ghost var a, b := VolumeVerts(table, vol, d, iso, k), SlabVerts(table, vol, d, iso, k, Cells(d.ny));
      out := MarchSlab(table, vol, d, iso, k, out);
      FlattenExtend(Contents(buf), a, b);
      assert VolumeVerts(table, vol, d, iso, k + 1) == a + b;
    }
  }

  /** The flat soup holds whole triangles, each vertex inside the dual grid's box. */
  lemma FlatSoup(table: seq<seq<int>>, vol: seq<real>, d: Dims, iso: real)
    requires ValidTable(table) && |vol| == d.Count()
    ensures var out := Flatten(Soup(table, vol, d, iso));
      |out| % 9 == 0 &&
      forall q | 0 <= q < |out| / 3 ::
        InBox(Vec3(out[3 * q], out[3 * q + 1], out[3 * q + 2]),
              Vec3(0.5, 0.5, 0.5), Vec3(Cells(d.nx) as real + 0.5, Cells(d.ny) as real + 0.5, Cells(d.nz) as real + 0.5))
    ensures Uniform(vol, iso) ==> Flatten(Soup(table, vol, d, iso)) == []
  {
    var soup := Soup(table, vol, d, iso);
    FlattenInBox(soup, CellOffset(0, 0, 0), CellOffset(Cells(d.nx), Cells(d.ny), Cells(d.nz)));
  }
}
