/**
 * voxels2mesh: the guards and the order of the stages, from a voxel volume to an indexed mesh.
 * Each stage is the model of its own module; this module wires them together.
 */
module Pipeline {
  import opened Wrappers
  import opened Grid
  import opened Geometry
  import opened Meshes
  import opened CubeEdges
  import opened Cubes
  import opened ZeroEdges
  import opened Bubbles
  import opened Clusters
  import opened Weld
  import opened Orient

  /**
   * The optional stages: largestClusterOnly, fillBubbles, the number of smoothing iterations,
   * and a voxel-to-world affine (the source applies one given as 4 rows).
   */
  datatype Options = Options(largestCluster: bool, fillBubbles: bool, smoothIterations: int, affine: Option<Affine>)

  /**
   * The smoothing stage, which moves vertices in place: the vertex list unchanged for fewer than
   * one iteration, as laplacian_smoothHC returns at once, otherwise vertex i moved to
   * `smooth(vs, ts)(i)`. The smoothing arithmetic is the parameter `smooth`.
   */
  function Smoothed(vs: seq<Vec3>, ts: seq<Tri>, iterations: int, smooth: (seq<Vec3>, seq<Tri>) -> nat -> Vec3): (r: seq<Vec3>)
    ensures |r| == |vs|
    ensures iterations < 1 ==> r == vs
  {
    if iterations < 1 then vs else seq(|vs|, i requires 0 <= i < |vs| => smooth(vs, ts)(i))
  }

  /** Every corner of every triangle indexes a vertex of the mesh. */
  predicate Indexed(m: Mesh) {
    forall n | 0 <= n < |m.tris| :: FaceIn(m.vertices, m.tris[n])
  }

  /**
   * The triangles of a fresh triangle soup, the identity index list: triangle t is made of
   * vertices 3t, 3t + 1 and 3t + 2.
   */
  function SoupTris(n: nat): (ts: seq<Tri>)
    ensures |ts| == n
  {
    seq(n, t requires 0 <= t < n => Tri(3 * t, 3 * t + 1, 3 * t + 2))
  }

  /** The corner of a triangle by position 0, 1 or 2, as the flat index list stores it. */
  function Corner(t: Tri, k: nat): nat {
    if k == 0 then t.a else if k == 1 then t.b else t.c
  }

  /**
   * The soup triangles use each of the 3n vertices exactly once, in order: flat entry x of the
   * index list is vertex x, and no triangle repeats a vertex.
   */
  lemma SoupTrisCover(n: nat)
    ensures forall x | 0 <= x < 3 * n :: Corner(SoupTris(n)[x / 3], x % 3) == x
    ensures AllValid(SoupTris(n))
  {
  }

  /** The soup triangles over a soup of 3n vertices index only that soup. */
  lemma SoupIndexed(vs: seq<Vec3>)
    requires |vs| % 3 == 0
    ensures Indexed(Mesh(vs, SoupTris(|vs| / 3)))
  {
  }

  /** Welding keeps every corner inside the (possibly smaller) vertex list. */
  lemma WeldIndexed(vs: seq<Vec3>, tris: seq<Tri>, root: real -> real)
    requires Indexed(Mesh(vs, tris))
    ensures Indexed(UnifyVerticesAsWritten(vs, tris, root).mesh)
  {
    var w := UnifyVerticesAsWritten(vs, tris, root);
    if |w.mesh.vertices| < |vs| {
      forall n | 0 <= n < |tris|
        ensures FaceIn(w.mesh.vertices, w.mesh.tris[n])
      {
        MovedIn(tris[n], w.index, |w.mesh.vertices|);
      }
    }
  }

  /** A corner list moved through an index whose entries are all below nv stays below nv. */
  lemma MovedIn(t: Tri, index: seq<nat>, nv: nat)
    requires t.a < |index| && t.b < |index| && t.c < |index|
    requires forall x | 0 <= x < |index| :: index[x] < nv
    ensures var m := Moved(t, index); m.a < nv && m.b < nv && m.c < nv
  {
  }

  /** Culling keeps a subset of the triangles, so every corner stays inside the vertex list. */
  lemma CullIndexed(vs: seq<Vec3>, tris: seq<Tri>)
    requires Indexed(Mesh(vs, tris)) && Cull(tris).Ok?
    ensures Indexed(Mesh(vs, Cull(tris).value))
  {
    var kept := Cull(tris).value;
    forall n | 0 <= n < |kept|
      ensures FaceIn(vs, kept[n])
    {
      assert kept[n] in tris;
    }
  }

  /** The affine conversion keeps every corner inside the vertex list, reversed or not. */
  lemma Vox2mmIndexed(m: Mesh, a: Affine)
    requires Indexed(m)
    ensures Indexed(VerticesVox2mm(m, a))
  {
  }

  /** The volume and isovalue extraction sees: shifted, edges zeroed, then the optional stages. */
  function Prepared(img: seq<real>, d: Dims, iso: real, opts: Options, labeler: seq<int> -> nat -> int): (r: (seq<real>, real))
    requires |img| == d.Count()
    ensures |r.0| == |img|
  {
    var iso' := Shifted(img, iso).1;
    var zeroed := EdgesZeroed(d, Shifted(img, iso).0);
    var clustered := if opts.largestCluster then LargestClusterOnly(zeroed, iso', labeler) else zeroed;
    var filled := if opts.fillBubbles then BubblesFilled(d, clustered, iso') else clustered;
    (filled, iso')
  }

  /** The triangle soup of the prepared volume, three vertices per triangle. */
  function SoupOf(table: seq<seq<int>>, img: seq<real>, d: Dims, iso: real, opts: Options, labeler: seq<int> -> nat -> int): (s: seq<Vec3>)
    requires ValidTable(table) && |img| == d.Count()
    ensures |s| % 3 == 0
    ensures AllInBox(s, CellOffset(0, 0, 0), CellOffset(Cells(d.nx), Cells(d.ny), Cells(d.nz)))
  {
    var prepared := Prepared(img, d, iso, opts, labeler);
    Soup(table, prepared.0, d, prepared.1)
  }

  /** A mesh after smoothing and the optional conversion to world space. */
  function Finished(vs: seq<Vec3>, ts: seq<Tri>, opts: Options, smooth: (seq<Vec3>, seq<Tri>) -> nat -> Vec3): (m: Mesh)
    ensures |m.vertices| == |vs| && |m.tris| == |ts|
    ensures opts.affine.None? ==> m.tris == ts
    ensures opts.affine.None? && opts.smoothIterations < 1 ==> m.vertices == vs
  {
    var m := Mesh(Smoothed(vs, ts, opts.smoothIterations, smooth), ts);
    if opts.affine.Some? then VerticesVox2mm(m, opts.affine.value) else m
  }

  /** Smoothing and the conversion keep every triangle valid and inside the vertex list. */
  lemma FinishedWellFormed(vs: seq<Vec3>, ts: seq<Tri>, opts: Options, smooth: (seq<Vec3>, seq<Tri>) -> nat -> Vec3)
    requires Indexed(Mesh(vs, ts)) && AllValid(ts)
    ensures var m := Finished(vs, ts, opts, smooth); Indexed(m) && AllValid(m.tris)
  {
    var m := Mesh(Smoothed(vs, ts, opts.smoothIterations, smooth), ts);
    assert Indexed(m);
    if opts.affine.Some? {
      Vox2mmIndexed(m, opts.affine.value);
      var r := VerticesVox2mm(m, opts.affine.value);
      forall n | 0 <= n < |r.tris|
        ensures !Degenerate(r.tris[n])
      {
        assert !Degenerate(ts[n]);
      }
    }
  }

  /**
   * The stages after extraction: weld the soup, cull what welding made degenerate, smooth, and
   * convert to world space when an affine is given.
   */
  function Cleanup(soup: seq<Vec3>, opts: Options, smooth: (seq<Vec3>, seq<Tri>) -> nat -> Vec3,
                   root: real -> real): (r: Result<Mesh>)
    requires |soup| % 3 == 0 && |soup| > 0
    ensures r.Err? <==> AllDegenerate(UnifyVerticesAsWritten(soup, SoupTris(|soup| / 3), root).mesh.tris)
    ensures r.Err? ==> r.error == NoValidTriangles
  {
    var welded := UnifyVerticesAsWritten(soup, SoupTris(|soup| / 3), root);
    var culled := Cull(welded.mesh.tris);
    if culled.Err? then Err(culled.error)
    else Ok(Finished(welded.mesh.vertices, culled.value, opts, smooth))
  }

  /**
   * A mesh that survives the stages after extraction is well formed: every triangle has three
   * distinct corners inside the vertex list, and there are no more vertices or triangles than
   * the soup had.
   */
  lemma CleanupWellFormed(soup: seq<Vec3>, opts: Options, smooth: (seq<Vec3>, seq<Tri>) -> nat -> Vec3, root: real -> real)
    requires |soup| % 3 == 0 && |soup| > 0
    ensures var r := Cleanup(soup, opts, smooth, root);
      r.Ok? ==> Indexed(r.value) && AllValid(r.value.tris) &&
                0 < |r.value.vertices| <= |soup| && 0 < |r.value.tris| <= |soup| / 3
  {
    var tris := SoupTris(|soup| / 3);
    SoupIndexed(soup);
    WeldIndexed(soup, tris, root);
    var welded := UnifyVerticesAsWritten(soup, tris, root);
    var culled := Cull(welded.mesh.tris);
    if culled.Ok? {
      CullIndexed(welded.mesh.vertices, welded.mesh.tris);
      KeepValidCount(welded.mesh.tris);
      FinishedWellFormed(welded.mesh.vertices, culled.value, opts, smooth);
    }
  }

  /** voxels2mesh as a whole: the guards, then the stages in order. */
  function MeshOf(table: seq<seq<int>>, img: seq<real>, d: Dims, iso: real, opts: Options, labeler: seq<int> -> nat -> int,
                  smooth: (seq<Vec3>, seq<Tri>) -> nat -> Vec3, root: real -> real): (r: Result<Mesh>)
    requires ValidTable(table) && |img| == d.Count()
  {
    if !d.AtLeast3() then Err(VolumeTooSmall)
    else
      var soup := SoupOf(table, img, d, iso, opts, labeler);
      if |soup| == 0 then Err(NoVoxelsSurvive)
      else Cleanup(soup, opts, smooth, root)
  }

  /**
   * The outcomes of voxels2mesh: it throws for a volume too small, for a prepared volume with no
   * isosurface, or when welding left only degenerate triangles; otherwise every triangle has three
   * distinct corners, all inside the vertex list.
   */
  lemma MeshOfOutcomes(table: seq<seq<int>>, img: seq<real>, d: Dims, iso: real, opts: Options, labeler: seq<int> -> nat -> int,
                       smooth: (seq<Vec3>, seq<Tri>) -> nat -> Vec3, root: real -> real)
    requires ValidTable(table) && |img| == d.Count()
    ensures var r := MeshOf(table, img, d, iso, opts, labeler, smooth, root);
      (r == Err(VolumeTooSmall) <==> !d.AtLeast3()) &&
      (r == Err(NoVoxelsSurvive) <==> d.AtLeast3() && SoupOf(table, img, d, iso, opts, labeler) == []) &&
      (r.Err? ==> r.error in {VolumeTooSmall, NoVoxelsSurvive, NoValidTriangles}) &&
      (r.Ok? ==> Indexed(r.value) && AllValid(r.value.tris) && |r.value.vertices| > 0 && |r.value.tris| > 0)
  {
    if d.AtLeast3() {
      var soup := SoupOf(table, img, d, iso, opts, labeler);
      if |soup| > 0 {
        CleanupWellFormed(soup, opts, smooth, root);
      }
    }
  }

  /**
   * Without smoothing and without an affine, every output vertex is a point of the soup, so it
   * lies in the dual grid [0.5, n - 0.5] on each axis, and the mesh has no more vertices than
   * the soup.
   */
  lemma MeshInDualGrid(table: seq<seq<int>>, img: seq<real>, d: Dims, iso: real, opts: Options, labeler: seq<int> -> nat -> int,
                       smooth: (seq<Vec3>, seq<Tri>) -> nat -> Vec3, root: real -> real)
    requires ValidTable(table) && |img| == d.Count()
    requires opts.affine.None? && opts.smoothIterations < 1
    ensures var r := MeshOf(table, img, d, iso, opts, labeler, smooth, root);
      r.Ok? ==> AllInBox(r.value.vertices, CellOffset(0, 0, 0), CellOffset(Cells(d.nx), Cells(d.ny), Cells(d.nz)))
  {
    var r := MeshOf(table, img, d, iso, opts, labeler, smooth, root);
    if r.Ok? {
      var soup := SoupOf(table, img, d, iso, opts, labeler);
      var welded := UnifyVerticesAsWritten(soup, SoupTris(|soup| / 3), root);
      assert r.value.vertices == welded.mesh.vertices;
      InBoxSubset(welded.mesh.vertices, soup, CellOffset(0, 0, 0), CellOffset(Cells(d.nx), Cells(d.ny), Cells(d.nz)));
    }
  }

  /** Points drawn from a list inside a box are inside the box. */
  lemma InBoxSubset(ps: seq<Vec3>, qs: seq<Vec3>, lo: Vec3, hi: Vec3)
    requires AllInBox(qs, lo, hi) && forall n | 0 <= n < |ps| :: ps[n] in qs
    ensures AllInBox(ps, lo, hi)
  {
    forall n | 0 <= n < |ps|
      ensures InBox(ps[n], lo, hi)
    {
      var x :| 0 <= x < |qs| && qs[x] == ps[n];
    }
  }

  /**
   * The source's driver: each stage as its imperative model, the float buffer of marching cubes
   * read back as vertices, and the identity triangle list built over it.
   */
  method Voxels2MeshWith(table: seq<seq<int>>, img: seq<real>, d: Dims, iso: real, opts: Options, labeler: seq<int> -> nat -> int,
                     smooth: (seq<Vec3>, seq<Tri>) -> nat -> Vec3, root: real -> real) returns (r: Result<Mesh>)
    requires ValidTable(table) && |img| == d.Count()
    ensures r == MeshOf(table, img, d, iso, opts, labeler, smooth, root)
  {
    if d.nx < 3 || d.ny < 3 || d.nz < 3 {
      return Err(VolumeTooSmall);
    }
    var vol, iso' := PrepareVolume(img, d, iso, opts, labeler);
    var floats := MarchingCubes(table, vol, d, iso');
    ghost var soup := SoupOf(table, img, d, iso, opts, labeler);
    assert floats == Flatten(soup);
    FlattenRoundTrip(soup, floats);
    r := MeshFromFloats(floats, opts, smooth, root);
  }

  /** The stages before extraction, run in the source's order on a volume of at least 3 voxels a side. */
  method PrepareVolume(img: seq<real>, d: Dims, iso: real, opts: Options, labeler: seq<int> -> nat -> int)
    returns (vol: seq<real>, iso': real)
    requires |img| == d.Count() && d.AtLeast3()
    ensures (vol, iso') == Prepared(img, d, iso, opts, labeler)
  {
    vol, iso' := ShiftNegative(img, iso);
    vol := ZeroVolumeEdges(vol, d);
    if opts.largestCluster {
      vol := LargestClusterOnly(vol, iso', labeler);
    }
    if opts.fillBubbles {
      var filled := FillBubbles(vol, d, iso');
      vol := filled.value;
    }
  }

  /**
   * The stages after extraction on the float buffer: fewer than 3 floats throws, otherwise the
   * buffer is read as vertices over the identity triangle list and cleaned up.
   */
  method MeshFromFloats(floats: seq<real>, opts: Options, smooth: (seq<Vec3>, seq<Tri>) -> nat -> Vec3, root: real -> real)
    returns (r: Result<Mesh>)
    requires |floats| % 9 == 0
    ensures |floats| == 0 ==> r == Err(NoVoxelsSurvive)
    ensures |floats| > 0 ==> r == Cleanup(Unflatten(floats), opts, smooth, root)
  {
    if |floats| < 3 {
      return Err(NoVoxelsSurvive);
    }
    var ntri := |floats| / 9;
    var tris := IdentityTris(ntri);
    var verts := Unflatten(floats);
    assert ntri == |verts| / 3;
    var welded := UnifyVerticesAsWritten(verts, tris, root);
    var culled := Cull(welded.mesh.tris);
    if culled.Err? {
      return Err(culled.error);
    }
    var mesh := Mesh(Smoothed(welded.mesh.vertices, culled.value, opts.smoothIterations, smooth), culled.value);
    if opts.affine.Some? {
      mesh := VerticesVox2mm(mesh, opts.affine.value);
    }
    return Ok(mesh);
  }

  /** The source's loop `triangles[i] = i` over 3 * ntri entries, read three at a time. */
  method IdentityTris(ntri: nat) returns (ts: seq<Tri>)
    ensures ts == SoupTris(ntri)
  {
    ts := [];
    var t := 0;
    while t < ntri
      invariant 0 <= t <= ntri && |ts| == t
      invariant forall s | 0 <= s < t :: ts[s] == Tri(3 * s, 3 * s + 1, 3 * s + 2)
    {
      ts := ts + [Tri(3 * t, 3 * t + 1, 3 * t + 2)];
      t := t + 1;
    }
  }
}
