/** voxels2mesh over the source's own triangle table. */
module Driver {
  import opened Wrappers
  import opened Grid
  import opened Geometry
  import opened Meshes
  import opened CubeEdges
  import opened Tables
  import opened Pipeline

  /**
   * voxels2mesh: the pipeline run with triTable. `labeler` stands for the cluster labeler,
   * `smooth` for the smoothing arithmetic and `root` for Math.sqrt.
   */
  method Voxels2Mesh(img: seq<real>, d: Dims, iso: real, opts: Options, labeler: seq<int> -> nat -> int,
                     smooth: (seq<Vec3>, seq<Tri>) -> nat -> Vec3, root: real -> real) returns (r: Result<Mesh>)
    requires |img| == d.Count()
    ensures ValidTable(TriTable())
    ensures r == MeshOf(TriTable(), img, d, iso, opts, labeler, smooth, root)
  {
    TriTableValid();
    r := Voxels2MeshWith(TriTable(), img, d, iso, opts, labeler, smooth, root);
  }
}
