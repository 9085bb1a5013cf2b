/** zeroVolumeEdges: clear the six bounding faces so that the extracted surface closes. */
module ZeroEdges {
  import opened Grid

  /** Reference definition: border voxels become 0, all others keep their value. */
  function EdgesZeroed(d: Dims, img: seq<real>): (r: seq<real>)
    requires |img| == d.Count()
    ensures |r| == |img|
  {
    seq(|img|, i requires 0 <= i < |img| =>
      IdxOfCoords(d, i);
      if OnBorder(d, i) then 0.0 else img[i])
  }

  /** The grid agrees with `img` except on voxels selected by `zeroed`, which hold 0. */
  ghost predicate ZeroedWhere(d: Dims, img: seq<real>, out: seq<real>, zeroed: (int, int, int) -> bool)
  {
    && |img| == |out| == d.Count()
    && forall x, y, z | d.InGrid(x, y, z) ::
         0 <= Idx(d, x, y, z) < |out| &&
         out[Idx(d, x, y, z)] == if zeroed(x, y, z) then 0.0 else img[Idx(d, x, y, z)]
  }

  /** Writing 0 at voxel (x0, y0, z0) adds exactly that voxel to the zeroed set. */
  lemma WriteZero(d: Dims, img: seq<real>, out: seq<real>, x0: int, y0: int, z0: int,
                  before: (int, int, int) -> bool, after: (int, int, int) -> bool)
    requires ZeroedWhere(d, img, out, before)
    requires d.InGrid(x0, y0, z0)
    requires forall x, y, z | d.InGrid(x, y, z) ::
      after(x, y, z) == (before(x, y, z) || (x == x0 && y == y0 && z == z0))
    ensures 0 <= Idx(d, x0, y0, z0) < |out|
    ensures ZeroedWhere(d, img, out[Idx(d, x0, y0, z0) := 0.0], after)
  {
    IdxInRange(d, x0, y0, z0);
    IdxInjectiveAll(d);
  }

  /** Before any write, the grid is `img` with nothing zeroed. */
  lemma ZeroedNothing(d: Dims, img: seq<real>, none: (int, int, int) -> bool)
    requires |img| == d.Count()
    requires forall x, y, z | d.InGrid(x, y, z) :: !none(x, y, z)
    ensures ZeroedWhere(d, img, img, none)
  {
    forall x, y, z | d.InGrid(x, y, z)
      ensures 0 <= Idx(d, x, y, z) < |img|
    {
      IdxInRange(d, x, y, z);
    }
  }

  /** ZeroedWhere only depends on the selector's values inside the grid. */
  lemma ZeroedWhereEquiv(d: Dims, img: seq<real>, out: seq<real>,
                         f: (int, int, int) -> bool, g: (int, int, int) -> bool)
    requires ZeroedWhere(d, img, out, f)
    requires forall x, y, z | d.InGrid(x, y, z) :: f(x, y, z) == g(x, y, z)
    ensures ZeroedWhere(d, img, out, g)
  {
  }

  /** First loop nest: the faces x = 0 and x = nx-1. */
  method ZeroSides(img: seq<real>, d: Dims) returns (out: seq<real>)
    requires |img| == d.Count()
    requires d.nx >= 1 && d.ny >= 1 && d.nz >= 1
    ensures ZeroedWhere(d, img, out, (x, y, z) => x == 0 || x == d.nx - 1)
  {
    var nx, ny, nz := d.nx, d.ny, d.nz;
    var xy := nx * ny;
    out := img;
    var offset := nx - 1;
    ZeroedNothing(d, img, (x, y, z) => (x == 0 || x == nx - 1) && z < 0);
    for zi := 0 to nz
      invariant ZeroedWhere(d, img, out, (x, y, z) => (x == 0 || x == nx - 1) && z < zi)
    {
      ZeroedWhereEquiv(d, img, out, (x, y, z) => (x == 0 || x == nx - 1) && z < zi,
        (x, y, z) => (x == 0 || x == nx - 1) && (z < zi || (z == zi && y < 0)));
      for yi := 0 to ny
        invariant ZeroedWhere(d, img, out,
          (x, y, z) => (x == 0 || x == nx - 1) && (z < zi || (z == zi && y < yi)))
      {
        var p := zi * xy + yi * nx;
        IdxExpand(d, 0, yi, zi);
        IdxExpand(d, nx - 1, yi, zi);
        WriteZero(d, img, out, 0, yi, zi,
          (x, y, z) => (x == 0 || x == nx - 1) && (z < zi || (z == zi && y < yi)),
          (x, y, z) => (x == 0 && (z < zi || (z == zi && y <= yi))) || (x == nx - 1 && (z < zi || (z == zi && y < yi))));
        out := out[p := 0.0];
        WriteZero(d, img, out, nx - 1, yi, zi,
          (x, y, z) => (x == 0 && (z < zi || (z == zi && y <= yi))) || (x == nx - 1 && (z < zi || (z == zi && y < yi))),
          (x, y, z) => (x == 0 || x == nx - 1) && (z < zi || (z == zi && y < yi + 1)));
        out := out[p + offset := 0.0];
      }
      ZeroedWhereEquiv(d, img, out, (x, y, z) => (x == 0 || x == nx - 1) && (z < zi || (z == zi && y < ny)),
        (x, y, z) => (x == 0 || x == nx - 1) && z < zi + 1);
    }
    ZeroedWhereEquiv(d, img, out, (x, y, z) => (x == 0 || x == nx - 1) && z < nz,
      (x, y, z) => x == 0 || x == d.nx - 1);
  }

  /** Second loop nest: the faces y = 0 and y = ny-1. */
  method ZeroFrontBack(img: seq<real>, d: Dims, cur: seq<real>, ghost faces: (int, int, int) -> bool)
    returns (out: seq<real>)
    requires d.nx >= 1 && d.ny >= 1 && d.nz >= 1
    requires ZeroedWhere(d, img, cur, faces)
    ensures ZeroedWhere(d, img, out, (x, y, z) => faces(x, y, z) || y == 0 || y == d.ny - 1)
  {
    var nx, ny, nz := d.nx, d.ny, d.nz;
    var xy := nx * ny;
    out := cur;
    var offset := (ny - 1) * nx;
    ZeroedWhereEquiv(d, img, out, faces, (x, y, z) => faces(x, y, z) || ((y == 0 || y == ny - 1) && z < 0));
    for zi := 0 to nz
      invariant ZeroedWhere(d, img, out, (x, y, z) => faces(x, y, z) || ((y == 0 || y == ny - 1) && z < zi))
    {
      ZeroedWhereEquiv(d, img, out, (x, y, z) => faces(x, y, z) || ((y == 0 || y == ny - 1) && z < zi),
        (x, y, z) => faces(x, y, z) || ((y == 0 || y == ny - 1) && (z < zi || (z == zi && x < 0))));
      for xi := 0 to nx
        invariant ZeroedWhere(d, img, out,
          (x, y, z) => faces(x, y, z) || ((y == 0 || y == ny - 1) && (z < zi || (z == zi && x < xi))))
      {
        var p := zi * xy + xi;
        IdxExpand(d, xi, 0, zi);
        IdxExpand(d, xi, ny - 1, zi);
        WriteZero(d, img, out, xi, 0, zi,
          (x, y, z) => faces(x, y, z) || ((y == 0 || y == ny - 1) && (z < zi || (z == zi && x < xi))),
          (x, y, z) => faces(x, y, z) || (y == 0 && (z < zi || (z == zi && x <= xi))) || (y == ny - 1 && (z < zi || (z == zi && x < xi))));
        out := out[p := 0.0];
        WriteZero(d, img, out, xi, ny - 1, zi,
          (x, y, z) => faces(x, y, z) || (y == 0 && (z < zi || (z == zi && x <= xi))) || (y == ny - 1 && (z < zi || (z == zi && x < xi))),
          (x, y, z) => faces(x, y, z) || ((y == 0 || y == ny - 1) && (z < zi || (z == zi && x < xi + 1))));
        out := out[p + offset := 0.0];
      }
      ZeroedWhereEquiv(d, img, out,
        (x, y, z) => faces(x, y, z) || ((y == 0 || y == ny - 1) && (z < zi || (z == zi && x < nx))),
        (x, y, z) => faces(x, y, z) || ((y == 0 || y == ny - 1) && z < zi + 1));
    }
    ZeroedWhereEquiv(d, img, out, (x, y, z) => faces(x, y, z) || ((y == 0 || y == ny - 1) && z < nz),
      (x, y, z) => faces(x, y, z) || y == 0 || y == d.ny - 1);
  }

  /** One step of the third loop: zero voxel (x0, y0) of the bottom and of the top slice. */
  lemma SliceStep(d: Dims, img: seq<real>, out: seq<real>, faces: (int, int, int) -> bool, x0: int, y0: int)
    requires d.InGrid(x0, y0, 0) && d.nz >= 1
    requires ZeroedWhere(d, img, out,
      (x, y, z) => faces(x, y, z) || ((z == 0 || z == d.nz - 1) && Idx(d, x, y, 0) < Idx(d, x0, y0, 0)))
    ensures 0 <= Idx(d, x0, y0, 0) < |out| && 0 <= Idx(d, x0, y0, d.nz - 1) < |out|
    ensures ZeroedWhere(d, img, out[Idx(d, x0, y0, 0) := 0.0][Idx(d, x0, y0, d.nz - 1) := 0.0],
      (x, y, z) => faces(x, y, z) || ((z == 0 || z == d.nz - 1) && Idx(d, x, y, 0) < Idx(d, x0, y0, 0) + 1))
  {
    var i := Idx(d, x0, y0, 0);
    IdxInjectiveAll(d);
    WriteZero(d, img, out, x0, y0, 0,
      (x, y, z) => faces(x, y, z) || ((z == 0 || z == d.nz - 1) && Idx(d, x, y, 0) < i),
      (x, y, z) => faces(x, y, z) || (z == 0 && Idx(d, x, y, 0) <= i) || (z == d.nz - 1 && Idx(d, x, y, 0) < i));
    var out' := out[i := 0.0];
    WriteZero(d, img, out', x0, y0, d.nz - 1,
      (x, y, z) => faces(x, y, z) || (z == 0 && Idx(d, x, y, 0) <= i) || (z == d.nz - 1 && Idx(d, x, y, 0) < i),
      (x, y, z) => faces(x, y, z) || ((z == 0 || z == d.nz - 1) && Idx(d, x, y, 0) < i + 1));
  }

  /** Third loop: the slices z = 0 and z = nz-1, walked as one flat run of nx*ny voxels. */
  method ZeroSlices(img: seq<real>, d: Dims, cur: seq<real>, ghost faces: (int, int, int) -> bool)
    returns (out: seq<real>)
    requires d.nx >= 1 && d.ny >= 1 && d.nz >= 1
    requires ZeroedWhere(d, img, cur, faces)
    ensures ZeroedWhere(d, img, out, (x, y, z) => faces(x, y, z) || z == 0 || z == d.nz - 1)
  {
    var nx, ny, nz := d.nx, d.ny, d.nz;
    var xy := nx * ny;
    out := cur;
    var offset := (nz - 1) * xy;
    ZeroedWhereEquiv(d, img, out, faces,
      (x, y, z) => faces(x, y, z) || ((z == 0 || z == nz - 1) && Idx(d, x, y, 0) < 0));
    for i := 0 to xy
      invariant ZeroedWhere(d, img, out,
        (x, y, z) => faces(x, y, z) || ((z == 0 || z == nz - 1) && Idx(d, x, y, 0) < i))
    {
      var x0, y0 := i % nx, i / nx;
      SliceIndex(d, i);
      SliceStep(d, img, out, faces, x0, y0);
      out := out[i := 0.0];
      out := out[i + offset := 0.0];
    }
    SlicesDone(d, img, out, faces);
  }

  /** Flat position i of the bottom slice is voxel (i % nx, i / nx, 0); the top slice lies offset above. */
  lemma SliceIndex(d: Dims, i: int)
    requires d.nx >= 1 && d.ny >= 1 && d.nz >= 1 && 0 <= i < d.nx * d.ny
    ensures d.InGrid(i % d.nx, i / d.nx, 0)
    ensures Idx(d, i % d.nx, i / d.nx, 0) == i
    ensures Idx(d, i % d.nx, i / d.nx, d.nz - 1) == i + (d.nz - 1) * (d.nx * d.ny)
  {
    var x0, y0 := i % d.nx, i / d.nx;
    assert i == y0 * d.nx + x0;
    DivBelow(i, d.nx, d.ny);
    IdxExpand(d, x0, y0, 0);
    IdxExpand(d, x0, y0, d.nz - 1);
  }

  /** Every voxel's column (x, y) has its bottom-slice index below nx*ny. */
  lemma SliceBelow(d: Dims)
    ensures forall x, y, z | d.InGrid(x, y, z) :: Idx(d, x, y, 0) < d.nx * d.ny
  {
    forall x, y, z | d.InGrid(x, y, z)
      ensures Idx(d, x, y, 0) < d.nx * d.ny
    {
      IdxExpand(d, x, y, 0);
      MulMono(y, d.ny - 1, d.nx);
      assert (d.ny - 1) * d.nx + d.nx == d.nx * d.ny;
    }
  }

  /** Once all nx*ny positions are walked, both slices are zeroed. */
  lemma SlicesDone(d: Dims, img: seq<real>, out: seq<real>, faces: (int, int, int) -> bool)
    requires d.nx >= 1 && d.ny >= 1 && d.nz >= 1
    requires ZeroedWhere(d, img, out,
      (x, y, z) => faces(x, y, z) || ((z == 0 || z == d.nz - 1) && Idx(d, x, y, 0) < d.nx * d.ny))
    ensures ZeroedWhere(d, img, out, (x, y, z) => faces(x, y, z) || z == 0 || z == d.nz - 1)
  {
    SliceBelow(d);
    ZeroedWhereEquiv(d, img, out,
      (x, y, z) => faces(x, y, z) || ((z == 0 || z == d.nz - 1) && Idx(d, x, y, 0) < d.nx * d.ny),
      (x, y, z) => faces(x, y, z) || z == 0 || z == d.nz - 1);
  }

  /** zeroVolumeEdges: every voxel on the six bounding faces becomes 0, every other voxel is kept. */
  method ZeroVolumeEdges(img: seq<real>, d: Dims) returns (out: seq<real>)
    requires |img| == d.Count()
    requires d.nx >= 1 && d.ny >= 1 && d.nz >= 1
    ensures |out| == |img|
    ensures forall x, y, z | d.InGrid(x, y, z) ::
      0 <= Idx(d, x, y, z) < |out| &&
      out[Idx(d, x, y, z)] == if OnFace(d, x, y, z) then 0.0 else img[Idx(d, x, y, z)]
    ensures forall i | 0 <= i < |img| :: out[i] == if OnBorder(d, i) then 0.0 else img[i]
    ensures out == EdgesZeroed(d, img)
  {
    out := ZeroSides(img, d);
    out := ZeroFrontBack(img, d, out, (x, y, z) => x == 0 || x == d.nx - 1);
    out := ZeroSlices(img, d, out, (x, y, z) => x == 0 || x == d.nx - 1 || y == 0 || y == d.ny - 1);
    ZeroedWhereEquiv(d, img, out,
      (x, y, z) => (x == 0 || x == d.nx - 1 || y == 0 || y == d.ny - 1) || z == 0 || z == d.nz - 1,
      (x, y, z) => OnFace(d, x, y, z));
    forall i | 0 <= i < |img|
      ensures out[i] == if OnBorder(d, i) then 0.0 else img[i]
    {
      IdxOfCoords(d, i);
    }
  }
}
