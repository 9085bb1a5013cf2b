/**
 * Row-major voxel grids with x varying fastest, as used throughout marching-cubes.js:
 * voxel (x, y, z) of an nx*ny*nz grid lives at flat index (z*ny + y)*nx + x.
 */
module Grid {

  datatype Dims = Dims(nx: nat, ny: nat, nz: nat) {
    /** Number of voxels, the length of the flat buffer. */
    function Count(): nat {
      nx * ny * nz
    }

    /** The guard of voxels2mesh and fillh: every dimension is at least 3. */
    predicate AtLeast3() {
      nx >= 3 && ny >= 3 && nz >= 3
    }

    predicate InGrid(x: int, y: int, z: int) {
      0 <= x < nx && 0 <= y < ny && 0 <= z < nz
    }
  }

  /** Flat index of voxel (x, y, z). */
  function Idx(d: Dims, x: int, y: int, z: int): int {
    (z * d.ny + y) * d.nx + x
  }

  /** Idx written the way the source's loops compute offsets: z*(nx*ny) + y*nx + x. */
  lemma IdxExpand(d: Dims, x: int, y: int, z: int)
    ensures Idx(d, x, y, z) == z * (d.nx * d.ny) + y * d.nx + x
  {
  }

  /** Coordinates of a flat index. */
  function XOf(d: Dims, i: int): int
    requires d.nx > 0
  {
    i % d.nx
  }

  function YOf(d: Dims, i: int): int
    requires d.nx > 0 && d.ny > 0
  {
    (i / d.nx) % d.ny
  }

  function ZOf(d: Dims, i: int): int
    requires d.nx > 0 && d.ny > 0
  {
    (i / d.nx) / d.ny
  }

  /** Voxel (x, y, z) lies on one of the six bounding faces. */
  predicate OnFace(d: Dims, x: int, y: int, z: int) {
    x == 0 || x == d.nx - 1 || y == 0 || y == d.ny - 1 || z == 0 || z == d.nz - 1
  }

  /** Flat index i lies on one of the six bounding faces. */
  predicate OnBorder(d: Dims, i: int)
    requires d.nx > 0 && d.ny > 0
  {
    OnFace(d, XOf(d, i), YOf(d, i), ZOf(d, i))
  }

  /** Multiplication by a positive number is monotone. */
  lemma MulMono(a: int, b: int, n: int)
    requires n > 0 && a <= b
    ensures a * n <= b * n
  {
  }

  /** Quotient and remainder are unique. */
  lemma DivModUnique(a: int, n: int, q: int, r: int)
    requires n > 0 && 0 <= r < n && a == q * n + r
    ensures a / n == q && a % n == r
  {
    var q', r' := a / n, a % n;
    assert a == q' * n + r' && 0 <= r' < n;
    var k := q - q';
    assert k * n == r' - r;
    if k >= 1 {
      MulMono(1, k, n);
    } else if k <= -1 {
      MulMono(k, -1, n);
    }
  }

  /** The quotient of an index below n*m by n is below m. */
  lemma DivBelow(i: int, n: int, m: int)
    requires n > 0 && 0 <= i < n * m
    ensures 0 <= i / n < m
  {
    assert i == (i / n) * n + i % n;
    if i / n >= m {
      MulMono(m, i / n, n);
    }
  }

  /** Every voxel of the grid has a flat index inside the buffer. */
  lemma IdxInRange(d: Dims, x: int, y: int, z: int)
    requires d.InGrid(x, y, z)
    ensures 0 <= Idx(d, x, y, z) < d.Count()
  {
    var a := z * d.ny + y;
    assert 0 <= a < d.ny * d.nz by {
      assert z * d.ny <= (d.nz - 1) * d.ny;
    }
    assert a * d.nx <= (d.ny * d.nz - 1) * d.nx;
    assert d.Count() == (d.ny * d.nz) * d.nx;
  }

  /** The coordinates of Idx(d, x, y, z) are (x, y, z). */
  lemma CoordsOfIdx(d: Dims, x: int, y: int, z: int)
    requires d.InGrid(x, y, z)
    ensures XOf(d, Idx(d, x, y, z)) == x
    ensures YOf(d, Idx(d, x, y, z)) == y
    ensures ZOf(d, Idx(d, x, y, z)) == z
  {
    var i := Idx(d, x, y, z);
    DivModUnique(i, d.nx, z * d.ny + y, x);
    DivModUnique(z * d.ny + y, d.ny, z, y);
  }

  /** Every flat index is the index of its coordinates, and those lie in the grid. */
  lemma IdxOfCoords(d: Dims, i: int)
    requires 0 <= i < d.Count()
    ensures d.nx > 0 && d.ny > 0 && d.nz > 0
    ensures d.InGrid(XOf(d, i), YOf(d, i), ZOf(d, i))
    ensures Idx(d, XOf(d, i), YOf(d, i), ZOf(d, i)) == i
  {
    assert d.nx > 0 && d.ny > 0 && d.nz > 0;
    var a := i / d.nx;
    assert i == a * d.nx + i % d.nx;
    assert d.Count() == d.nx * (d.ny * d.nz);
    DivBelow(i, d.nx, d.ny * d.nz);
    assert a == (a / d.ny) * d.ny + a % d.ny;
    DivBelow(a, d.ny, d.nz);
  }

  /** Distinct voxels have distinct flat indices. */
  lemma IdxInjective(d: Dims, x: int, y: int, z: int, x': int, y': int, z': int)
    requires d.InGrid(x, y, z) && d.InGrid(x', y', z')
    requires Idx(d, x, y, z) == Idx(d, x', y', z')
    ensures x == x' && y == y' && z == z'
  {
    CoordsOfIdx(d, x, y, z);
    CoordsOfIdx(d, x', y', z');
  }

  /** Idx is one-to-one on the grid (quantified form). */
  lemma IdxInjectiveAll(d: Dims)
    ensures forall x, y, z, x', y', z' ::
      d.InGrid(x, y, z) && d.InGrid(x', y', z') && Idx(d, x, y, z) == Idx(d, x', y', z')
      ==> x == x' && y == y' && z == z'
  {
    forall x, y, z, x', y', z' |
      d.InGrid(x, y, z) && d.InGrid(x', y', z') && Idx(d, x, y, z) == Idx(d, x', y', z')
      ensures x == x' && y == y' && z == z'
    {
      IdxInjective(d, x, y, z, x', y', z');
    }
  }
}
