/** Voxel-to-world conversion of the mesh and the face reversal that keeps its winding. */
module Orient {
  import opened Geometry
  import opened Meshes

  /** One row of the 4x4 affine: three linear coefficients and a translation. */
  datatype Row = Row(x: real, y: real, z: real, t: real)

  /** The first three rows of the affine; the source never reads the fourth. */
  datatype Affine = Affine(r0: Row, r1: Row, r2: Row)

  function Coeffs(r: Row): Vec3 {
    Vec3(r.x, r.y, r.z)
  }

  /** The linear part of the affine applied to q. */
  function Linear(m: Affine, q: Vec3): Vec3 {
    Vec3(Dot(Coeffs(m.r0), q), Dot(Coeffs(m.r1), q), Dot(Coeffs(m.r2), q))
  }

  /** The vertex map of verticesVox2mm: shift by half a voxel, then apply the affine. */
  function VoxToMm(m: Affine, p: Vec3): (r: Vec3)
    ensures r == Add(Linear(m, Sub(p, Vec3(0.5, 0.5, 0.5))), Vec3(m.r0.t, m.r1.t, m.r2.t))
  {
    var q := Sub(p, Vec3(0.5, 0.5, 0.5));
    Vec3(q.x * m.r0.x + q.y * m.r0.y + q.z * m.r0.z + m.r0.t,
         q.x * m.r1.x + q.y * m.r1.y + q.z * m.r1.z + m.r1.t,
         q.x * m.r2.x + q.y * m.r2.y + q.z * m.r2.z + m.r2.t)
  }

  /** isPositiveDeterminant's cofactor expansion along the first row: the triple product of the rows. */
  function Det(m: Affine): (d: real)
    ensures d == Dot(Coeffs(m.r0), Cross(Coeffs(m.r1), Coeffs(m.r2)))
  {
    m.r0.x * (m.r1.y * m.r2.z - m.r1.z * m.r2.y)
    - m.r0.y * (m.r1.x * m.r2.z - m.r1.z * m.r2.x)
    + m.r0.z * (m.r1.x * m.r2.y - m.r1.y * m.r2.x)
  }

  predicate IsPositiveDeterminant(m: Affine) {
    Det(m) > 0.0
  }

  function Abs(r: real): real {
    if r < 0.0 then -r else r
  }

  /** reverseMeshFaces on one triangle: swap its second and third corners. */
  function ReverseFace(t: Tri): (r: Tri)
    ensures r.a == t.a && {r.b, r.c} == {t.b, t.c}
    ensures Degenerate(r) <==> Degenerate(t)
  {
    Tri(t.a, t.c, t.b)
  }

  /** reverseMeshFaces: every triangle reversed in place. */
  function ReverseMeshFaces(ts: seq<Tri>): (r: seq<Tri>)
    ensures |r| == |ts|
    ensures forall n | 0 <= n < |ts| :: r[n] == ReverseFace(ts[n])
  {
    seq(|ts|, n requires 0 <= n < |ts| => ReverseFace(ts[n]))
  }

  /** Reversing twice gives back the original faces. */
  lemma ReverseTwice(ts: seq<Tri>)
    ensures ReverseMeshFaces(ReverseMeshFaces(ts)) == ts
  {
  }

  /** Corners of t index into vs. */
  predicate FaceIn(vs: seq<Vec3>, t: Tri) {
    t.a < |vs| && t.b < |vs| && t.c < |vs|
  }

  /**
   * The signed volume spanned by face t and the point w: its sign says on which side of the
   * face, by the right-hand rule of its winding, the point lies.
   */
  function Side(vs: seq<Vec3>, t: Tri, w: Vec3): real
    requires FaceIn(vs, t)
  {
    Dot(Sub(w, vs[t.a]), Cross(Sub(vs[t.b], vs[t.a]), Sub(vs[t.c], vs[t.a])))
  }

  /** Reversing a face puts every point on the other side of it. */
  lemma SideReversed(vs: seq<Vec3>, t: Tri, w: Vec3)
    requires FaceIn(vs, t)
    ensures Side(vs, ReverseFace(t), w) == -Side(vs, t, w)
  {
  }

  /** Differences of mapped points are the linear part applied to the difference. */
  lemma VoxToMmDifference(m: Affine, p: Vec3, q: Vec3)
    ensures Sub(VoxToMm(m, p), VoxToMm(m, q)) == Linear(m, Sub(p, q))
  {
  }

  /** A linear map scales triple products by its determinant. */
  lemma TripleScales(m: Affine, u: Vec3, v: Vec3, w: Vec3)
    ensures Dot(Linear(m, u), Cross(Linear(m, v), Linear(m, w))) == Det(m) * Dot(u, Cross(v, w))
  {
    var r0, r1, r2 := Coeffs(m.r0), Coeffs(m.r1), Coeffs(m.r2);
    var c0, c1, c2 := Cross(r1, r2), Cross(r2, r0), Cross(r0, r1);
    var k := Cross(v, w);
    var a0, a1, a2 := Dot(r0, u), Dot(r1, u), Dot(r2, u);
    var d := Det(m);
    ImageCross(r0, r1, r2, v, w);
    CofactorSum(r0, r1, r2, u);
    Regroup(a0, a1, a2, c0, c1, c2, Scale(d, u), k);
    ScaleDot(d, u, k);
  }

  /** The rows weighted by u against the cofactor rows give Det times u. */
  lemma CofactorSum(r0: Vec3, r1: Vec3, r2: Vec3, u: Vec3)
    ensures var c0, c1, c2, d := Cross(r1, r2), Cross(r2, r0), Cross(r0, r1), Dot(r0, Cross(r1, r2));
      var a0, a1, a2 := Dot(r0, u), Dot(r1, u), Dot(r2, u);
      a0 * c0.x + a1 * c1.x + a2 * c2.x == d * u.x &&
      a0 * c0.y + a1 * c1.y + a2 * c2.y == d * u.y &&
      a0 * c0.z + a1 * c1.z + a2 * c2.z == d * u.z
  {
    CofactorSumX(r0, r1, r2, u);
    CofactorSumY(r0, r1, r2, u);
    CofactorSumZ(r0, r1, r2, u);
  }

  lemma CofactorSumX(r0: Vec3, r1: Vec3, r2: Vec3, u: Vec3)
    ensures var c0, c1, c2, d := Cross(r1, r2), Cross(r2, r0), Cross(r0, r1), Dot(r0, Cross(r1, r2));
      Dot(r0, u) * c0.x + Dot(r1, u) * c1.x + Dot(r2, u) * c2.x == d * u.x
  {
    var c0, c1, c2, d := Cross(r1, r2), Cross(r2, r0), Cross(r0, r1), Dot(r0, Cross(r1, r2));
    LaplaceX(r0, r1, r2);
    Weigh(r0, r1, r2, u, c0.x, c1.x, c2.x, d, Vec3(1.0, 0.0, 0.0));
  }

  lemma CofactorSumY(r0: Vec3, r1: Vec3, r2: Vec3, u: Vec3)
    ensures var c0, c1, c2, d := Cross(r1, r2), Cross(r2, r0), Cross(r0, r1), Dot(r0, Cross(r1, r2));
      Dot(r0, u) * c0.y + Dot(r1, u) * c1.y + Dot(r2, u) * c2.y == d * u.y
  {
    var c0, c1, c2, d := Cross(r1, r2), Cross(r2, r0), Cross(r0, r1), Dot(r0, Cross(r1, r2));
    LaplaceY(r0, r1, r2);
    Weigh(r0, r1, r2, u, c0.y, c1.y, c2.y, d, Vec3(0.0, 1.0, 0.0));
  }

  lemma CofactorSumZ(r0: Vec3, r1: Vec3, r2: Vec3, u: Vec3)
    ensures var c0, c1, c2, d := Cross(r1, r2), Cross(r2, r0), Cross(r0, r1), Dot(r0, Cross(r1, r2));
      Dot(r0, u) * c0.z + Dot(r1, u) * c1.z + Dot(r2, u) * c2.z == d * u.z
  {
    var c0, c1, c2, d := Cross(r1, r2), Cross(r2, r0), Cross(r0, r1), Dot(r0, Cross(r1, r2));
    LaplaceZ(r0, r1, r2);
    Weigh(r0, r1, r2, u, c0.z, c1.z, c2.z, d, Vec3(0.0, 0.0, 1.0));
  }

  lemma ScaleDot(d: real, u: Vec3, k: Vec3)
    ensures Dot(Scale(d, u), k) == d * Dot(u, k)
  {
  }

  /** The cross product of two images is the cofactor rows applied to the cross product. */
  lemma ImageCross(r0: Vec3, r1: Vec3, r2: Vec3, v: Vec3, w: Vec3)
    ensures var lv, lw, k := Vec3(Dot(r0, v), Dot(r1, v), Dot(r2, v)), Vec3(Dot(r0, w), Dot(r1, w), Dot(r2, w)), Cross(v, w);
      Cross(lv, lw) == Vec3(Dot(Cross(r1, r2), k), Dot(Cross(r2, r0), k), Dot(Cross(r0, r1), k))
  {
    BinetCauchy(r1, r2, v, w);
    BinetCauchy(r2, r0, v, w);
    BinetCauchy(r0, r1, v, w);
  }

  /** The Binet-Cauchy identity for three-vectors. */
  lemma BinetCauchy(a: Vec3, b: Vec3, c: Vec3, d: Vec3)
    ensures Dot(a, c) * Dot(b, d) - Dot(a, d) * Dot(b, c) == Dot(Cross(a, b), Cross(c, d))
  {
  }

  /** Laplace expansion against the x-coordinates of the cofactor rows: Det on the x-column, zero on the others. */
  lemma LaplaceX(r0: Vec3, r1: Vec3, r2: Vec3)
    ensures var c0, c1, c2, d := Cross(r1, r2), Cross(r2, r0), Cross(r0, r1), Dot(r0, Cross(r1, r2));
      r0.x * c0.x + r1.x * c1.x + r2.x * c2.x == d &&
      r0.y * c0.x + r1.y * c1.x + r2.y * c2.x == 0.0 &&
      r0.z * c0.x + r1.z * c1.x + r2.z * c2.x == 0.0
  {
    var c0, c1, c2 := Cross(r1, r2), Cross(r2, r0), Cross(r0, r1);
    assert r0.x * c0.x == r0.x * r1.y * r2.z - r0.x * r1.z * r2.y;
    assert r0.y * c0.x == r0.y * r1.y * r2.z - r0.y * r1.z * r2.y;
    assert r0.y * c0.y == r0.y * r1.z * r2.x - r0.y * r1.x * r2.z;
    assert r0.z * c0.x == r0.z * r1.y * r2.z - r0.z * r1.z * r2.y;
    assert r0.z * c0.z == r0.z * r1.x * r2.y - r0.z * r1.y * r2.x;
    assert r1.x * c1.x == r1.x * r2.y * r0.z - r1.x * r2.z * r0.y;
    assert r1.y * c1.x == r1.y * r2.y * r0.z - r1.y * r2.z * r0.y;
    assert r1.z * c1.x == r1.z * r2.y * r0.z - r1.z * r2.z * r0.y;
    assert r2.x * c2.x == r2.x * r0.y * r1.z - r2.x * r0.z * r1.y;
    assert r2.y * c2.x == r2.y * r0.y * r1.z - r2.y * r0.z * r1.y;
    assert r2.z * c2.x == r2.z * r0.y * r1.z - r2.z * r0.z * r1.y;
  }

  /** Laplace expansion against the y-coordinates of the cofactor rows: Det on the y-column, zero on the others. */
  lemma LaplaceY(r0: Vec3, r1: Vec3, r2: Vec3)
    ensures var c0, c1, c2, d := Cross(r1, r2), Cross(r2, r0), Cross(r0, r1), Dot(r0, Cross(r1, r2));
      r0.x * c0.y + r1.x * c1.y + r2.x * c2.y == 0.0 &&
      r0.y * c0.y + r1.y * c1.y + r2.y * c2.y == d &&
      r0.z * c0.y + r1.z * c1.y + r2.z * c2.y == 0.0
  {
    var c0, c1, c2 := Cross(r1, r2), Cross(r2, r0), Cross(r0, r1);
    assert r0.x * c0.x == r0.x * r1.y * r2.z - r0.x * r1.z * r2.y;
    assert r0.x * c0.y == r0.x * r1.z * r2.x - r0.x * r1.x * r2.z;
    assert r0.y * c0.y == r0.y * r1.z * r2.x - r0.y * r1.x * r2.z;
    assert r0.z * c0.y == r0.z * r1.z * r2.x - r0.z * r1.x * r2.z;
    assert r0.z * c0.z == r0.z * r1.x * r2.y - r0.z * r1.y * r2.x;
    assert r1.x * c1.y == r1.x * r2.z * r0.x - r1.x * r2.x * r0.z;
    assert r1.y * c1.y == r1.y * r2.z * r0.x - r1.y * r2.x * r0.z;
    assert r1.z * c1.y == r1.z * r2.z * r0.x - r1.z * r2.x * r0.z;
    assert r2.x * c2.y == r2.x * r0.z * r1.x - r2.x * r0.x * r1.z;
    assert r2.y * c2.y == r2.y * r0.z * r1.x - r2.y * r0.x * r1.z;
    assert r2.z * c2.y == r2.z * r0.z * r1.x - r2.z * r0.x * r1.z;
  }

  /** Laplace expansion against the z-coordinates of the cofactor rows: Det on the z-column, zero on the others. */
  lemma LaplaceZ(r0: Vec3, r1: Vec3, r2: Vec3)
    ensures var c0, c1, c2, d := Cross(r1, r2), Cross(r2, r0), Cross(r0, r1), Dot(r0, Cross(r1, r2));
      r0.x * c0.z + r1.x * c1.z + r2.x * c2.z == 0.0 &&
      r0.y * c0.z + r1.y * c1.z + r2.y * c2.z == 0.0 &&
      r0.z * c0.z + r1.z * c1.z + r2.z * c2.z == d
  {
    var c0, c1, c2 := Cross(r1, r2), Cross(r2, r0), Cross(r0, r1);
    assert r0.x * c0.x == r0.x * r1.y * r2.z - r0.x * r1.z * r2.y;
    assert r0.x * c0.z == r0.x * r1.x * r2.y - r0.x * r1.y * r2.x;
    assert r0.y * c0.y == r0.y * r1.z * r2.x - r0.y * r1.x * r2.z;
    assert r0.y * c0.z == r0.y * r1.x * r2.y - r0.y * r1.y * r2.x;
    assert r0.z * c0.z == r0.z * r1.x * r2.y - r0.z * r1.y * r2.x;
    assert r1.x * c1.z == r1.x * r2.x * r0.y - r1.x * r2.y * r0.x;
    assert r1.y * c1.z == r1.y * r2.x * r0.y - r1.y * r2.y * r0.x;
    assert r1.z * c1.z == r1.z * r2.x * r0.y - r1.z * r2.y * r0.x;
    assert r2.x * c2.z == r2.x * r0.x * r1.y - r2.x * r0.y * r1.x;
    assert r2.y * c2.z == r2.y * r0.x * r1.y - r2.y * r0.y * r1.x;
    assert r2.z * c2.z == r2.z * r0.x * r1.y - r2.z * r0.y * r1.x;
  }

  /** Linearity in u: coordinate identities weighted by the coordinates of u. */
  lemma Weigh(r0: Vec3, r1: Vec3, r2: Vec3, u: Vec3, c0: real, c1: real, c2: real, d: real, k: Vec3)
    requires r0.x * c0 + r1.x * c1 + r2.x * c2 == d * k.x
    requires r0.y * c0 + r1.y * c1 + r2.y * c2 == d * k.y
    requires r0.z * c0 + r1.z * c1 + r2.z * c2 == d * k.z
    ensures Dot(r0, u) * c0 + Dot(r1, u) * c1 + Dot(r2, u) * c2 == d * Dot(u, k)
  {
  }

  /** Linearity in k: a weighted sum of dot products with k is the dot product of the weighted sum. */
  lemma Regroup(a0: real, a1: real, a2: real, c0: Vec3, c1: Vec3, c2: Vec3, e: Vec3, k: Vec3)
    requires a0 * c0.x + a1 * c1.x + a2 * c2.x == e.x
    requires a0 * c0.y + a1 * c1.y + a2 * c2.y == e.y
    requires a0 * c0.z + a1 * c1.z + a2 * c2.z == e.z
    ensures a0 * Dot(c0, k) + a1 * Dot(c1, k) + a2 * Dot(c2, k) == Dot(e, k)
  {
  }

  /** verticesVox2mm: every vertex mapped to world space, faces reversed unless the determinant is positive. */
  function VerticesVox2mm(mesh: Mesh, m: Affine): (r: Mesh)
    ensures |r.vertices| == |mesh.vertices| && |r.tris| == |mesh.tris|
    ensures forall i | 0 <= i < |mesh.vertices| :: r.vertices[i] == VoxToMm(m, mesh.vertices[i])
    ensures IsPositiveDeterminant(m) ==> r.tris == mesh.tris
    ensures !IsPositiveDeterminant(m) ==> r.tris == ReverseMeshFaces(mesh.tris)
  {
    Mesh(seq(|mesh.vertices|, i requires 0 <= i < |mesh.vertices| => VoxToMm(m, mesh.vertices[i])),
         if IsPositiveDeterminant(m) then mesh.tris else ReverseMeshFaces(mesh.tris))
  }

  /**
   * The conversion keeps every face's winding: a point on the outer side of a face before the
   * conversion lies, once mapped, on the outer side of the converted face, with the signed
   * volume scaled by the magnitude of the determinant.
   */
  lemma WindingKept(mesh: Mesh, m: Affine, n: int, w: Vec3)
    requires 0 <= n < |mesh.tris| && FaceIn(mesh.vertices, mesh.tris[n])
    ensures FaceIn(VerticesVox2mm(mesh, m).vertices, VerticesVox2mm(mesh, m).tris[n])
    ensures Side(VerticesVox2mm(mesh, m).vertices, VerticesVox2mm(mesh, m).tris[n], VoxToMm(m, w))
            == Abs(Det(m)) * Side(mesh.vertices, mesh.tris[n], w)
  {
    var r := VerticesVox2mm(mesh, m);
    var t := mesh.tris[n];
    var vs := mesh.vertices;
    var a, b, c := vs[t.a], vs[t.b], vs[t.c];
    VoxToMmDifference(m, w, a);
    VoxToMmDifference(m, b, a);
    VoxToMmDifference(m, c, a);
    TripleScales(m, Sub(w, a), Sub(b, a), Sub(c, a));
    var mapped := Side(r.vertices, t, VoxToMm(m, w));
    assert mapped == Det(m) * Side(vs, t, w);
    if !IsPositiveDeterminant(m) {
      SideReversed(r.vertices, t, VoxToMm(m, w));
    }
  }
}
