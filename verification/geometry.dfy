/** Points of three real coordinates, and the flat x, y, z layout of the source's float arrays. */
module Geometry {

  datatype Vec3 = Vec3(x: real, y: real, z: real)

  function Add(a: Vec3, b: Vec3): Vec3 {
    Vec3(a.x + b.x, a.y + b.y, a.z + b.z)
  }

  function Sub(a: Vec3, b: Vec3): Vec3 {
    Vec3(a.x - b.x, a.y - b.y, a.z - b.z)
  }

  function Scale(t: real, a: Vec3): Vec3 {
    Vec3(t * a.x, t * a.y, t * a.z)
  }

  function Dot(a: Vec3, b: Vec3): real {
    a.x * b.x + a.y * b.y + a.z * b.z
  }

  function Cross(a: Vec3, b: Vec3): Vec3 {
    Vec3(a.y * b.z - a.z * b.y, a.z * b.x - a.x * b.z, a.x * b.y - a.y * b.x)
  }

  /** Squared Euclidean distance, the radicand of the source's Math.sqrt distances. */
  function SqDist(a: Vec3, b: Vec3): (s: real)
    ensures s >= 0.0
    ensures a == b ==> s == 0.0
  {
    var d := Sub(a, b);
    d.x * d.x + d.y * d.y + d.z * d.z
  }

  /** A point lies in the axis-aligned box [lo, hi]. */
  predicate InBox(p: Vec3, lo: Vec3, hi: Vec3) {
    lo.x <= p.x <= hi.x && lo.y <= p.y <= hi.y && lo.z <= p.z <= hi.z
  }

  /** Every point of ps lies in the box [lo, hi]. */
  predicate AllInBox(ps: seq<Vec3>, lo: Vec3, hi: Vec3) {
    forall q | 0 <= q < |ps| :: InBox(ps[q], lo, hi)
  }

  /** Box [lo, hi] lies within box [lo', hi']. */
  predicate BoxWithin(lo: Vec3, hi: Vec3, lo': Vec3, hi': Vec3) {
    lo'.x <= lo.x && lo'.y <= lo.y && lo'.z <= lo.z && hi.x <= hi'.x && hi.y <= hi'.y && hi.z <= hi'.z
  }

  /** Two runs of points, each within a sub-box of [lo, hi], lie together in [lo, hi]. */
  lemma AllInBoxAppend(a: seq<Vec3>, b: seq<Vec3>, loA: Vec3, hiA: Vec3, loB: Vec3, hiB: Vec3, lo: Vec3, hi: Vec3)
    requires AllInBox(a, loA, hiA) && BoxWithin(loA, hiA, lo, hi)
    requires AllInBox(b, loB, hiB) && BoxWithin(loB, hiB, lo, hi)
    ensures AllInBox(a + b, lo, hi)
  {
    forall q | 0 <= q < |a + b|
      ensures InBox((a + b)[q], lo, hi)
    {
      if q < |a| {
        assert InBox(a[q], loA, hiA);
      } else {
        assert InBox(b[q - |a|], loB, hiB);
      }
    }
  }

  /** The points laid out as consecutive x, y, z triples. */
  function Flatten(vs: seq<Vec3>): (r: seq<real>)
    ensures |r| == 3 * |vs|
    ensures forall i | 0 <= i < |vs| :: r[3 * i] == vs[i].x && r[3 * i + 1] == vs[i].y && r[3 * i + 2] == vs[i].z
  {
    if |vs| == 0 then []
    else
      var last := vs[|vs| - 1];
      Flatten(vs[..|vs| - 1]) + [last.x, last.y, last.z]
  }

  /** The triples of the flattening of points in a box lie in that box; whole triangles stay whole. */
  lemma FlattenInBox(vs: seq<Vec3>, lo: Vec3, hi: Vec3)
    requires AllInBox(vs, lo, hi)
    ensures |vs| % 3 == 0 ==> |Flatten(vs)| % 9 == 0
    ensures forall q | 0 <= q < |Flatten(vs)| / 3 ::
              InBox(Vec3(Flatten(vs)[3 * q], Flatten(vs)[3 * q + 1], Flatten(vs)[3 * q + 2]), lo, hi)
  {
    var out := Flatten(vs);
    assert |out| / 3 == |vs|;
    forall q | 0 <= q < |out| / 3
      ensures InBox(Vec3(out[3 * q], out[3 * q + 1], out[3 * q + 2]), lo, hi)
    {
      assert Vec3(out[3 * q], out[3 * q + 1], out[3 * q + 2]) == vs[q];
    }
  }

  /** The triples of a flat float array, as the source reads vertices[3i..3i+2]. */
  function Unflatten(fs: seq<real>): (r: seq<Vec3>)
    requires |fs| % 3 == 0
    ensures |r| == |fs| / 3
  {
    seq(|fs| / 3, i requires 0 <= i < |fs| / 3 => Vec3(fs[3 * i], fs[3 * i + 1], fs[3 * i + 2]))
  }

  /** The two layouts are inverse to each other. */
  lemma FlattenRoundTrip(vs: seq<Vec3>, fs: seq<real>)
    ensures Unflatten(Flatten(vs)) == vs
    ensures |fs| % 3 == 0 ==> Flatten(Unflatten(fs)) == fs
  {
    if |fs| % 3 == 0 {
      var r := Flatten(Unflatten(fs));
      forall p | 0 <= p < |fs|
        ensures r[p] == fs[p]
      {
        var u := Unflatten(fs);
        var i := p / 3;
        assert r[3 * i] == u[i].x && r[3 * i + 1] == u[i].y && r[3 * i + 2] == u[i].z;
      }
    }
  }

  /** Appending the flattening of b after that of a, behind any prefix, flattens a + b. */
  lemma FlattenExtend(prefix: seq<real>, a: seq<Vec3>, b: seq<Vec3>)
    ensures prefix + Flatten(a) + Flatten(b) == prefix + Flatten(a + b)
  {
    FlattenAppend(a, b);
  }

  /** Flattening distributes over concatenation. */
  lemma {:induction false} FlattenAppend(a: seq<Vec3>, b: seq<Vec3>)
    ensures Flatten(a + b) == Flatten(a) + Flatten(b)
    decreases |b|
  {
    if |b| > 0 {
      var n := |b| - 1;
      assert (a + b)[..|a + b| - 1] == a + b[..n];
      assert (a + b)[|a + b| - 1] == b[n];
      FlattenAppend(a, b[..n]);
      calc {
        Flatten(a + b);
        Flatten(a + b[..n]) + [b[n].x, b[n].y, b[n].z];
        Flatten(a) + Flatten(b[..n]) + [b[n].x, b[n].y, b[n].z];
        Flatten(a) + Flatten(b);
      }
    } else {
      assert a + b == a;
    }
  }
}
