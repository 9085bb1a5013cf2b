/**
 * A concrete case of the welding finding: five vertices on which the source's recapturing
 * sweep gives two copies of the same vertex different output vertices.
 */
module WeldSplit {
  import opened Geometry
  import opened Meshes
  import opened Weld

  /**
   * Sorted keys and points on which recapture splits a repeated point: a first point alone in
   * its window, then L, P, Q and P again. P and Q share a key less than `tol` beyond L's, L is
   * within `tol` of P but not of Q, and Q is within `tol` of P.
   */
  predicate SplitLayout(ks: seq<real>, pts: seq<Vec3>) {
    |ks| == 5 && |pts| == 5 && pts[2] == pts[4] &&
    ks[1] - ks[0] >= Tol && ks[1] < ks[2] && ks[2] == ks[3] && ks[3] == ks[4] && ks[2] - ks[1] < Tol &&
    Close(pts[1], pts[2]) && !Close(pts[1], pts[3]) && Close(pts[3], pts[2])
  }

  const Identity5: seq<nat> := [0, 1, 2, 3, 4]

  /** Both maps of a five-point state read `a`, the identity order making them agree. */
  predicate Reads(g: Groups, a: seq<int>) {
    |a| == 5 && |g.outIndex| == 5 && |g.triRemap| == 5 &&
    forall p | 0 <= p < 5 :: g.outIndex[p] == a[p] && g.triRemap[p] == a[p]
  }

  /** The first pass: the first point's window holds only itself. */
  lemma SplitPass0(ks: seq<real>, pts: seq<Vec3>)
    requires SplitLayout(ks, pts)
    ensures Reads(Led(ks, pts, Identity5, 0, Start(5), true), [0, -1, -1, -1, -1])
  {
    var o := Identity5;
    assert Injective(o);
    assert WindowEnd(ks, 0, 0) == 1;
    assert Close(pts[0], pts[0]);
    ScanEffect(ks, pts, o, 0, 0, 0, Start(5), true);
  }

  /** The second pass: L takes P, skips Q, and takes the second copy of P. */
  lemma SplitPass1(ks: seq<real>, pts: seq<Vec3>, g: Groups)
    requires SplitLayout(ks, pts) && Shape(ks, pts, Identity5, g) && |g.leaders| == 1
    requires Reads(g, [0, -1, -1, -1, -1])
    ensures Reads(Led(ks, pts, Identity5, 1, g, true), [0, 1, 1, -1, 1])
  {
    var o := Identity5;
    assert Injective(o);
    assert WindowEnd(ks, 1, 1) == 5;
    assert Close(pts[1], pts[1]);
    assert Close(pts[1], pts[4]);
    ScanEffect(ks, pts, o, 1, 1, 1, g, true);
  }

  /** The third pass: Q recaptures the second copy of P, already claimed by L. */
  lemma SplitPass3(ks: seq<real>, pts: seq<Vec3>, g: Groups)
    requires SplitLayout(ks, pts) && Shape(ks, pts, Identity5, g) && |g.leaders| == 2
    requires Reads(g, [0, 1, 1, -1, 1])
    ensures Reads(Led(ks, pts, Identity5, 3, g, true), [0, 1, 1, 2, 2])
  {
    var o := Identity5;
    assert Injective(o);
    assert WindowEnd(ks, 3, 3) == 5;
    assert Close(pts[3], pts[3]);
    assert Close(pts[3], pts[4]);
    ScanEffect(ks, pts, o, 3, 3, 2, g, true);
  }

  /** The whole sweep with recapture: three groups, and the two copies of P in different ones. */
  lemma SplitSweep(ks: seq<real>, pts: seq<Vec3>)
    requires SplitLayout(ks, pts)
    ensures var r := Sweep(ks, pts, Identity5, 0, Start(5), true);
      |r.leaders| == 3 && Reads(r, [0, 1, 1, 2, 2])
  {
    var o := Identity5;
    var g1 := Led(ks, pts, o, 0, Start(5), true);
    SplitPass0(ks, pts);
    var g2 := Led(ks, pts, o, 1, g1, true);
    SplitPass1(ks, pts, g1);
    var g3 := Led(ks, pts, o, 3, g2, true);
    SplitPass3(ks, pts, g2);
    assert Sweep(ks, pts, o, 0, Start(5), true) == Sweep(ks, pts, o, 1, g1, true);
    assert Sweep(ks, pts, o, 1, g1, true) == Sweep(ks, pts, o, 2, g2, true);
    assert Sweep(ks, pts, o, 2, g2, true) == Sweep(ks, pts, o, 3, g2, true);
    assert Sweep(ks, pts, o, 3, g2, true) == Sweep(ks, pts, o, 4, g3, true);
    assert Sweep(ks, pts, o, 4, g3, true) == g3;
  }

  /**
   * Input vertices that sort into a split layout: the first vertex, then L, P, Q, P by
   * distance from it.
   */
  predicate SplitShape(vs: seq<Vec3>, root: real -> real) {
    |vs| == 5 && vs[2] == vs[4] &&
    var ks := Keys(vs, root);
    ks[0] == 0.0 && Tol <= ks[1] < ks[2] && ks[2] == ks[3] && ks[2] - ks[1] < Tol &&
    Close(vs[1], vs[2]) && !Close(vs[1], vs[3]) && Close(vs[3], vs[2])
  }

  /** Such vertices keep their input order when sorted. */
  lemma SplitSorted(vs: seq<Vec3>, root: real -> real)
    requires SplitShape(vs, root)
    ensures Order(vs, root) == Identity5
    ensures SplitLayout(SortedKs(vs, root), SortedPts(vs, root))
    ensures SortedPts(vs, root) == vs
  {
    SortedStays(Keys(vs, root), 5);
    assert Identity5 == seq(5, i => i);
    assert SortedKs(vs, root) == Keys(vs, root);
    assert SortedPts(vs, root) == vs;
  }

  /**
   * On vertices of this shape the source's welding puts the two copies of P into different
   * output vertices: L's group takes both, then Q's group recaptures the second. Without
   * recapture they stay together.
   */
  lemma RecaptureSplitsDuplicates(vs: seq<Vec3>, root: real -> real)
    requires SplitShape(vs, root)
    ensures vs[2] == vs[4]
    ensures UnifyVerticesAsWritten(vs, [], root).index[2] != UnifyVerticesAsWritten(vs, [], root).index[4]
    ensures UnifyVertices(vs, [], root).index[2] == UnifyVertices(vs, [], root).index[4]
  {
    SplitSorted(vs, root);
    SplitSweep(SortedKs(vs, root), SortedPts(vs, root));
    var g := Grouping(vs, root, true);
    assert g == Sweep(SortedKs(vs, root), SortedPts(vs, root), Identity5, 0, Start(5), true);
    GroupingFacts(vs, root, true);
    assert UnifyVerticesAsWritten(vs, [], root) == Rebuild(vs, [], Identity5, g);
  }

  /**
   * A concrete input of that shape. Every coordinate is a multiple of 0.0000001, so in those
   * units `tol` is 100: the origin, then L at 159 units from it, P and Q at 163. |L - P| is
   * about 79.5 units, |L - Q| about 102.1 and |Q - P| about 24.0.
   */
  function SplitExample(): seq<Vec3> {
    [Vec3(0.0, 0.0, 0.0), Vec3(-0.0000059, 0.0000062, 0.0000134), Vec3(0.0000001, 0.0000018, 0.0000162), Vec3(0.0000018, 0.0000001, 0.0000162), Vec3(0.0000001, 0.0000018, 0.0000162)]
  }

  /** Math.sqrt on the three squared distances SplitExample needs, all exact squares. */
  predicate ExampleRoots(root: real -> real) {
    root(0.0) == 0.0 && root(0.00000000025281) == 0.0000159 && root(0.00000000026569) == 0.0000163
  }

  /** SplitExample has the splitting shape, so the source's welding splits its two copies of P. */
  lemma ExampleSplits(root: real -> real)
    requires ExampleRoots(root)
    ensures SplitShape(SplitExample(), root)
    ensures UnifyVerticesAsWritten(SplitExample(), [], root).index[2]
         != UnifyVerticesAsWritten(SplitExample(), [], root).index[4]
  {
    ExampleKeys(root);
    ExampleClose();
    RecaptureSplitsDuplicates(SplitExample(), root);
  }

  /** The keys of SplitExample: 0 for the origin, 159 units for L, 163 for P and Q. */
  lemma ExampleKeys(root: real -> real)
    requires ExampleRoots(root)
    ensures var ks := Keys(SplitExample(), root);
      ks[0] == 0.0 && ks[1] == 0.0000159 && ks[2] == 0.0000163 && ks[3] == 0.0000163
  {
    ExampleKey0(root);
    ExampleKey1(root);
    ExampleKey2(root);
    ExampleKey3(root);
  }

  /** A key is the root of the point's squared distance from the first point. */
  lemma KeyFrom(vs: seq<Vec3>, root: real -> real, p: nat, d: real)
    requires p < |vs| && SqDist(vs[p], vs[0]) == d
    ensures Keys(vs, root)[p] == root(d)
  {
  }

  /** The points of SplitExample, by position. */
  lemma ExamplePoints()
    ensures var vs := SplitExample();
      vs[0] == Vec3(0.0, 0.0, 0.0) && vs[1] == Vec3(-0.0000059, 0.0000062, 0.0000134) && vs[2] == Vec3(0.0000001, 0.0000018, 0.0000162) && vs[3] == Vec3(0.0000018, 0.0000001, 0.0000162) && vs[4] == Vec3(0.0000001, 0.0000018, 0.0000162)
  {
  }

  lemma ExampleKey0(root: real -> real)
    ensures Keys(SplitExample(), root)[0] == root(0.0)
  {
    KeyFrom(SplitExample(), root, 0, 0.0);
  }

  lemma ExampleKey1(root: real -> real)
    ensures Keys(SplitExample(), root)[1] == root(0.00000000025281)
  {
    ExampleDistance1();
    KeyFrom(SplitExample(), root, 1, 0.00000000025281);
  }

  /** L is at squared distance 0.00000000025281 from the origin. */
  lemma ExampleDistance1()
    ensures SqDist(SplitExample()[1], SplitExample()[0]) == 0.00000000025281
  {
    ExamplePoints();
    SqDistOf(Vec3(-0.0000059, 0.0000062, 0.0000134), Vec3(0.0, 0.0, 0.0));
  }

  lemma ExampleKey2(root: real -> real)
    ensures Keys(SplitExample(), root)[2] == root(0.00000000026569)
  {
    ExampleDistance2();
    KeyFrom(SplitExample(), root, 2, 0.00000000026569);
  }

  /** P is at squared distance 0.00000000026569 from the origin. */
  lemma ExampleDistance2()
    ensures SqDist(SplitExample()[2], SplitExample()[0]) == 0.00000000026569
  {
    ExamplePoints();
    SqDistOf(Vec3(0.0000001, 0.0000018, 0.0000162), Vec3(0.0, 0.0, 0.0));
  }

  lemma ExampleKey3(root: real -> real)
    ensures Keys(SplitExample(), root)[3] == root(0.00000000026569)
  {
    ExampleDistance3();
    KeyFrom(SplitExample(), root, 3, 0.00000000026569);
  }

  /** Q is at squared distance 0.00000000026569 from the origin. */
  lemma ExampleDistance3()
    ensures SqDist(SplitExample()[3], SplitExample()[0]) == 0.00000000026569
  {
    ExamplePoints();
    SqDistOf(Vec3(0.0000018, 0.0000001, 0.0000162), Vec3(0.0, 0.0, 0.0));
  }

  /** The squared distance written out coordinate by coordinate. */
  lemma SqDistOf(a: Vec3, b: Vec3)
    ensures SqDist(a, b) == (a.x - b.x) * (a.x - b.x) + (a.y - b.y) * (a.y - b.y) + (a.z - b.z) * (a.z - b.z)
  {
  }

  /** Which points of SplitExample are within `tol` of which. */
  lemma ExampleClose()
    ensures var vs := SplitExample();
      Close(vs[1], vs[2]) && !Close(vs[1], vs[3]) && Close(vs[3], vs[2])
  {
    assert Tol * Tol == 0.0000000001;
    SqDistOf(Vec3(-0.0000059, 0.0000062, 0.0000134), Vec3(0.0000001, 0.0000018, 0.0000162));
    SqDistOf(Vec3(-0.0000059, 0.0000062, 0.0000134), Vec3(0.0000018, 0.0000001, 0.0000162));
    SqDistOf(Vec3(0.0000018, 0.0000001, 0.0000162), Vec3(0.0000001, 0.0000018, 0.0000162));
  }
}
