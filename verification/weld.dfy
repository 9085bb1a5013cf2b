/** Vertex welding (unifyVertices): merging the marching-cubes soup's repeated corners. */
module Weld {
  import opened Geometry
  import opened Meshes

  /** The source's welding tolerance `tol`. */
  const Tol: real := 0.00001

  /** The pairwise test `distance < tol`, stated on the squared distance. */
  predicate Close(a: Vec3, b: Vec3) {
    SqDist(a, b) < Tol * Tol
  }

  /** For a true square root r of s, the source's test on r is the test on s. */
  lemma RootClose(s: real, r: real)
    requires r >= 0.0 && r * r == s
    ensures r < Tol <==> s < Tol * Tol
  {
    if r < Tol {
      assert r * r <= r * Tol;
      assert r * Tol < Tol * Tol;
    } else {
      assert r * r >= r * Tol;
      assert r * Tol >= Tol * Tol;
    }
  }

  // ---------------------------------------------------------------- sorting

  /**
   * The order of the stable `vtxs.sort` by distance: a smaller key first, and among equal keys
   * the smaller input index first.
   */
  predicate Before(keys: seq<real>, x: nat, y: nat)
    requires x < |keys| && y < |keys|
  {
    keys[x] < keys[y] || (keys[x] == keys[y] && x < y)
  }

  /** order lists input indices strictly ascending in the sort order. */
  predicate Ascending(keys: seq<real>, order: seq<nat>) {
    (forall p | 0 <= p < |order| :: order[p] < |keys|) &&
    forall p, q | 0 <= p < q < |order| :: Before(keys, order[p], order[q])
  }

  /** Insert x at its place in an ascending order. */
  function Insert(keys: seq<real>, order: seq<nat>, x: nat): (r: seq<nat>)
    requires x < |keys| && Ascending(keys, order) && x !in order
    ensures Ascending(keys, r) && |r| == |order| + 1
    ensures forall y :: y in r <==> y in order || y == x
  {
    if order == [] then [x]
    else if Before(keys, x, order[0]) then
      var r := [x] + order;
      assert forall q | 1 <= q < |r| :: r[q] == order[q - 1];
      r
    else
      var rest := Insert(keys, order[1..], x);
      var r := [order[0]] + rest;
      assert forall y | y in rest :: Before(keys, order[0], y) by {
        forall y | y in rest
          ensures Before(keys, order[0], y)
        {
          if y != x {
            var q :| 1 <= q < |order| && order[q] == y;
          }
        }
      }
      assert forall q | 1 <= q < |r| :: r[q] == rest[q - 1];
      assert order == [order[0]] + order[1..];
      r
  }

  /**
   * The sorted order of the indices below n: every index exactly once, ascending. Sorting by
   * (key, index) is exactly what the stable Array.prototype.sort does by key alone.
   */
  function SortOrder(keys: seq<real>, n: nat): (r: seq<nat>)
    requires n <= |keys|
    ensures Ascending(keys, r) && |r| == n
    ensures forall y: nat :: y in r <==> y < n
  {
    if n == 0 then [] else Insert(keys, SortOrder(keys, n - 1), n - 1)
  }

  /** An index that sorts after every listed one is appended at the end. */
  lemma {:induction false} InsertLast(keys: seq<real>, order: seq<nat>, x: nat)
    requires x < |keys| && Ascending(keys, order) && x !in order
    requires forall p | 0 <= p < |order| :: Before(keys, order[p], x)
    ensures Insert(keys, order, x) == order + [x]
  {
    if order != [] {
      assert !Before(keys, x, order[0]);
      InsertLast(keys, order[1..], x);
      assert order == [order[0]] + order[1..];
    }
  }

  /** The sort is stable: keys that already ascend keep their input order. */
  lemma {:induction false} SortedStays(keys: seq<real>, n: nat)
    requires n <= |keys| && forall p, q | 0 <= p <= q < n :: keys[p] <= keys[q]
    ensures SortOrder(keys, n) == seq(n, i => i)
  {
    if n > 0 {
      SortedStays(keys, n - 1);
      var o: seq<nat> := seq(n - 1, i => i);
      InsertLast(keys, o, n - 1);
      assert o + [n - 1] == seq(n, i => i);
    }
  }

  /** Along an ascending order the keys never decrease, and no index repeats. */
  lemma AscendingKeys(keys: seq<real>, order: seq<nat>)
    requires Ascending(keys, order)
    ensures forall p, q | 0 <= p <= q < |order| :: keys[order[p]] <= keys[order[q]]
    ensures forall p, q | 0 <= p < |order| && 0 <= q < |order| && p != q :: order[p] != order[q]
  {
    forall p, q | 0 <= p < |order| && 0 <= q < |order| && p != q
      ensures order[p] != order[q]
    {
      if p < q {
        assert Before(keys, order[p], order[q]);
      } else {
        assert Before(keys, order[q], order[p]);
      }
    }
  }

  // ---------------------------------------------------------------- grouping

  /**
   * The welding state over sorted positions: the group of each position (`outIndex`, -1 when
   * unassigned), the group of each input vertex (`triRemaps`), and the sorted position that
   * leads each group (`vtxRemaps`).
   */
  datatype Groups = Groups(outIndex: seq<int>, triRemap: seq<int>, leaders: seq<nat>)

  /**
   * The sorted keys `ks`, the sorted points `pts`, the sort order, and a state, all over the
   * same n vertices.
   */
  predicate Shape(ks: seq<real>, pts: seq<Vec3>, order: seq<nat>, g: Groups) {
    |pts| == |ks| && |order| == |ks| && |g.outIndex| == |ks| && |g.triRemap| == |ks| &&
    forall p | 0 <= p < |order| :: order[p] < |order|
  }

  /** No input index appears twice in the order. */
  predicate Injective(order: seq<nat>) {
    forall p, q | 0 <= p < |order| && 0 <= q < |order| && p != q :: order[p] != order[q]
  }

  /**
   * Whether the scan of leader i captures position j: the points are within `tol`, and, unless
   * `recapture` is set, j belongs to no group yet. The source (recapture) also takes vertices
   * that an earlier leader already captured.
   */
  predicate Joins(recapture: bool, pts: seq<Vec3>, g: Groups, i: nat, j: nat)
    requires i < |pts| && j < |pts| && j < |g.outIndex|
  {
    Close(pts[i], pts[j]) && (recapture || g.outIndex[j] < 0)
  }

  /** The first position from j on whose key is `tol` or more beyond the key of leader i. */
  function WindowEnd(ks: seq<real>, i: nat, j: nat): (e: nat)
    requires i <= j <= |ks|
    ensures j <= e <= |ks|
    ensures forall p | j <= p < e :: ks[p] - ks[i] < Tol
    ensures e < |ks| ==> ks[e] - ks[i] >= Tol
    decreases |ks| - j
  {
    if j < |ks| && ks[j] - ks[i] < Tol then WindowEnd(ks, i, j + 1) else j
  }

  /**
   * The inner `while` of leader i from position j: every position of the key window that the
   * leader captures gets group u, in outIndex and in triRemaps.
   */
  function Scan(ks: seq<real>, pts: seq<Vec3>, order: seq<nat>, i: nat, j: nat, u: nat, g: Groups,
                recapture: bool): (r: Groups)
    requires Shape(ks, pts, order, g) && i <= j <= |ks|
    ensures Shape(ks, pts, order, r) && r.leaders == g.leaders
    decreases |ks| - j
  {
    if j < |ks| && ks[j] - ks[i] < Tol then
      var next := if Joins(recapture, pts, g, i, j)
        then Groups(g.outIndex[j := u], g.triRemap[order[j] := u], g.leaders)
        else g;
      Scan(ks, pts, order, i, j + 1, u, next, recapture)
    else g
  }

  /** The outer `for`: every position not yet in a group leads a new one. */
  function Sweep(ks: seq<real>, pts: seq<Vec3>, order: seq<nat>, i: nat, g: Groups, recapture: bool): (r: Groups)
    requires Shape(ks, pts, order, g) && i <= |ks|
    ensures Shape(ks, pts, order, r)
    decreases |ks| - i
  {
    if i == |ks| then g
    else if g.outIndex[i] >= 0 then Sweep(ks, pts, order, i + 1, g, recapture)
    else Sweep(ks, pts, order, i + 1, Led(ks, pts, order, i, g, recapture), recapture)
  }

  /** What one scan changes: exactly the captured positions of the window, and their vertices. */
  lemma {:induction false} ScanEffect(ks: seq<real>, pts: seq<Vec3>, order: seq<nat>, i: nat, j: nat, u: nat,
                                      g: Groups, recapture: bool)
    requires Shape(ks, pts, order, g) && Injective(order) && i <= j <= |ks|
    ensures var r, e := Scan(ks, pts, order, i, j, u, g, recapture), WindowEnd(ks, i, j);
      (forall p | 0 <= p < |ks| ::
         r.outIndex[p] == if j <= p < e && Joins(recapture, pts, g, i, p) then u else g.outIndex[p]) &&
      (forall q | 0 <= q < |ks| ::
         r.triRemap[order[q]] == if j <= q < e && Joins(recapture, pts, g, i, q) then u else g.triRemap[order[q]])
    decreases |ks| - j
  {
    if j < |ks| && ks[j] - ks[i] < Tol {
      var next := if Joins(recapture, pts, g, i, j)
        then Groups(g.outIndex[j := u], g.triRemap[order[j] := u], g.leaders)
        else g;
      ScanEffect(ks, pts, order, i, j + 1, u, next, recapture);
      assert forall p | j < p < |ks| :: Joins(recapture, pts, next, i, p) == Joins(recapture, pts, g, i, p);
    }
  }

  /** The keys ascend along the sorted positions and depend on the point only. */
  predicate SortedKeys(ks: seq<real>, pts: seq<Vec3>)
    requires |pts| == |ks|
  {
    (forall p, q | 0 <= p <= q < |ks| :: ks[p] <= ks[q]) &&
    (forall p, q | 0 <= p < |ks| && 0 <= q < |ks| && pts[p] == pts[q] :: ks[p] == ks[q])
  }

  /**
   * The loop invariant of the outer `for` before position i: groups are numbered below the
   * leader count, every earlier position has one, triRemaps agrees with outIndex, every leader
   * sits before i in its own group in ascending order, and every member is within `tol` of its
   * leader.
   */
  predicate Inv(ks: seq<real>, pts: seq<Vec3>, order: seq<nat>, i: nat, g: Groups)
    requires Shape(ks, pts, order, g)
  {
    var n := |ks|;
    i <= n && |g.leaders| <= i &&
    (forall p | 0 <= p < n :: -1 <= g.outIndex[p] < |g.leaders|) &&
    (forall p | 0 <= p < i :: g.outIndex[p] >= 0) &&
    (forall q | 0 <= q < n :: g.triRemap[order[q]] == g.outIndex[q]) &&
    (forall h | 0 <= h < |g.leaders| :: g.leaders[h] < i && g.outIndex[g.leaders[h]] == h) &&
    (forall h, h' | 0 <= h < h' < |g.leaders| :: g.leaders[h] < g.leaders[h']) &&
    (forall p | 0 <= p < n && 0 <= g.outIndex[p] < |g.leaders| :: Close(pts[g.leaders[g.outIndex[p]]], pts[p]))
  }

  /** Equal points are in the same group. */
  predicate Consistent(pts: seq<Vec3>, g: Groups)
    requires |g.outIndex| == |pts|
  {
    forall p, q | 0 <= p < |pts| && 0 <= q < |pts| && pts[p] == pts[q] :: g.outIndex[p] == g.outIndex[q]
  }

  /** The state after leader i's turn: its scan, and i appended to the leaders. */
  function Led(ks: seq<real>, pts: seq<Vec3>, order: seq<nat>, i: nat, g: Groups, recapture: bool): (r: Groups)
    requires Shape(ks, pts, order, g) && i < |ks|
    ensures Shape(ks, pts, order, r) && r.leaders == g.leaders + [i]
  {
    var s := Scan(ks, pts, order, i, i, |g.leaders|, g, recapture);
    Groups(s.outIndex, s.triRemap, g.leaders + [i])
  }

  /** One leader's turn keeps the invariant. */
  lemma LeaderStep(ks: seq<real>, pts: seq<Vec3>, order: seq<nat>, i: nat, g: Groups, recapture: bool)
    requires Shape(ks, pts, order, g) && Injective(order)
    requires Inv(ks, pts, order, i, g) && i < |ks| && g.outIndex[i] < 0
    ensures Inv(ks, pts, order, i + 1, Led(ks, pts, order, i, g, recapture))
  {
    var n, u := |ks|, |g.leaders|;
    var g' := Led(ks, pts, order, i, g, recapture);
    var e := WindowEnd(ks, i, i);
    ScanEffect(ks, pts, order, i, i, u, g, recapture);
    assert Joins(recapture, pts, g, i, i);
    assert g'.outIndex[i] == u;
    assert forall h | 0 <= h < u :: g'.leaders[h] == g.leaders[h];
  }

  /** Without recapture, one leader's turn keeps equal points in one group. */
  lemma LeaderConsistent(ks: seq<real>, pts: seq<Vec3>, order: seq<nat>, i: nat, g: Groups)
    requires Shape(ks, pts, order, g) && Injective(order) && SortedKeys(ks, pts)
    requires Inv(ks, pts, order, i, g) && i < |ks| && Consistent(pts, g)
    ensures Consistent(pts, Led(ks, pts, order, i, g, false))
  {
    var n, u := |ks|, |g.leaders|;
    var g' := Led(ks, pts, order, i, g, false);
    var e := WindowEnd(ks, i, i);
    ScanEffect(ks, pts, order, i, i, u, g, false);
    forall p, q | 0 <= p < n && 0 <= q < n && pts[p] == pts[q]
      ensures g'.outIndex[p] == g'.outIndex[q]
    {
      if i <= p {
        Together(ks, pts, i, e, p, q);
      }
      if i <= q {
        Together(ks, pts, i, e, q, p);
      }
    }
  }

  /** Two positions of one point are both inside the key window of leader i or both outside it. */
  lemma Together(ks: seq<real>, pts: seq<Vec3>, i: nat, e: nat, p: nat, q: nat)
    requires |pts| == |ks| && SortedKeys(ks, pts)
    requires i < |ks| && e == WindowEnd(ks, i, i)
    requires p < |ks| && q < |ks| && pts[p] == pts[q] && i <= p
    ensures p < e ==> q < e
  {
  }

  /** The state after position i: unchanged when i already has a group, else i leads one. */
  function Next(ks: seq<real>, pts: seq<Vec3>, order: seq<nat>, i: nat, g: Groups, recapture: bool): (r: Groups)
    requires Shape(ks, pts, order, g) && i < |ks|
    ensures Shape(ks, pts, order, r)
    ensures r.leaders == if g.outIndex[i] >= 0 then g.leaders else g.leaders + [i]
  {
    if g.outIndex[i] >= 0 then g else Led(ks, pts, order, i, g, recapture)
  }

  /**
   * Any property of (position, state) that each step of the outer loop carries forward holds
   * when the loop ends.
   */
  lemma {:induction false} SweepKeeps(ks: seq<real>, pts: seq<Vec3>, order: seq<nat>, i: nat, g: Groups,
                                      recapture: bool, P: (nat, Groups) -> bool)
    requires Shape(ks, pts, order, g) && i <= |ks| && P(i, g)
    requires forall j: nat, h: Groups | j < |ks| && Shape(ks, pts, order, h) && P(j, h) ::
               P(j + 1, Next(ks, pts, order, j, h, recapture))
    ensures P(|ks|, Sweep(ks, pts, order, i, g, recapture))
    decreases |ks| - i
  {
    if i < |ks| {
      SweepKeeps(ks, pts, order, i + 1, Next(ks, pts, order, i, g, recapture), recapture, P);
    }
  }

  /** The invariant of the outer loop, with equal points sharing a group when recapture is off. */
  predicate Good(ks: seq<real>, pts: seq<Vec3>, order: seq<nat>, recapture: bool, i: nat, g: Groups) {
    Shape(ks, pts, order, g) && Inv(ks, pts, order, i, g) && (!recapture ==> Consistent(pts, g))
  }

  /** Every step of the outer loop keeps `Good`. */
  lemma GoodStep(ks: seq<real>, pts: seq<Vec3>, order: seq<nat>, recapture: bool)
    requires |pts| == |ks| && Injective(order) && SortedKeys(ks, pts)
    ensures forall j: nat, h: Groups | j < |ks| && Shape(ks, pts, order, h) && Good(ks, pts, order, recapture, j, h) ::
              Good(ks, pts, order, recapture, j + 1, Next(ks, pts, order, j, h, recapture))
  {
    forall j: nat, h: Groups | j < |ks| && Shape(ks, pts, order, h) && Good(ks, pts, order, recapture, j, h)
      ensures Good(ks, pts, order, recapture, j + 1, Next(ks, pts, order, j, h, recapture))
    {
      NextStep(ks, pts, order, j, h, recapture);
    }
  }

  /** The outer loop keeps the invariant to its end; without recapture equal points share a group. */
  lemma SweepInv(ks: seq<real>, pts: seq<Vec3>, order: seq<nat>, i: nat, g: Groups, recapture: bool)
    requires |pts| == |ks| && Injective(order) && SortedKeys(ks, pts) && Good(ks, pts, order, recapture, i, g)
    ensures Good(ks, pts, order, recapture, |ks|, Sweep(ks, pts, order, i, g, recapture))
  {
    GoodStep(ks, pts, order, recapture);
    SweepKeeps(ks, pts, order, i, g, recapture, (j: nat, h: Groups) => Good(ks, pts, order, recapture, j, h));
  }

  /** The state after position i, skipped or led, keeps the invariant. */
  lemma NextStep(ks: seq<real>, pts: seq<Vec3>, order: seq<nat>, i: nat, g: Groups, recapture: bool)
    requires Shape(ks, pts, order, g) && Injective(order) && SortedKeys(ks, pts) && Inv(ks, pts, order, i, g)
    requires i < |ks|
    ensures var g' := Next(ks, pts, order, i, g, recapture);
      Inv(ks, pts, order, i + 1, g') && (!recapture && Consistent(pts, g) ==> Consistent(pts, g'))
  {
    if g.outIndex[i] >= 0 {
      SkipStep(ks, pts, order, i, g);
    } else {
      LeaderStep(ks, pts, order, i, g, recapture);
      if !recapture && Consistent(pts, g) {
        LeaderConsistent(ks, pts, order, i, g);
      }
    }
  }

  /** A position already in a group is passed over, and the invariant moves past it. */
  lemma SkipStep(ks: seq<real>, pts: seq<Vec3>, order: seq<nat>, i: nat, g: Groups)
    requires Shape(ks, pts, order, g) && Inv(ks, pts, order, i, g) && i < |ks| && g.outIndex[i] >= 0
    ensures Inv(ks, pts, order, i + 1, g)
  {
  }

  /** A strictly ascending list of n indices below n is 0, 1, ..., n - 1. */
  lemma AllLead(leaders: seq<nat>, n: nat)
    requires |leaders| == n && forall h | 0 <= h < n :: leaders[h] < n
    requires forall h, h' | 0 <= h < h' < n :: leaders[h] < leaders[h']
    ensures forall h | 0 <= h < n :: leaders[h] == h
  {
    forall h | 0 <= h < n
      ensures leaders[h] == h
    {
      LeadFrom(leaders, n, h);
      LeadTo(leaders, n, h);
    }
  }

  lemma {:induction false} LeadFrom(leaders: seq<nat>, n: nat, h: nat)
    requires |leaders| == n && h < n
    requires forall h, h' | 0 <= h < h' < n :: leaders[h] < leaders[h']
    ensures h <= leaders[h]
  {
    if h > 0 {
      LeadFrom(leaders, n, h - 1);
    }
  }

  lemma {:induction false} LeadTo(leaders: seq<nat>, n: nat, h: nat)
    requires |leaders| == n && h < n && forall h | 0 <= h < n :: leaders[h] < n
    requires forall h, h' | 0 <= h < h' < n :: leaders[h] < leaders[h']
    ensures leaders[h] <= h
    decreases n - h
  {
    if h + 1 < n {
      LeadTo(leaders, n, h + 1);
    }
  }

  // ---------------------------------------------------------------- welding

  /** The sort keys: each vertex's distance from the first vertex, through `root` for Math.sqrt. */
  function Keys(vs: seq<Vec3>, root: real -> real): (ks: seq<real>)
    requires |vs| > 0
    ensures |ks| == |vs|
    ensures forall x, y | 0 <= x < |vs| && 0 <= y < |vs| && vs[x] == vs[y] :: ks[x] == ks[y]
  {
    seq(|vs|, p requires 0 <= p < |vs| => root(SqDist(vs[p], vs[0])))
  }

  /** The sort order of the vertices: vtxs after `vtxs.sort`, as input indices. */
  function Order(vs: seq<Vec3>, root: real -> real): (order: seq<nat>)
    requires |vs| > 0
    ensures |order| == |vs|
  {
    SortOrder(Keys(vs, root), |vs|)
  }

  /** The keys in sorted position. */
  function SortedKs(vs: seq<Vec3>, root: real -> real): (ks: seq<real>)
    requires |vs| > 0
    ensures |ks| == |vs|
  {
    var keys, order := Keys(vs, root), Order(vs, root);
    seq(|vs|, p requires 0 <= p < |vs| => keys[order[p]])
  }

  /** The points in sorted position. */
  function SortedPts(vs: seq<Vec3>, root: real -> real): (pts: seq<Vec3>)
    requires |vs| > 0
    ensures |pts| == |vs|
  {
    var order := Order(vs, root);
    seq(|vs|, p requires 0 <= p < |vs| => vs[order[p]])
  }

  /** No vertex in a group yet: outIndex and triRemaps filled with -1, no leader. */
  function Start(n: nat): Groups {
    Groups(seq(n, _ => -1), seq(n, _ => -1), [])
  }

  /** The groups the source's two loops compute for vs. */
  function Grouping(vs: seq<Vec3>, root: real -> real, recapture: bool): (g: Groups)
    requires |vs| > 0
  {
    Setup(vs, root);
    Sweep(SortedKs(vs, root), SortedPts(vs, root), Order(vs, root), 0, Start(|vs|), recapture)
  }

  /** The sorted arrays meet the outer loop's preconditions and its invariant at the start. */
  lemma Setup(vs: seq<Vec3>, root: real -> real)
    requires |vs| > 0
    ensures var ks, pts, order, n := SortedKs(vs, root), SortedPts(vs, root), Order(vs, root), |vs|;
      Shape(ks, pts, order, Start(n)) && Injective(order) && SortedKeys(ks, pts) &&
      Inv(ks, pts, order, 0, Start(n)) && Consistent(pts, Start(n)) &&
      (forall p | 0 <= p < n :: pts[p] == vs[order[p]]) &&
      (forall x | 0 <= x < n :: x in order)
  {
    var keys, order := Keys(vs, root), Order(vs, root);
    AscendingKeys(keys, order);
  }

  /** The final state of the outer loop, read back over the input vertices through the order. */
  predicate Final(vs: seq<Vec3>, ks: seq<real>, pts: seq<Vec3>, order: seq<nat>, g: Groups)
  {
    Shape(ks, pts, order, g) && |vs| == |ks| &&
    (forall p | 0 <= p < |ks| :: pts[p] == vs[order[p]]) &&
    (forall x | 0 <= x < |ks| :: x in order) &&
    Inv(ks, pts, order, |ks|, g)
  }

  /** Every vertex has a group below the group count and lies within `tol` of that group's leader. */
  lemma FinalClose(vs: seq<Vec3>, ks: seq<real>, pts: seq<Vec3>, order: seq<nat>, g: Groups)
    requires Final(vs, ks, pts, order, g)
    ensures var n, u := |vs|, |g.leaders|;
      (forall h | 0 <= h < u :: g.leaders[h] < n) &&
      (forall x | 0 <= x < n :: 0 <= g.triRemap[x] < u && Close(vs[order[g.leaders[g.triRemap[x]]]], vs[x]))
  {
    var n := |vs|;
    forall x | 0 <= x < n
      ensures 0 <= g.triRemap[x] < |g.leaders| && Close(vs[order[g.leaders[g.triRemap[x]]]], vs[x])
    {
      assert x in order;
      var q :| 0 <= q < n && order[q] == x;
      assert g.triRemap[x] == g.outIndex[q];
    }
  }

  /** Equal vertices have equal groups when equal points do. */
  lemma FinalConsistent(vs: seq<Vec3>, ks: seq<real>, pts: seq<Vec3>, order: seq<nat>, g: Groups)
    requires Final(vs, ks, pts, order, g) && Consistent(pts, g)
    ensures forall x, y | 0 <= x < |vs| && 0 <= y < |vs| && vs[x] == vs[y] :: g.triRemap[x] == g.triRemap[y]
  {
    var n := |vs|;
    forall x, y | 0 <= x < n && 0 <= y < n && vs[x] == vs[y]
      ensures g.triRemap[x] == g.triRemap[y]
    {
      assert x in order && y in order;
      var q :| 0 <= q < n && order[q] == x;
      var q' :| 0 <= q' < n && order[q'] == y;
      assert pts[q] == pts[q'];
    }
  }

  /** With a group per vertex and equal points grouped together, no two vertices are equal. */
  lemma FinalDistinct(vs: seq<Vec3>, ks: seq<real>, pts: seq<Vec3>, order: seq<nat>, g: Groups)
    requires Final(vs, ks, pts, order, g) && Consistent(pts, g) && |g.leaders| == |vs|
    ensures forall x, y | 0 <= x < |vs| && 0 <= y < |vs| && vs[x] == vs[y] :: x == y
  {
    var n := |vs|;
    AllLead(g.leaders, n);
    forall x, y | 0 <= x < n && 0 <= y < n && vs[x] == vs[y]
      ensures x == y
    {
      assert x in order && y in order;
      var q :| 0 <= q < n && order[q] == x;
      var q' :| 0 <= q' < n && order[q'] == y;
      assert pts[q] == pts[q'];
      assert g.outIndex[g.leaders[q]] == q;
      assert g.outIndex[g.leaders[q']] == q';
    }
  }

  /**
   * What the grouping promises about the input vertices: every vertex gets a group below the
   * group count and lies within `tol` of its group's leader; without recapture, equal vertices
   * share a group, and a group per vertex means no two vertices are equal.
   */
  lemma GroupingFacts(vs: seq<Vec3>, root: real -> real, recapture: bool)
    requires |vs| > 0
    ensures var g, order := Grouping(vs, root, recapture), Order(vs, root);
      var n, u := |vs|, |g.leaders|;
      1 <= u <= n && |g.triRemap| == n &&
      (forall h | 0 <= h < u :: g.leaders[h] < n) &&
      (forall x | 0 <= x < n :: 0 <= g.triRemap[x] < u && Close(vs[order[g.leaders[g.triRemap[x]]]], vs[x])) &&
      (!recapture ==> forall x, y | 0 <= x < n && 0 <= y < n && vs[x] == vs[y] :: g.triRemap[x] == g.triRemap[y]) &&
      (!recapture && u == n ==> forall x, y | 0 <= x < n && 0 <= y < n && vs[x] == vs[y] :: x == y)
  {
    var n := |vs|;
    var ks, pts, order := SortedKs(vs, root), SortedPts(vs, root), Order(vs, root);
    var g := Grouping(vs, root, recapture);
    Setup(vs, root);
    SweepInv(ks, pts, order, 0, Start(n), recapture);
    assert g.outIndex[0] >= 0;
    assert Final(vs, ks, pts, order, g);
    FinalClose(vs, ks, pts, order, g);
    if !recapture {
      FinalConsistent(vs, ks, pts, order, g);
      if |g.leaders| == n {
        FinalDistinct(vs, ks, pts, order, g);
      }
    }
  }

  /** The welded mesh, and for each input vertex the output vertex it became. */
  datatype Welded = Welded(mesh: Mesh, index: seq<nat>)

  /**
   * One corner through the remap `triangles[i] = triRemaps[triangles[i]]`: an index past the end
   * reads `undefined`, which the Uint32Array stores as 0.
   */
  function MovedCorner(c: nat, index: seq<nat>): nat {
    if c < |index| then index[c] else 0
  }

  function Moved(t: Tri, index: seq<nat>): Tri {
    Tri(MovedCorner(t.a, index), MovedCorner(t.b, index), MovedCorner(t.c, index))
  }

  /**
   * unifyVertices, with or without recapture. When every vertex leads its own group the input
   * is returned as it is; otherwise the output holds each group's leader, in group order, and
   * every triangle corner is moved to its vertex's group.
   */
  function WeldWith(vs: seq<Vec3>, tris: seq<Tri>, root: real -> real, recapture: bool): (r: Welded)
    ensures |r.mesh.vertices| <= |vs| && |r.index| == |vs| && |r.mesh.tris| == |tris|
    ensures |vs| > 0 ==> |r.mesh.vertices| > 0
    ensures |r.mesh.vertices| == |vs| ==> r.mesh == Mesh(vs, tris) && forall x | 0 <= x < |vs| :: r.index[x] == x
    ensures forall x | 0 <= x < |vs| :: r.index[x] < |r.mesh.vertices| && Close(r.mesh.vertices[r.index[x]], vs[x])
    ensures forall q | 0 <= q < |r.mesh.vertices| :: r.mesh.vertices[q] in vs
    ensures |r.mesh.vertices| < |vs| ==> forall t | 0 <= t < |tris| :: r.mesh.tris[t] == Moved(tris[t], r.index)
    ensures !recapture ==> forall x, y | 0 <= x < |vs| && 0 <= y < |vs| && vs[x] == vs[y] :: r.index[x] == r.index[y]
  {
    if |vs| == 0 then Welded(Mesh(vs, tris), [])
    else
      var g, order := Grouping(vs, root, recapture), Order(vs, root);
      GroupingFacts(vs, root, recapture);
      var u := |g.leaders|;
      if u == |vs| then Welded(Mesh(vs, tris), seq(|vs|, x => x))
      else Rebuild(vs, tris, order, g)
  }

  /**
   * The output of a welding that merged something: each group's leader in group order
   * (`vtxRemaps`), and the triangles moved through `triRemaps`.
   */
  function Rebuild(vs: seq<Vec3>, tris: seq<Tri>, order: seq<nat>, g: Groups): (r: Welded)
    requires |order| == |vs| && |g.triRemap| == |vs| && 1 <= |g.leaders| < |vs|
    requires forall p | 0 <= p < |order| :: order[p] < |vs|
    requires forall h | 0 <= h < |g.leaders| :: g.leaders[h] < |vs|
    requires forall x | 0 <= x < |vs| ::
               0 <= g.triRemap[x] < |g.leaders| && Close(vs[order[g.leaders[g.triRemap[x]]]], vs[x])
    ensures |r.mesh.vertices| == |g.leaders| && |r.index| == |vs| && |r.mesh.tris| == |tris|
    ensures forall x | 0 <= x < |vs| :: r.index[x] < |r.mesh.vertices| && Close(r.mesh.vertices[r.index[x]], vs[x])
    ensures forall q | 0 <= q < |r.mesh.vertices| :: r.mesh.vertices[q] in vs
    ensures forall t | 0 <= t < |tris| :: r.mesh.tris[t] == Moved(tris[t], r.index)
    ensures (forall x, y | 0 <= x < |vs| && 0 <= y < |vs| && vs[x] == vs[y] :: g.triRemap[x] == g.triRemap[y]) ==>
            forall x, y | 0 <= x < |vs| && 0 <= y < |vs| && vs[x] == vs[y] :: r.index[x] == r.index[y]
  {
    var u := |g.leaders|;
    var index := seq(|vs|, x requires 0 <= x < |vs| => g.triRemap[x] as nat);
    var out := seq(u, q requires 0 <= q < u => vs[order[g.leaders[q]]]);
    Welded(Mesh(out, seq(|tris|, t requires 0 <= t < |tris| => Moved(tris[t], index))), index)
  }

  /** unifyVertices as the source writes it: a leader's scan recaptures vertices of earlier groups. */
  function UnifyVerticesAsWritten(vs: seq<Vec3>, tris: seq<Tri>, root: real -> real): (r: Welded)
    ensures |r.mesh.vertices| <= |vs| && |r.index| == |vs|
    ensures forall x | 0 <= x < |vs| :: r.index[x] < |r.mesh.vertices| && Close(r.mesh.vertices[r.index[x]], vs[x])
    ensures |r.mesh.tris| == |tris| && (|vs| > 0 ==> |r.mesh.vertices| > 0)
    ensures forall q | 0 <= q < |r.mesh.vertices| :: r.mesh.vertices[q] in vs
    ensures |r.mesh.vertices| == |vs| ==> r.mesh == Mesh(vs, tris)
    ensures |r.mesh.vertices| < |vs| ==> forall t | 0 <= t < |tris| :: r.mesh.tris[t] == Moved(tris[t], r.index)
  {
    WeldWith(vs, tris, root, true)
  }

  /** unifyVertices with the scan restricted to vertices no group holds yet: equal vertices are welded. */
  function UnifyVertices(vs: seq<Vec3>, tris: seq<Tri>, root: real -> real): (r: Welded)
    ensures |r.mesh.vertices| <= |vs| && |r.index| == |vs|
    ensures forall x | 0 <= x < |vs| :: r.index[x] < |r.mesh.vertices| && Close(r.mesh.vertices[r.index[x]], vs[x])
    ensures forall x, y | 0 <= x < |vs| && 0 <= y < |vs| && vs[x] == vs[y] :: r.index[x] == r.index[y]
    ensures |r.mesh.tris| == |tris| && (|vs| > 0 ==> |r.mesh.vertices| > 0)
    ensures forall q | 0 <= q < |r.mesh.vertices| :: r.mesh.vertices[q] in vs
    ensures |r.mesh.vertices| == |vs| ==> r.mesh == Mesh(vs, tris)
    ensures |r.mesh.vertices| < |vs| ==> forall t | 0 <= t < |tris| :: r.mesh.tris[t] == Moved(tris[t], r.index)
  {
    WeldWith(vs, tris, root, false)
  }
}
