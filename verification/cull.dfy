/** Triangles of the welded mesh and the removal of degenerate ones (cullDegenerateTriangles). */
module Meshes {
  import opened Wrappers
  import opened Geometry

  /** One triangle: the three vertex indices of a triple of the source's Uint32Array. */
  datatype Tri = Tri(a: nat, b: nat, c: nat)

  /** A mesh as the pipeline hands it around: vertices and triangles over them. */
  datatype Mesh = Mesh(vertices: seq<Vec3>, tris: seq<Tri>)

  /** A triangle that repeats a vertex index has no area. */
  predicate Degenerate(t: Tri) {
    t.a == t.b || t.a == t.c || t.b == t.c
  }

  /** Every triangle of ts is non-degenerate. */
  predicate AllValid(ts: seq<Tri>) {
    forall n | 0 <= n < |ts| :: !Degenerate(ts[n])
  }

  /** Every triangle of ts is degenerate. */
  predicate AllDegenerate(ts: seq<Tri>) {
    forall n | 0 <= n < |ts| :: Degenerate(ts[n])
  }

  /** The non-degenerate triangles of ts, in their original order: the copy loop of the source. */
  function KeepValid(ts: seq<Tri>): (r: seq<Tri>)
    ensures |r| <= |ts|
    ensures AllValid(r)
    ensures forall t | t in r :: t in ts
  {
    if ts == [] then []
    else
      var last := ts[|ts| - 1];
      KeepValid(ts[..|ts| - 1]) + (if Degenerate(last) then [] else [last])
  }

  /**
   * cullDegenerateTriangles: count the non-degenerate triangles; when that is all of them
   * (an empty list included) the input is returned as it is, when it is none of them the
   * source throws, otherwise the non-degenerate ones are copied in order.
   */
  function Cull(ts: seq<Tri>): (r: Result<seq<Tri>>)
    ensures r.Err? <==> |ts| > 0 && AllDegenerate(ts)
    ensures r.Err? ==> r.error == NoValidTriangles
    ensures r.Ok? ==> AllValid(r.value) && r.value == KeepValid(ts)
    ensures r.Ok? ==> forall t | t in ts && !Degenerate(t) :: t in r.value
    ensures AllValid(ts) ==> r == Ok(ts)
  {
    var kept := KeepValid(ts);
    KeepValidCount(ts);
    KeepValidComplete(ts);
    if |kept| == |ts| then Ok(ts)
    else if |kept| == 0 then Err(NoValidTriangles)
    else Ok(kept)
  }

  /** Nothing is dropped exactly when nothing is degenerate, and nothing is kept exactly when everything is. */
  lemma {:induction false} KeepValidCount(ts: seq<Tri>)
    ensures |KeepValid(ts)| == |ts| <==> AllValid(ts)
    ensures AllValid(ts) ==> KeepValid(ts) == ts
    ensures |KeepValid(ts)| == 0 <==> AllDegenerate(ts)
  {
    if ts != [] {
      var init := ts[..|ts| - 1];
      KeepValidCount(init);
      assert forall n | 0 <= n < |init| :: init[n] == ts[n];
      if !AllValid(init) {
        var n :| 0 <= n < |init| && Degenerate(init[n]);
        assert Degenerate(ts[n]);
      }
      if !AllDegenerate(init) {
        var n :| 0 <= n < |init| && !Degenerate(init[n]);
        assert !Degenerate(ts[n]);
      }
      assert ts == init + [ts[|ts| - 1]];
    }
  }

  /** Every non-degenerate triangle of the input survives. */
  lemma {:induction false} KeepValidComplete(ts: seq<Tri>)
    ensures forall t | t in ts && !Degenerate(t) :: t in KeepValid(ts)
  {
    if ts != [] {
      var init := ts[..|ts| - 1];
      KeepValidComplete(init);
      assert ts == init + [ts[|ts| - 1]];
    }
  }

  /** Filtering the concatenation of two lists filters each in turn. */
  lemma {:induction false} KeepValidAppend(a: seq<Tri>, b: seq<Tri>)
    ensures KeepValid(a + b) == KeepValid(a) + KeepValid(b)
    decreases |b|
  {
    if b == [] {
      assert a + b == a;
    } else {
      var init := b[..|b| - 1];
      assert (a + b)[..|a + b| - 1] == a + init;
      KeepValidAppend(a, init);
    }
  }

  /** Culling a culled list returns it unchanged. */
  lemma CullIdempotent(ts: seq<Tri>)
    requires Cull(ts).Ok?
    ensures Cull(Cull(ts).value) == Cull(ts)
  {
  }
}
