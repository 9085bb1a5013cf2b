/**
 * fillBubbles: binarise a volume at the isovalue, fill the enclosed cavities of the binary mask
 * with fillh (26 neighbours), and when any cavity exists raise every voxel of the filled mask
 * to at least isovalue + 1, so that marching cubes sees one solid surface.
 */
module Bubbles {
  import opened Grid
  import opened Masks
  import opened Wrappers
  import opened FloodFill

  /** img01 of fillBubbles: 1 where the voxel reaches the isovalue, 0 elsewhere. */
  function Binarise(img: seq<real>, iso: real): (b: seq<int>)
    ensures |b| == |img|
  {
    seq(|img|, i requires 0 <= i < |img| => if img[i] >= iso then 1 else 0)
  }

  /** Number of nonzero entries, the reduce of fillBubbles. */
  function CountNonZero(s: seq<int>): (c: nat)
    ensures c <= |s|
  {
    if |s| == 0 then 0 else (if s[|s| - 1] != 0 then 1 else 0) + CountNonZero(s[..|s| - 1])
  }

  function Max(a: real, b: real): real {
    if a >= b then a else b
  }

  /** The escape mask fillBubbles floods, over the 26-neighbour kernel. */
  function Escape(d: Dims, img: seq<real>, iso: real): (m: seq<bool>)
    requires |img| == d.Count()
    ensures |m| == |img|
  {
    EscapeMask(d, Kernel(d, true), Binarise(img, iso))
  }

  /** A voxel below the isovalue that no path of open voxels connects to the border. */
  predicate Enclosed(d: Dims, img: seq<real>, iso: real, i: int)
    requires |img| == d.Count()
  {
    0 <= i < |img| && !Escape(d, img, iso)[i]
  }

  /**
   * Reference definition of fillBubbles: the input when nothing is enclosed, otherwise every
   * voxel of the filled mask (foreground or cavity) raised to at least iso + 1.
   */
  function BubblesFilled(d: Dims, img: seq<real>, iso: real): (r: seq<real>)
    requires |img| == d.Count()
    ensures |r| == |img|
  {
    var b := Binarise(img, iso);
    var f := Filled(b, Escape(d, img, iso));
    if forall i | 0 <= i < |img| :: !Enclosed(d, img, iso, i) then img
    else seq(|img|, i requires 0 <= i < |img| => if f[i] != 0 then Max(img[i], iso + 1.0) else img[i])
  }

  /** Filling raises the nonzero count by exactly the number of unmarked voxels. */
  lemma {:induction false} FilledCount(b: seq<int>, m: seq<bool>)
    requires |b| == |m| && forall i | 0 <= i < |b| && !m[i] :: b[i] == 0
    ensures CountNonZero(Filled(b, m)) == CountNonZero(b) + (|m| - Count(m))
  {
    if |b| > 0 {
      var n := |b| - 1;
      assert Filled(b, m)[..n] == Filled(b[..n], m[..n]);
      FilledCount(b[..n], m[..n]);
    }
  }

  /** The escape mask contains every voxel at or above the isovalue. */
  lemma EscapeHasForeground(d: Dims, img: seq<real>, iso: real)
    requires |img| == d.Count()
    ensures forall i | 0 <= i < |img| && img[i] >= iso :: Escape(d, img, iso)[i]
    ensures forall i | Enclosed(d, img, iso, i) :: img[i] < iso
  {
    var b := Binarise(img, iso);
    EscapeMaskLeast(d, Kernel(d, true), b, Escape(d, img, iso));
    forall i | 0 <= i < |img| && img[i] >= iso
      ensures Escape(d, img, iso)[i]
    {
      assert Seeds(d, b)[i];
    }
  }

  /** The source's count test: the counts agree exactly when no voxel is enclosed. */
  lemma CountsAgreeIffNoCavity(d: Dims, img: seq<real>, iso: real)
    requires |img| == d.Count()
    ensures var b := Binarise(img, iso);
            CountNonZero(Filled(b, Escape(d, img, iso))) == CountNonZero(b)
            <==> forall i | 0 <= i < |img| :: !Enclosed(d, img, iso, i)
  {
    var b := Binarise(img, iso);
    var m := Escape(d, img, iso);
    EscapeHasForeground(d, img, iso);
    assert forall i | 0 <= i < |b| && !m[i] :: b[i] == 0;
    FilledCount(b, m);
    CountFull(m);
    forall i | 0 <= i < |img|
      ensures !Enclosed(d, img, iso, i) <==> m[i]
    {
    }
    if forall i | 0 <= i < |m| :: m[i] {
      assert forall i | 0 <= i < |img| :: !Enclosed(d, img, iso, i);
    } else {
      var i :| 0 <= i < |m| && !m[i];
      assert Enclosed(d, img, iso, i);
    }
  }

  /**
   * fillBubbles. The source hands fillh's result straight to reduce, which throws when fillh
   * returned undefined (a dimension below 3): that case is the FillUndefined error.
   */
  method FillBubbles(img: seq<real>, d: Dims, iso: real) returns (r: Result<seq<real>>)
    requires |img| == d.Count()
    ensures r.Err? <==> !d.AtLeast3()
    ensures r.Err? ==> r.error == FillUndefined
    ensures r.Ok? ==> r.value == BubblesFilled(d, img, iso)
    ensures r.Ok? ==> |r.value| == |img|
    ensures r.Ok? && (forall i | 0 <= i < |img| :: !Enclosed(d, img, iso, i)) ==> r.value == img
    ensures r.Ok? ==> forall i | 0 <= i < |img| :: r.value[i] >= img[i]
    ensures r.Ok? ==> forall i | Enclosed(d, img, iso, i) :: r.value[i] == iso + 1.0
    ensures r.Ok? ==> forall i | 0 <= i < |img| && img[i] < iso && !Enclosed(d, img, iso, i) ::
              r.value[i] == img[i]
    ensures r.Ok? && (exists i :: Enclosed(d, img, iso, i)) ==>
              forall i | 0 <= i < |img| && img[i] >= iso :: r.value[i] >= iso + 1.0
  {
    var n := |img|;
    var img01 := seq(n, _ => 0);
    for i := 0 to n
      invariant |img01| == n
      invariant forall p | 0 <= p < i :: img01[p] == if img[p] >= iso then 1 else 0
    {
      img01 := img01[i := if img[i] >= iso then 1 else 0];
    }
    assert img01 == Binarise(img, iso);
    var countNonZero := CountNonZero(img01);
    var filled := Fillh(img01, d, true);
    if filled.None? {
      return Err(FillUndefined);
    }
    var f := filled.value;
    var countFilledNonZero := CountNonZero(f);
    CountsAgreeIffNoCavity(d, img, iso);
    EscapeHasForeground(d, img, iso);
    if countNonZero == countFilledNonZero {
      return Ok(img);
    }
    var isovalue1 := iso + 1.0;
    var out := img;
    for i := 0 to n
      invariant |out| == n
      invariant forall p | 0 <= p < n ::
        out[p] == if p < i && f[p] != 0 then Max(img[p], isovalue1) else img[p]
    {
      if f[i] != 0 {
        out := out[i := Max(out[i], isovalue1)];
      }
    }
    return Ok(out);
  }

  /** An open neighbour of a cavity voxel is itself a cavity voxel: the kernel is symmetric. */
  lemma CavityWall(d: Dims, b: seq<int>, i: int, j: int)
    requires |b| == d.Count() && 0 <= i < |b| && 0 <= j < 26
    requires !EscapeMask(d, Kernel(d, true), b)[i]
    requires 0 <= i + Kernel(d, true)[j] < |b|
    ensures var n := i + Kernel(d, true)[j];
            EscapeMask(d, Kernel(d, true), b)[n] ==> b[n] > 0
  {
    var k := Kernel(d, true);
    EscapeMaskLeast(d, k, b, EscapeMask(d, k, b));
    KernelSymmetric(d, true, j);
  }

  /** Filling only raises values, so every seed of the binary image stays a seed. */
  lemma FilledSeeds(d: Dims, b: seq<int>, m: seq<bool>)
    requires |b| == d.Count() && |m| == |b|
    ensures Below(Seeds(d, b), Seeds(d, Filled(b, m)))
  {
    var f := Filled(b, m);
    forall i | 0 <= i < |b| && Seeds(d, b)[i]
      ensures Seeds(d, f)[i]
    {
      IdxOfCoords(d, i);
    }
  }

  /** The cavities together with any closed mask of the filled image are closed for the original. */
  lemma WideClosed(d: Dims, b: seq<int>, other: seq<bool>, wide: seq<bool>)
    requires |b| == d.Count()
    requires Closed(d, Kernel(d, true), Filled(b, EscapeMask(d, Kernel(d, true), b)), other)
    requires |wide| == |b|
    requires forall i | 0 <= i < |b| :: wide[i] == (other[i] || !EscapeMask(d, Kernel(d, true), b)[i])
    ensures Closed(d, Kernel(d, true), b, wide)
  {
    var k := Kernel(d, true);
    var m1 := EscapeMask(d, k, b);
    var b2 := Filled(b, m1);
    FilledSeeds(d, b, m1);
    forall i, j | 0 <= i < |b| && 0 <= j < |k| && wide[i] && b[i] <= 0 && 0 <= i + k[j] < |b|
      ensures wide[i + k[j]]
    {
      var n := i + k[j];
      if !m1[i] {
        CavityWall(d, b, i, j);
        if m1[n] {
          assert Seeds(d, b)[n];
        }
      } else {
        assert b2[i] == b[i];
      }
    }
  }

  /**
   * Every mask closed over the filled image, widened by the cavities, is closed over the
   * original binary image; so the original escape mask lies inside the new one.
   */
  lemma RefillEscapes(d: Dims, b: seq<int>, other: seq<bool>)
    requires |b| == d.Count()
    requires Closed(d, Kernel(d, true), Filled(b, EscapeMask(d, Kernel(d, true), b)), other)
    ensures Below(EscapeMask(d, Kernel(d, true), b), other)
  {
    var k := Kernel(d, true);
    var m1 := EscapeMask(d, k, b);
    var wide := seq(|b|, i requires 0 <= i < |b| => other[i] || !m1[i]);
    WideClosed(d, b, other, wide);
    EscapeMaskLeast(d, k, b, wide);
  }

  /** A second fillBubbles finds no cavity and returns its input: the operation is idempotent. */
  lemma {:induction false} BubblesFilledIdempotent(d: Dims, img: seq<real>, iso: real)
    requires |img| == d.Count()
    ensures BubblesFilled(d, BubblesFilled(d, img, iso), iso) == BubblesFilled(d, img, iso)
  {
    var out := BubblesFilled(d, img, iso);
    if out != img {
      var k := Kernel(d, true);
      var b := Binarise(img, iso);
      var m1 := Escape(d, img, iso);
      var f := Filled(b, m1);
      EscapeHasForeground(d, img, iso);
      assert Binarise(out, iso) == f;
      var m2 := Escape(d, out, iso);
      EscapeMaskLeast(d, k, f, m2);
      RefillEscapes(d, b, m2);
      forall i | 0 <= i < |out|
        ensures !Enclosed(d, out, iso, i)
      {
        if !m1[i] {
          IdxOfCoords(d, i);
          assert Seeds(d, f)[i];
        }
      }
    }
  }
}
