/**
 * largestClusterOnly and the negative-isovalue shift of voxels2mesh: the two value rewrites
 * that run on the volume before extraction.
 */
module Clusters {
  import opened Bubbles

  /**
   * largestClusterOnly: binarise at `img >= iso`, let the labeler (`bwlabel` with binarised
   * output and only the largest cluster kept) label that mask, and multiply every voxel by its
   * label. The labeler's source is not part of this model, so it is the parameter `labeler`,
   * which maps a mask to the label of each voxel index.
   */
  function LargestClusterOnly(img: seq<real>, iso: real, labeler: seq<int> -> nat -> int): (r: seq<real>)
    ensures |r| == |img|
    ensures forall i | 0 <= i < |img| && labeler(Binarise(img, iso))(i) == 0 :: r[i] == 0.0
    ensures forall i | 0 <= i < |img| && labeler(Binarise(img, iso))(i) == 1 :: r[i] == img[i]
  {
    var lab := labeler(Binarise(img, iso));
    seq(|img|, i requires 0 <= i < |img| => img[i] * lab(i) as real)
  }

  /** The labels of the first n voxels, as a mask. */
  function Labels(lab: nat -> int, n: nat): (m: seq<int>)
    ensures |m| == n
  {
    seq(n, i requires 0 <= i < n => lab(i))
  }

  /** Labels that form a 0/1 mask marking only voxels the binarised image `b` marks. */
  predicate ClusterOf(lab: nat -> int, b: seq<int>) {
    forall i | 0 <= i < |b| :: (lab(i) == 0 || lab(i) == 1) && (lab(i) == 1 ==> b[i] == 1)
  }

  /**
   * For a positive isovalue and a labeler that returns a cluster of the foreground, the
   * foreground of the result is exactly that cluster: voxels it marks keep their values, every
   * other voxel drops to 0, and no voxel crosses the isovalue except by leaving the foreground.
   */
  lemma ClusterIsForeground(img: seq<real>, iso: real, labeler: seq<int> -> nat -> int)
    requires iso > 0.0 && ClusterOf(labeler(Binarise(img, iso)), Binarise(img, iso))
    ensures Binarise(LargestClusterOnly(img, iso, labeler), iso) == Labels(labeler(Binarise(img, iso)), |img|)
    ensures forall i | 0 <= i < |img| :: LargestClusterOnly(img, iso, labeler)[i] >= iso ==> img[i] >= iso
  {
    var lab := labeler(Binarise(img, iso));
    var r := LargestClusterOnly(img, iso, labeler);
    assert forall i | 0 <= i < |img| :: lab(i) == 0 || lab(i) == 1;
    assert Binarise(r, iso) == Labels(lab, |img|);
  }

  /**
   * With a labeler that keeps every voxel of a mask that is already one cluster, a second pass
   * changes nothing.
   */
  lemma ClusterIdempotent(img: seq<real>, iso: real, labeler: seq<int> -> nat -> int)
    requires iso > 0.0 && ClusterOf(labeler(Binarise(img, iso)), Binarise(img, iso))
    requires var lab := labeler(Binarise(img, iso));
      forall i | 0 <= i < |img| :: labeler(Labels(lab, |img|))(i) == lab(i)
    ensures var once := LargestClusterOnly(img, iso, labeler);
      LargestClusterOnly(once, iso, labeler) == once
  {
    ClusterIsForeground(img, iso, labeler);
    var lab := labeler(Binarise(img, iso));
    assert forall i | 0 <= i < |img| :: lab(i) == 0 || lab(i) == 1;
  }

  /** The smallest value of a non-empty sequence, folded left to right like the source's `Math.min` loop. */
  function MinOf(s: seq<real>): (m: real)
    requires |s| > 0
    ensures forall i | 0 <= i < |s| :: m <= s[i]
    ensures exists i | 0 <= i < |s| :: s[i] == m
  {
    if |s| == 1 then s[0]
    else
      var m := MinOf(s[..|s| - 1]);
      if s[|s| - 1] < m then s[|s| - 1] else m
  }

  /**
   * The shift of voxels2mesh for a negative isovalue: when some voxel is negative, subtract the
   * minimum from every voxel and from the isovalue. An empty volume is left alone (its minimum
   * reads as undefined, which is not below 0).
   */
  function Shifted(img: seq<real>, iso: real): (r: (seq<real>, real))
    ensures |r.0| == |img|
  {
    if iso < 0.0 && |img| > 0 && MinOf(img) < 0.0 then
      var mn := MinOf(img);
      (seq(|img|, i requires 0 <= i < |img| => img[i] - mn), iso - mn)
    else (img, iso)
  }

  /**
   * The shift moves voxels and isovalue together, so every voxel stays on its side of the
   * isovalue and differences between voxels are kept; when it applies, the smallest voxel lands
   * on 0 and none is left negative.
   */
  lemma ShiftKeepsThreshold(img: seq<real>, iso: real)
    ensures var (out, iso') := Shifted(img, iso);
      (forall i | 0 <= i < |img| :: (out[i] >= iso' <==> img[i] >= iso) && (out[i] <= iso' <==> img[i] <= iso)) &&
      (forall i, j | 0 <= i < |img| && 0 <= j < |img| :: out[i] - out[j] == img[i] - img[j])
    ensures iso >= 0.0 || (forall i | 0 <= i < |img| :: img[i] >= 0.0) ==> Shifted(img, iso) == (img, iso)
    ensures iso < 0.0 && (exists i | 0 <= i < |img| :: img[i] < 0.0) ==>
              var out := Shifted(img, iso).0;
              (forall i | 0 <= i < |img| :: out[i] >= 0.0) && (exists i | 0 <= i < |img| :: out[i] == 0.0)
  {
    if iso < 0.0 && |img| > 0 && MinOf(img) < 0.0 {
      var mn := MinOf(img);
      var k :| 0 <= k < |img| && img[k] == mn;
      assert Shifted(img, iso).0[k] == 0.0;
    }
  }

  /** MinOf of a prefix one longer: the loop step of the minimum scan. */
  lemma MinOfSnoc(s: seq<real>, n: nat)
    requires 1 <= n < |s|
    ensures MinOf(s[..n + 1]) == if s[n] < MinOf(s[..n]) then s[n] else MinOf(s[..n])
  {
    assert s[..n + 1][..n] == s[..n];
  }

  /** The source's shift: a loop for the minimum, then a loop subtracting it. */
  method ShiftNegative(img: seq<real>, iso: real) returns (out: seq<real>, iso': real)
    ensures (out, iso') == Shifted(img, iso)
  {
    out, iso' := img, iso;
    if iso < 0.0 && |img| > 0 {
      var mn := img[0];
      var i := 1;
      while i < |img|
        invariant 1 <= i <= |img| && mn == MinOf(img[..i])
      {
        MinOfSnoc(img, i);
        mn := if img[i] < mn then img[i] else mn;
        i := i + 1;
      }
      assert img[..|img|] == img;
      if mn < 0.0 {
        var shifted := [];
        i := 0;
        while i < |img|
          invariant 0 <= i <= |img| && |shifted| == i
          invariant forall j | 0 <= j < i :: shifted[j] == img[j] - mn
        {
          shifted := shifted + [img[i] - mn];
          i := i + 1;
        }
        assert shifted == Shifted(img, iso).0;
        out, iso' := shifted, iso - mn;
      }
    }
  }
}
