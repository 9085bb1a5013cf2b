/** Boolean voxel masks: counting marked voxels and pointwise inclusion. */
module Masks {

  /** Number of marked entries. */
  function Count(m: seq<bool>): (c: nat)
    ensures c <= |m|
  {
    if |m| == 0 then 0 else (if m[|m| - 1] then 1 else 0) + Count(m[..|m| - 1])
  }

  /** Pointwise inclusion of masks of the same length. */
  predicate Below(a: seq<bool>, c: seq<bool>) {
    |a| == |c| && forall i | 0 <= i < |a| :: a[i] ==> c[i]
  }

  /** Marking one unmarked entry raises the count by exactly one. */
  lemma {:induction false} CountMark(m: seq<bool>, i: int)
    requires 0 <= i < |m| && !m[i]
    ensures Count(m[i := true]) == Count(m) + 1
  {
    var n := |m| - 1;
    if i < n {
      assert m[i := true][..n] == m[..n][i := true];
      CountMark(m[..n], i);
    } else {
      assert m[i := true][..n] == m[..n];
    }
  }

  /** A mask with an unmarked entry counts fewer than its length. */
  lemma {:induction false} CountBelowLength(m: seq<bool>, i: int)
    requires 0 <= i < |m| && !m[i]
    ensures Count(m) < |m|
  {
    var n := |m| - 1;
    if i < n {
      CountBelowLength(m[..n], i);
    }
  }

  /** Inclusion does not lower the count, and strict inclusion raises it. */
  lemma {:induction false} BelowCount(a: seq<bool>, c: seq<bool>)
    requires Below(a, c)
    ensures Count(a) <= Count(c)
    ensures a != c ==> Count(a) < Count(c)
  {
    if |a| > 0 {
      var n := |a| - 1;
      assert Below(a[..n], c[..n]);
      BelowCount(a[..n], c[..n]);
      assert a == a[..n] + [a[n]] && c == c[..n] + [c[n]];
    }
  }

  /** Inclusion is transitive. */
  lemma BelowTransitive(a: seq<bool>, b: seq<bool>, c: seq<bool>)
    requires Below(a, b) && Below(b, c)
    ensures Below(a, c)
  {
  }

  /** The count reaches the length exactly when every entry is marked. */
  lemma {:induction false} CountFull(m: seq<bool>)
    ensures Count(m) == |m| <==> forall i | 0 <= i < |m| :: m[i]
  {
    if |m| > 0 {
      var n := |m| - 1;
      CountFull(m[..n]);
      if !m[n] {
        CountBelowLength(m, n);
      }
      if exists i | 0 <= i < n :: !m[i] {
        var i :| 0 <= i < n && !m[i];
        assert !m[..n][i];
      }
    }
  }

  /** Masks that include each other are equal. */
  lemma BelowAntisymmetric(a: seq<bool>, c: seq<bool>)
    requires Below(a, c) && Below(c, a)
    ensures a == c
  {
  }
}
