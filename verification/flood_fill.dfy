/**
 * fillh: fill the holes of a binary volume. Voxels with a positive value are solid; every
 * other voxel is open. A breadth-first flood over the neighbour kernel, seeded with the open
 * voxels of the six bounding faces, marks the open voxels reachable from outside; every open
 * voxel left unmarked is enclosed and is set to 1.
 */
module FloodFill {
  import opened Grid
  import opened Masks
  import opened Wrappers

  /** Flat-index delta of the neighbour at (dx, dy, dz). */
  function Offset(d: Dims, dx: int, dy: int, dz: int): int {
    dx + dy * d.nx + dz * (d.nx * d.ny)
  }

  /**
   * The neighbour kernel: the 26 offsets in the source's z, y, x loop order without the centre,
   * or the six face neighbours (up, down, anterior, posterior, left, right).
   */
  function Kernel(d: Dims, is26: bool): (k: seq<int>)
    ensures |k| == if is26 then 26 else 6
  {
    if is26 then
      seq(26, j requires 0 <= j < 26 => Neighbour26(d, j))
    else
      var up: int := d.nx * d.ny;
      var anterior: int := d.nx;
      [up, -up, anterior, -anterior, 1, -1]
  }

  /** Offset j of the 26-neighbour kernel, in the source's z, y, x loop order without the centre. */
  function Neighbour26(d: Dims, j: int): int
    requires 0 <= j < 26
  {
    if j == 0 then Offset(d, -1, -1, -1)
    else if j == 1 then Offset(d, 0, -1, -1)
    else if j == 2 then Offset(d, 1, -1, -1)
    else if j == 3 then Offset(d, -1, 0, -1)
    else if j == 4 then Offset(d, 0, 0, -1)
    else if j == 5 then Offset(d, 1, 0, -1)
    else if j == 6 then Offset(d, -1, 1, -1)
    else if j == 7 then Offset(d, 0, 1, -1)
    else if j == 8 then Offset(d, 1, 1, -1)
    else if j == 9 then Offset(d, -1, -1, 0)
    else if j == 10 then Offset(d, 0, -1, 0)
    else if j == 11 then Offset(d, 1, -1, 0)
    else if j == 12 then Offset(d, -1, 0, 0)
    else if j == 13 then Offset(d, 1, 0, 0)
    else if j == 14 then Offset(d, -1, 1, 0)
    else if j == 15 then Offset(d, 0, 1, 0)
    else if j == 16 then Offset(d, 1, 1, 0)
    else if j == 17 then Offset(d, -1, -1, 1)
    else if j == 18 then Offset(d, 0, -1, 1)
    else if j == 19 then Offset(d, 1, -1, 1)
    else if j == 20 then Offset(d, -1, 0, 1)
    else if j == 21 then Offset(d, 0, 0, 1)
    else if j == 22 then Offset(d, 1, 0, 1)
    else if j == 23 then Offset(d, -1, 1, 1)
    else if j == 24 then Offset(d, 0, 1, 1)
    else Offset(d, 1, 1, 1)
  }

  /** Position of the opposite offset in the kernel. */
  function Mirror(j: int, is26: bool): int {
    if is26 then 25 - j else if j % 2 == 0 then j + 1 else j - 1
  }

  /** The kernel is symmetric: every offset's negation is also in the kernel. */
  lemma KernelSymmetric(d: Dims, is26: bool, j: int)
    requires 0 <= j < |Kernel(d, is26)|
    ensures 0 <= Mirror(j, is26) < |Kernel(d, is26)|
    ensures Kernel(d, is26)[Mirror(j, is26)] == -Kernel(d, is26)[j]
  {
    var k := Kernel(d, is26);
    if is26 {
      if j < 13 {
        Kernel26Symmetric(d, j);
      } else {
        Kernel26Symmetric(d, 25 - j);
      }
    }
  }

  /** The first half of the 26-neighbour kernel mirrors the second. */
  lemma Kernel26Symmetric(d: Dims, j: int)
    requires 0 <= j < 13
    ensures Kernel(d, true)[25 - j] == -Kernel(d, true)[j]
  {
    assert Neighbour26(d, 25 - j) == -Neighbour26(d, j);
  }

  /** The voxels fillh marks before flooding: solid voxels and every border voxel. */
  function Seeds(d: Dims, b: seq<int>): (m: seq<bool>)
    requires |b| == d.Count()
    ensures |m| == |b|
  {
    seq(|b|, i requires 0 <= i < |b| =>
      IdxOfCoords(d, i);
      b[i] > 0 || OnBorder(d, i))
  }

  /**
   * A mask that contains the seeds and is closed under one kernel step from a marked open
   * voxel to any neighbour whose flat index lies inside the buffer.
   */
  ghost predicate Closed(d: Dims, k: seq<int>, b: seq<int>, m: seq<bool>) {
    && |b| == d.Count()
    && Below(Seeds(d, b), m)
    && forall i, j | 0 <= i < |b| && 0 <= j < |k| && m[i] && b[i] <= 0 && 0 <= i + k[j] < |b| ::
         m[i + k[j]]
  }

  /** One round of flooding: mark every in-buffer neighbour of a marked open voxel. */
  function Step(k: seq<int>, b: seq<int>, m: seq<bool>): (m': seq<bool>)
    requires |m| == |b|
    ensures Below(m, m')
  {
    seq(|m|, i requires 0 <= i < |m| =>
      m[i] || exists j | 0 <= j < |k| :: 0 <= i - k[j] < |m| && m[i - k[j]] && b[i - k[j]] <= 0)
  }

  /** Flood rounds until nothing changes. */
  function Saturate(k: seq<int>, b: seq<int>, m: seq<bool>): (r: seq<bool>)
    requires |m| == |b|
    ensures Below(m, r)
    decreases |m| - Count(m)
  {
    var m' := Step(k, b, m);
    if m' == m then m
    else
      BelowCount(m, m');
      Saturate(k, b, m')
  }

  /** Reference definition of what the flood fill marks: seeds flooded to a fixpoint. */
  function EscapeMask(d: Dims, k: seq<int>, b: seq<int>): (m: seq<bool>)
    requires |b| == d.Count()
    ensures |m| == |b|
  {
    Saturate(k, b, Seeds(d, b))
  }

  /** The fixpoint of flooding is closed. */
  lemma {:induction false} SaturateClosed(d: Dims, k: seq<int>, b: seq<int>, m: seq<bool>)
    requires |b| == d.Count() && Below(Seeds(d, b), m)
    ensures Closed(d, k, b, Saturate(k, b, m))
    decreases |m| - Count(m)
  {
    var m' := Step(k, b, m);
    if m' == m {
      forall i, j | 0 <= i < |b| && 0 <= j < |k| && m[i] && b[i] <= 0 && 0 <= i + k[j] < |b|
        ensures m[i + k[j]]
      {
        assert m'[i + k[j]] by {
          assert (i + k[j]) - k[j] == i;
        }
      }
    } else {
      BelowCount(m, m');
      SaturateClosed(d, k, b, m');
    }
  }

  /** Flooding never leaves a closed mask that contains its start. */
  lemma {:induction false} SaturateLeast(d: Dims, k: seq<int>, b: seq<int>, m: seq<bool>, other: seq<bool>)
    requires |m| == |b| && Closed(d, k, b, other) && Below(m, other)
    ensures Below(Saturate(k, b, m), other)
    decreases |m| - Count(m)
  {
    var m' := Step(k, b, m);
    if m' != m {
      forall i | 0 <= i < |m| && m'[i]
        ensures other[i]
      {
        if !m[i] {
          var j :| 0 <= j < |k| && 0 <= i - k[j] < |m| && m[i - k[j]] && b[i - k[j]] <= 0;
          assert (i - k[j]) + k[j] == i;
        }
      }
      BelowCount(m, m');
      SaturateLeast(d, k, b, m', other);
    }
  }

  /** The escape mask is the least closed mask: closed, and inside every closed mask. */
  lemma EscapeMaskLeast(d: Dims, k: seq<int>, b: seq<int>, other: seq<bool>)
    requires |b| == d.Count()
    ensures Closed(d, k, b, EscapeMask(d, k, b))
    ensures Closed(d, k, b, other) ==> Below(EscapeMask(d, k, b), other)
  {
    SaturateClosed(d, k, b, Seeds(d, b));
    if Closed(d, k, b, other) {
      SaturateLeast(d, k, b, Seeds(d, b), other);
    }
  }

  /** The output of fillh for a given mask: unmarked voxels become 1, marked ones keep their value. */
  function Filled(b: seq<int>, m: seq<bool>): (r: seq<int>)
    requires |m| == |b|
    ensures |r| == |b|
  {
    seq(|b|, i requires 0 <= i < |b| => if m[i] then b[i] else 1)
  }

  /** The positive voxels of b, which fillh marks first. */
  function Solid(b: seq<int>): (m: seq<bool>)
    ensures |m| == |b|
  {
    seq(|b|, i requires 0 <= i < |b| => b[i] > 0)
  }

  /**
   * Bookkeeping of the flood: `marked` is the source's vxs, q[0..qhi] the queue of marked open
   * voxels (q[..qlo] already retired), pos the ghost position of each marked open voxel in q.
   */
  ghost predicate QueueInv(d: Dims, k: seq<int>, b: seq<int>, e: seq<bool>,
                           marked: seq<bool>, q: seq<int>, pos: seq<int>, qlo: int, qhi: int)
  {
    && |b| == d.Count() && |marked| == |q| == |pos| == |e| == |b|
    && -1 <= qhi < |b| && 0 <= qlo <= qhi + 1
    && (forall t | 0 <= t <= qhi :: 0 <= q[t] < |b| && marked[q[t]] && b[q[t]] <= 0)
    && (forall i | 0 <= i < |b| && marked[i] && b[i] <= 0 :: 0 <= pos[i] <= qhi && q[pos[i]] == i)
    && Below(Solid(b), marked)
    && Below(marked, e)
    && qhi + 1 + Count(Solid(b)) == Count(marked)
  }

  /** Every retired queue entry has all its in-buffer neighbours marked. */
  ghost predicate Retired(k: seq<int>, marked: seq<bool>, q: seq<int>, qlo: int)
    requires |marked| == |q| && 0 <= qlo <= |q|
  {
    forall t, j | 0 <= t < qlo && 0 <= j < |k| && 0 <= q[t] + k[j] < |marked| :: marked[q[t] + k[j]]
  }

  /** The loop invariant of the flood: the queue bookkeeping, every seed marked, and the retired entries closed. */
  ghost predicate Flooding(d: Dims, k: seq<int>, b: seq<int>, e: seq<bool>,
                           marked: seq<bool>, q: seq<int>, pos: seq<int>, qlo: int, qhi: int)
  {
    QueueInv(d, k, b, e, marked, q, pos, qlo, qhi) && Below(Seeds(d, b), marked) && Retired(k, marked, q, qlo)
  }

  /** Mark an unmarked open voxel that belongs to the escape mask and enqueue it. */
  lemma Enqueue(d: Dims, k: seq<int>, b: seq<int>, e: seq<bool>,
                marked: seq<bool>, q: seq<int>, pos: seq<int>, qlo: int, qhi: int, v: int)
    requires QueueInv(d, k, b, e, marked, q, pos, qlo, qhi)
    requires 0 <= v < |b| && !marked[v] && e[v]
    ensures b[v] <= 0 && qhi + 1 < |b|
    ensures QueueInv(d, k, b, e, marked[v := true], q[qhi + 1 := v], pos[v := qhi + 1], qlo, qhi + 1)
  {
    CountBelowLength(marked, v);
    CountMark(marked, v);
  }

  /** The state of fillh after loading the border seeds. */
  method LoadEdges(d: Dims, k: seq<int>, b: seq<int>, ghost e: seq<bool>)
    returns (marked: seq<bool>, q: seq<int>, ghost pos: seq<int>, qhi: int)
    requires |b| == d.Count() && |e| == |b| && Closed(d, k, b, e)
    ensures QueueInv(d, k, b, e, marked, q, pos, 0, qhi)
    ensures Below(Seeds(d, b), marked)
  {
    var nvox := d.nx * d.ny * d.nz;
    q := seq(nvox, _ => 0);
    marked := seq(nvox, i requires 0 <= i < nvox => b[i] > 0);
    pos := seq(nvox, _ => 0);
    qhi := -1;
    assert marked == Solid(b);
    BelowTransitive(Solid(b), Seeds(d, b), e);
    for i := 0 to nvox
      invariant QueueInv(d, k, b, e, marked, q, pos, 0, qhi)
      invariant forall p | 0 <= p < i :: Seeds(d, b)[p] ==> marked[p]
    {
      IdxOfCoords(d, i);
      if !marked[i] && OnBorder(d, i) {
        assert Seeds(d, b)[i];
        Enqueue(d, k, b, e, marked, q, pos, 0, qhi, i);
        marked := marked[i := true];
        qhi := qhi + 1;
        q := q[qhi := i];
        pos := pos[i := qhi];
      }
    }
  }

  /** Marking and enqueueing a voxel keeps every retired entry retired and every seed marked. */
  lemma EnqueueKeeps(d: Dims, k: seq<int>, b: seq<int>, e: seq<bool>,
                     marked: seq<bool>, q: seq<int>, pos: seq<int>, qlo: int, qhi: int, v: int)
    requires Flooding(d, k, b, e, marked, q, pos, qlo, qhi)
    requires 0 <= v < |b| && !marked[v] && e[v]
    ensures qhi + 1 < |b|
    ensures Flooding(d, k, b, e, marked[v := true], q[qhi + 1 := v], pos[v := qhi + 1], qlo, qhi + 1)
    ensures qlo <= qhi ==> q[qhi + 1 := v][qlo] == q[qlo]
  {
    Enqueue(d, k, b, e, marked, q, pos, qlo, qhi, v);
    var m', q' := marked[v := true], q[qhi + 1 := v];
    forall t, j | 0 <= t < qlo && 0 <= j < |k| && 0 <= q'[t] + k[j] < |m'|
      ensures m'[q'[t] + k[j]]
    {
      assert q'[t] == q[t];
    }
  }

  /** The first j neighbours of seed s that lie in the buffer are marked. */
  ghost predicate Expanded(k: seq<int>, marked: seq<bool>, s: int, j: int) {
    forall j' | 0 <= j' < j && j' < |k| && 0 <= s + k[j'] < |marked| :: marked[s + k[j']]
  }

  /** One neighbour of a seed: mark and enqueue it when it is inside the buffer and unmarked. */
  method VisitNeighbour(d: Dims, k: seq<int>, b: seq<int>, ghost e: seq<bool>,
                        marked0: seq<bool>, q0: seq<int>, ghost pos0: seq<int>, qlo: int, qhi0: int,
                        seed: int, j: int)
    returns (marked: seq<bool>, q: seq<int>, ghost pos: seq<int>, qhi: int)
    requires Flooding(d, k, b, e, marked0, q0, pos0, qlo, qhi0) && NeighboursIn(k, e, seed) && qlo <= qhi0
    requires q0[qlo] == seed && 0 <= j < |k| && Expanded(k, marked0, seed, j)
    ensures Flooding(d, k, b, e, marked, q, pos, qlo, qhi) && qlo <= qhi
    ensures q[qlo] == seed && Expanded(k, marked, seed, j + 1)
  {
    marked, q, pos, qhi := marked0, q0, pos0, qhi0;
    var v := seed + k[j];
    if 0 <= v < |b| && !marked[v] {
      EnqueueKeeps(d, k, b, e, marked, q, pos, qlo, qhi, v);
      marked := marked[v := true];
      qhi := qhi + 1;
      q := q[qhi := v];
      pos := pos[v := qhi];
    }
    ExpandedNext(k, marked0, marked, seed, j);
  }

  /** The queue head is an open voxel of the escape mask. */
  lemma SeedInEscape(d: Dims, k: seq<int>, b: seq<int>, e: seq<bool>,
                     marked: seq<bool>, q: seq<int>, pos: seq<int>, qlo: int, qhi: int)
    requires QueueInv(d, k, b, e, marked, q, pos, qlo, qhi) && qlo <= qhi
    ensures 0 <= q[qlo] < |b| && e[q[qlo]] && b[q[qlo]] <= 0
  {
  }

  /** Every in-buffer neighbour of voxel s is in mask m. */
  ghost predicate NeighboursIn(k: seq<int>, m: seq<bool>, s: int) {
    forall j | 0 <= j < |k| && 0 <= s + k[j] < |m| :: m[s + k[j]]
  }

  /** A closed mask holds every in-buffer neighbour of each of its open voxels. */
  lemma ClosedStep(d: Dims, k: seq<int>, b: seq<int>, e: seq<bool>, i: int)
    requires Closed(d, k, b, e) && |e| == |b| && 0 <= i < |b| && e[i] && b[i] <= 0
    ensures NeighboursIn(k, e, i)
  {
  }

  /** Marks only grow, so the expanded prefix grows by the neighbour once it is marked. */
  lemma ExpandedNext(k: seq<int>, m: seq<bool>, m': seq<bool>, s: int, j: int)
    requires Below(m, m') && Expanded(k, m, s, j) && 0 <= j < |k|
    requires 0 <= s + k[j] < |m'| ==> m'[s + k[j]]
    ensures Expanded(k, m', s, j + 1)
  {
  }

  /** Retire one seed: mark and enqueue its unmarked in-buffer neighbours. */
  method ExpandSeed(d: Dims, k: seq<int>, b: seq<int>, ghost e: seq<bool>,
                    marked0: seq<bool>, q0: seq<int>, ghost pos0: seq<int>, qlo: int, qhi0: int)
    returns (marked: seq<bool>, q: seq<int>, ghost pos: seq<int>, qhi: int)
    requires Flooding(d, k, b, e, marked0, q0, pos0, qlo, qhi0) && Closed(d, k, b, e)
    requires qlo <= qhi0
    ensures Flooding(d, k, b, e, marked, q, pos, qlo + 1, qhi)
  {
    marked, q, pos, qhi := marked0, q0, pos0, qhi0;
    var nvox := |b|;
    var seed := q[qlo];
    SeedInEscape(d, k, b, e, marked, q, pos, qlo, qhi);
    ClosedStep(d, k, b, e, seed);
    for j := 0 to |k|
      invariant Flooding(d, k, b, e, marked, q, pos, qlo, qhi) && qlo <= qhi
      invariant q[qlo] == seed
      invariant Expanded(k, marked, seed, j)
    {
      marked, q, pos, qhi := VisitNeighbour(d, k, b, e, marked, q, pos, qlo, qhi, seed, j);
    }
    assert Retired(k, marked, q, qlo + 1) by {
      assert Expanded(k, marked, q[qlo], |k|);
    }
  }

  /** The first-in first-out loop: runs until the queue is empty; the marks are then closed. */
  method Flood(d: Dims, k: seq<int>, b: seq<int>, ghost e: seq<bool>)
    returns (marked: seq<bool>)
    requires |b| == d.Count() && |e| == |b| && Closed(d, k, b, e)
    ensures Below(marked, e) && Closed(d, k, b, marked)
  {
    var q: seq<int>;
    ghost var pos: seq<int>;
    var qhi: int;
    marked, q, pos, qhi := LoadEdges(d, k, b, e);
    var qlo := 0;
    while qhi >= qlo
      invariant Flooding(d, k, b, e, marked, q, pos, qlo, qhi)
      decreases |b| - qlo
    {
      marked, q, pos, qhi := ExpandSeed(d, k, b, e, marked, q, pos, qlo, qhi);
      qlo := qlo + 1;
    }
    forall i, j | 0 <= i < |b| && 0 <= j < |k| && marked[i] && b[i] <= 0 && 0 <= i + k[j] < |b|
      ensures marked[i + k[j]]
    {
      assert q[pos[i]] == i && pos[i] < qlo;
    }
  }

  /**
   * fillh. Returns None, as the source returns undefined, when a dimension is below 3.
   * Otherwise the result is the input with every enclosed open voxel set to 1.
   */
  method Fillh(b: seq<int>, d: Dims, is26: bool) returns (r: Option<seq<int>>)
    requires |b| == d.Count()
    ensures r.None? <==> !d.AtLeast3()
    ensures r.Some? ==> r.value == Filled(b, EscapeMask(d, Kernel(d, is26), b))
    ensures r.Some? ==> |r.value| == |b|
    ensures r.Some? ==> forall i | 0 <= i < |b| && b[i] > 0 :: r.value[i] == b[i]
    ensures r.Some? ==> forall i | 0 <= i < |b| && r.value[i] != b[i] :: b[i] <= 0 && r.value[i] == 1
    ensures r.Some? ==> forall i | 0 <= i < |b| && OnBorder(d, i) :: r.value[i] == b[i]
  {
    if d.nx < 3 || d.ny < 3 || d.nz < 3 {
      return None;
    }
    var nvox := d.nx * d.ny * d.nz;
    var k := Kernel(d, is26);
    ghost var e := EscapeMask(d, k, b);
    EscapeMaskLeast(d, k, b, e);
    var marked := Flood(d, k, b, e);
    EscapeMaskLeast(d, k, b, marked);
    BelowAntisymmetric(marked, e);

    var out := b;
    for i := 0 to nvox
      invariant |out| == nvox
      invariant forall p | 0 <= p < nvox :: out[p] == if p < i && !marked[p] then 1 else b[p]
    {
      if !marked[i] {
        out := out[i := 1];
      }
    }
    assert out == Filled(b, e);
    forall i | 0 <= i < nvox && OnBorder(d, i)
      ensures out[i] == b[i]
    {
      assert Seeds(d, b)[i];
    }
    return Some(out);
  }
}
