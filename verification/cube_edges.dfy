/**
 * The cube that marching cubes walks: the corner pair of each of the 12 edges, the offset of each
 * of the 8 corners from the cell's bottom corner, the case-index bits, and what a triangle table
 * must satisfy for extraction to be well defined.
 */
module CubeEdges {

  /** Marks the end of the edges listed in a triangle-table row. */
  const Sentinel: int := -1

  /** The corners joined by each edge, in the source's order. */
  const EdgeVertices: seq<(int, int)> :=
    [(0, 1), (1, 2), (2, 3), (3, 0), (4, 5), (6, 5), (6, 7), (7, 4), (0, 4), (1, 5), (2, 6), (3, 7)]

  /** Offset (x, y, z) of each corner from the cell's bottom corner. */
  const IndexToVertex: seq<(int, int, int)> :=
    [(0, 0, 0), (1, 0, 0), (1, 1, 0), (0, 1, 0), (0, 0, 1), (1, 0, 1), (1, 1, 1), (0, 1, 1)]

  /** The masks 1 << v of the eight corner bits. */
  const BitMask: seq<bv8> := [1, 2, 4, 8, 16, 32, 64, 128]

  /** Bit v of a case index, the bit marching cubes sets when corner v is at or below the isovalue. */
  predicate Bit(c: bv8, v: int)
    requires 0 <= v < 8
  {
    c & BitMask[v] != 0
  }

  /** An edge crosses the isovalue in case c when exactly one of its corners is at or below it. */
  predicate Crosses(c: bv8, e: int)
    requires 0 <= e < 12
  {
    Bit(c, EdgeVertices[e].0) != Bit(c, EdgeVertices[e].1)
  }

  /** Number of edge ids a row lists: the position of its first sentinel, or 16 if it has none. */
  function EdgeCount(row: seq<int>): (n: nat)
    requires |row| == 16
    ensures n <= 16
    ensures forall p | 0 <= p < n :: row[p] != Sentinel
    ensures n < 16 ==> row[n] == Sentinel
  {
    if row[0] == Sentinel then 0
    else if row[1] == Sentinel then 1
    else if row[2] == Sentinel then 2
    else if row[3] == Sentinel then 3
    else if row[4] == Sentinel then 4
    else if row[5] == Sentinel then 5
    else if row[6] == Sentinel then 6
    else if row[7] == Sentinel then 7
    else if row[8] == Sentinel then 8
    else if row[9] == Sentinel then 9
    else if row[10] == Sentinel then 10
    else if row[11] == Sentinel then 11
    else if row[12] == Sentinel then 12
    else if row[13] == Sentinel then 13
    else if row[14] == Sentinel then 14
    else if row[15] == Sentinel then 15
    else 16
  }

  /** Position t of a row with n listed edges: past the end, or an edge id that crosses in case c. */
  predicate EdgeOk(c: bv8, row: seq<int>, n: int, t: int)
    requires 0 <= t < |row|
  {
    t >= n || (0 <= row[t] < 12 && Crosses(c, row[t]))
  }

  /** A well-formed row of case c: whole triangles of crossing edges, then a sentinel. */
  predicate RowOk(c: bv8, row: seq<int>) {
    |row| == 16 && ListOk(c, row, EdgeCount(row))
  }

  /** The first n entries of a 16-entry row are whole triangles of edges that cross in case c. */
  predicate ListOk(c: bv8, row: seq<int>, n: int)
    requires |row| == 16
  {
    n < 16 && n % 3 == 0 && EntriesOk(c, row, n, 0)
  }

  /** Positions t .. 14 of the row pass EdgeOk. */
  predicate EntriesOk(c: bv8, row: seq<int>, n: int, t: nat)
    requires |row| == 16
    decreases 15 - t
  {
    t >= 15 || (EdgeOk(c, row, n, t) && EntriesOk(c, row, n, t + 1))
  }

  /**
   * What extraction needs of a triangle table: 256 rows of 16 entries, each listing a whole
   * number of triangles, at most five, by ids of edges that cross the isovalue in the row's case.
   */
  ghost predicate ValidTable(table: seq<seq<int>>) {
    |table| == 256 &&
    forall c | 0 <= c < 256 ::
      |table[c]| == 16 && EdgeCount(table[c]) < 16 && EdgeCount(table[c]) % 3 == 0 &&
      forall t | 0 <= t < EdgeCount(table[c]) :: 0 <= table[c][t] < 12 && Crosses(c as bv8, table[c][t])
  }
}
