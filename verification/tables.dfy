/**
 * The triangle table of marching cubes: one row of up to five triangles per 8-bit case index,
 * ended by -1, checked row by row against the cube's edges.
 */
module Tables {

  import opened CubeEdges

  /**
   * The triangle table, row by row: up to five triangles as triples of edge ids, the sentinel,
   * then zero padding to 16 entries.
   */
  const Row0: seq<int> := [-1, 0, 0, 0, 0, 0, 0, 0, 0, 0, 0, 0, 0, 0, 0, 0]
  const Row1: seq<int> := [0, 8, 3, -1, 0, 0, 0, 0, 0, 0, 0, 0, 0, 0, 0, 0]
  const Row2: seq<int> := [1, 9, 0, -1, 0, 0, 0, 0, 0, 0, 0, 0, 0, 0, 0, 0]
  const Row3: seq<int> := [8, 1, 9, 8, 3, 1, -1, 0, 0, 0, 0, 0, 0, 0, 0, 0]
  const Row4: seq<int> := [2, 10, 1, -1, 0, 0, 0, 0, 0, 0, 0, 0, 0, 0, 0, 0]
  const Row5: seq<int> := [0, 8, 3, 1, 2, 10, -1, 0, 0, 0, 0, 0, 0, 0, 0, 0]
  const Row6: seq<int> := [9, 2, 10, 9, 0, 2, -1, 0, 0, 0, 0, 0, 0, 0, 0, 0]
  const Row7: seq<int> := [3, 2, 10, 3, 10, 8, 8, 10, 9, -1, 0, 0, 0, 0, 0, 0]
  const Row8: seq<int> := [2, 3, 11, -1, 0, 0, 0, 0, 0, 0, 0, 0, 0, 0, 0, 0]
  const Row9: seq<int> := [11, 0, 8, 11, 2, 0, -1, 0, 0, 0, 0, 0, 0, 0, 0, 0]
  const Row10: seq<int> := [1, 9, 0, 2, 3, 11, -1, 0, 0, 0, 0, 0, 0, 0, 0, 0]
  const Row11: seq<int> := [2, 1, 9, 2, 9, 11, 11, 9, 8, -1, 0, 0, 0, 0, 0, 0]
  const Row12: seq<int> := [3, 10, 1, 3, 11, 10, -1, 0, 0, 0, 0, 0, 0, 0, 0, 0]
  const Row13: seq<int> := [1, 0, 8, 1, 8, 10, 10, 8, 11, -1, 0, 0, 0, 0, 0, 0]
  const Row14: seq<int> := [0, 3, 11, 0, 11, 9, 9, 11, 10, -1, 0, 0, 0, 0, 0, 0]
  const Row15: seq<int> := [11, 10, 9, 11, 9, 8, -1, 0, 0, 0, 0, 0, 0, 0, 0, 0]
  const Row16: seq<int> := [4, 7, 8, -1, 0, 0, 0, 0, 0, 0, 0, 0, 0, 0, 0, 0]
  const Row17: seq<int> := [4, 3, 0, 4, 7, 3, -1, 0, 0, 0, 0, 0, 0, 0, 0, 0]
  const Row18: seq<int> := [4, 7, 8, 9, 0, 1, -1, 0, 0, 0, 0, 0, 0, 0, 0, 0]
  const Row19: seq<int> := [9, 4, 7, 9, 7, 1, 1, 7, 3, -1, 0, 0, 0, 0, 0, 0]
  const Row20: seq<int> := [4, 7, 8, 1, 2, 10, -1, 0, 0, 0, 0, 0, 0, 0, 0, 0]
  const Row21: seq<int> := [4, 3, 0, 4, 7, 3, 2, 10, 1, -1, 0, 0, 0, 0, 0, 0]
  const Row22: seq<int> := [2, 9, 0, 2, 10, 9, 4, 7, 8, -1, 0, 0, 0, 0, 0, 0]
  const Row23: seq<int> := [3, 2, 7, 7, 9, 4, 7, 2, 9, 9, 2, 10, -1, 0, 0, 0]
  const Row24: seq<int> := [8, 4, 7, 3, 11, 2, -1, 0, 0, 0, 0, 0, 0, 0, 0, 0]
  const Row25: seq<int> := [7, 11, 2, 7, 2, 4, 4, 2, 0, -1, 0, 0, 0, 0, 0, 0]
  const Row26: seq<int> := [2, 3, 11, 1, 9, 0, 8, 4, 7, -1, 0, 0, 0, 0, 0, 0]
  const Row27: seq<int> := [2, 1, 9, 2, 9, 4, 2, 4, 11, 11, 4, 7, -1, 0, 0, 0]
  const Row28: seq<int> := [10, 3, 11, 10, 1, 3, 8, 4, 7, -1, 0, 0, 0, 0, 0, 0]
  const Row29: seq<int> := [4, 7, 0, 0, 10, 1, 7, 10, 0, 7, 11, 10, -1, 0, 0, 0]
  const Row30: seq<int> := [8, 4, 7, 0, 3, 11, 0, 11, 9, 9, 11, 10, -1, 0, 0, 0]
  const Row31: seq<int> := [7, 9, 4, 7, 11, 9, 9, 11, 10, -1, 0, 0, 0, 0, 0, 0]
  const Row32: seq<int> := [4, 9, 5, -1, 0, 0, 0, 0, 0, 0, 0, 0, 0, 0, 0, 0]
  const Row33: seq<int> := [8, 3, 0, 4, 9, 5, -1, 0, 0, 0, 0, 0, 0, 0, 0, 0]
  const Row34: seq<int> := [0, 5, 4, 0, 1, 5, -1, 0, 0, 0, 0, 0, 0, 0, 0, 0]
  const Row35: seq<int> := [4, 8, 3, 4, 3, 5, 5, 3, 1, -1, 0, 0, 0, 0, 0, 0]
  const Row36: seq<int> := [1, 2, 10, 9, 5, 4, -1, 0, 0, 0, 0, 0, 0, 0, 0, 0]
  const Row37: seq<int> := [4, 9, 5, 8, 3, 0, 1, 2, 10, -1, 0, 0, 0, 0, 0, 0]
  const Row38: seq<int> := [10, 5, 4, 10, 4, 2, 2, 4, 0, -1, 0, 0, 0, 0, 0, 0]
  const Row39: seq<int> := [4, 8, 3, 4, 3, 2, 4, 2, 5, 5, 2, 10, -1, 0, 0, 0]
  const Row40: seq<int> := [2, 3, 11, 5, 4, 9, -1, 0, 0, 0, 0, 0, 0, 0, 0, 0]
  const Row41: seq<int> := [11, 0, 8, 11, 2, 0, 9, 5, 4, -1, 0, 0, 0, 0, 0, 0]
  const Row42: seq<int> := [5, 0, 1, 5, 4, 0, 3, 11, 2, -1, 0, 0, 0, 0, 0, 0]
  const Row43: seq<int> := [11, 2, 8, 8, 5, 4, 2, 5, 8, 2, 1, 5, -1, 0, 0, 0]
  const Row44: seq<int> := [3, 10, 1, 3, 11, 10, 5, 4, 9, -1, 0, 0, 0, 0, 0, 0]
  const Row45: seq<int> := [9, 5, 4, 1, 0, 8, 1, 8, 10, 10, 8, 11, -1, 0, 0, 0]
  const Row46: seq<int> := [10, 5, 11, 11, 0, 3, 11, 5, 0, 0, 5, 4, -1, 0, 0, 0]
  const Row47: seq<int> := [4, 10, 5, 4, 8, 10, 10, 8, 11, -1, 0, 0, 0, 0, 0, 0]
  const Row48: seq<int> := [7, 9, 5, 7, 8, 9, -1, 0, 0, 0, 0, 0, 0, 0, 0, 0]
  const Row49: seq<int> := [0, 9, 5, 0, 5, 3, 3, 5, 7, -1, 0, 0, 0, 0, 0, 0]
  const Row50: seq<int> := [8, 0, 1, 8, 1, 7, 7, 1, 5, -1, 0, 0, 0, 0, 0, 0]
  const Row51: seq<int> := [3, 1, 5, 3, 5, 7, -1, 0, 0, 0, 0, 0, 0, 0, 0, 0]
  const Row52: seq<int> := [7, 9, 5, 7, 8, 9, 1, 2, 10, -1, 0, 0, 0, 0, 0, 0]
  const Row53: seq<int> := [1, 2, 10, 0, 9, 5, 0, 5, 3, 3, 5, 7, -1, 0, 0, 0]
  const Row54: seq<int> := [7, 8, 5, 5, 2, 10, 8, 2, 5, 8, 0, 2, -1, 0, 0, 0]
  const Row55: seq<int> := [10, 3, 2, 10, 5, 3, 3, 5, 7, -1, 0, 0, 0, 0, 0, 0]
  const Row56: seq<int> := [9, 7, 8, 9, 5, 7, 11, 2, 3, -1, 0, 0, 0, 0, 0, 0]
  const Row57: seq<int> := [0, 9, 2, 2, 7, 11, 2, 9, 7, 7, 9, 5, -1, 0, 0, 0]
  const Row58: seq<int> := [3, 11, 2, 8, 0, 1, 8, 1, 7, 7, 1, 5, -1, 0, 0, 0]
  const Row59: seq<int> := [2, 7, 11, 2, 1, 7, 7, 1, 5, -1, 0, 0, 0, 0, 0, 0]
  const Row60: seq<int> := [11, 1, 3, 11, 10, 1, 7, 8, 9, 7, 9, 5, -1, 0, 0, 0]
  const Row61: seq<int> := [11, 10, 1, 11, 1, 7, 7, 1, 0, 7, 0, 9, 7, 9, 5, -1]
  const Row62: seq<int> := [5, 7, 8, 5, 8, 10, 10, 8, 0, 10, 0, 3, 10, 3, 11, -1]
  const Row63: seq<int> := [11, 10, 5, 11, 5, 7, -1, 0, 0, 0, 0, 0, 0, 0, 0, 0]
  const Row64: seq<int> := [10, 6, 5, -1, 0, 0, 0, 0, 0, 0, 0, 0, 0, 0, 0, 0]
  const Row65: seq<int> := [0, 8, 3, 10, 6, 5, -1, 0, 0, 0, 0, 0, 0, 0, 0, 0]
  const Row66: seq<int> := [9, 0, 1, 5, 10, 6, -1, 0, 0, 0, 0, 0, 0, 0, 0, 0]
  const Row67: seq<int> := [8, 1, 9, 8, 3, 1, 10, 6, 5, -1, 0, 0, 0, 0, 0, 0]
  const Row68: seq<int> := [6, 1, 2, 6, 5, 1, -1, 0, 0, 0, 0, 0, 0, 0, 0, 0]
  const Row69: seq<int> := [6, 1, 2, 6, 5, 1, 0, 8, 3, -1, 0, 0, 0, 0, 0, 0]
  const Row70: seq<int> := [5, 9, 0, 5, 0, 6, 6, 0, 2, -1, 0, 0, 0, 0, 0, 0]
  const Row71: seq<int> := [6, 5, 2, 2, 8, 3, 5, 8, 2, 5, 9, 8, -1, 0, 0, 0]
  const Row72: seq<int> := [2, 3, 11, 10, 6, 5, -1, 0, 0, 0, 0, 0, 0, 0, 0, 0]
  const Row73: seq<int> := [0, 11, 2, 0, 8, 11, 6, 5, 10, -1, 0, 0, 0, 0, 0, 0]
  const Row74: seq<int> := [0, 1, 9, 3, 11, 2, 10, 6, 5, -1, 0, 0, 0, 0, 0, 0]
  const Row75: seq<int> := [10, 6, 5, 2, 1, 9, 2, 9, 11, 11, 9, 8, -1, 0, 0, 0]
  const Row76: seq<int> := [11, 6, 5, 11, 5, 3, 3, 5, 1, -1, 0, 0, 0, 0, 0, 0]
  const Row77: seq<int> := [11, 6, 8, 8, 1, 0, 8, 6, 1, 1, 6, 5, -1, 0, 0, 0]
  const Row78: seq<int> := [0, 3, 11, 0, 11, 6, 0, 6, 9, 9, 6, 5, -1, 0, 0, 0]
  const Row79: seq<int> := [5, 11, 6, 5, 9, 11, 11, 9, 8, -1, 0, 0, 0, 0, 0, 0]
  const Row80: seq<int> := [7, 8, 4, 6, 5, 10, -1, 0, 0, 0, 0, 0, 0, 0, 0, 0]
  const Row81: seq<int> := [3, 4, 7, 3, 0, 4, 5, 10, 6, -1, 0, 0, 0, 0, 0, 0]
  const Row82: seq<int> := [6, 5, 10, 7, 8, 4, 9, 0, 1, -1, 0, 0, 0, 0, 0, 0]
  const Row83: seq<int> := [5, 10, 6, 9, 4, 7, 9, 7, 1, 1, 7, 3, -1, 0, 0, 0]
  const Row84: seq<int> := [1, 6, 5, 1, 2, 6, 7, 8, 4, -1, 0, 0, 0, 0, 0, 0]
  const Row85: seq<int> := [7, 0, 4, 7, 3, 0, 6, 5, 1, 6, 1, 2, -1, 0, 0, 0]
  const Row86: seq<int> := [4, 7, 8, 5, 9, 0, 5, 0, 6, 6, 0, 2, -1, 0, 0, 0]
  const Row87: seq<int> := [2, 6, 5, 2, 5, 3, 3, 5, 9, 3, 9, 4, 3, 4, 7, -1]
  const Row88: seq<int> := [4, 7, 8, 5, 10, 6, 11, 2, 3, -1, 0, 0, 0, 0, 0, 0]
  const Row89: seq<int> := [6, 5, 10, 7, 11, 2, 7, 2, 4, 4, 2, 0, -1, 0, 0, 0]
  const Row90: seq<int> := [4, 7, 8, 9, 0, 1, 6, 5, 10, 3, 11, 2, -1, 0, 0, 0]
  const Row91: seq<int> := [6, 5, 10, 11, 4, 7, 11, 2, 4, 4, 2, 9, 9, 2, 1, -1]
  const Row92: seq<int> := [7, 8, 4, 11, 6, 5, 11, 5, 3, 3, 5, 1, -1, 0, 0, 0]
  const Row93: seq<int> := [0, 4, 7, 0, 7, 1, 1, 7, 11, 1, 11, 6, 1, 6, 5, -1]
  const Row94: seq<int> := [4, 7, 8, 9, 6, 5, 9, 0, 6, 6, 0, 11, 11, 0, 3, -1]
  const Row95: seq<int> := [7, 11, 4, 11, 9, 4, 11, 5, 9, 11, 6, 5, -1, 0, 0, 0]
  const Row96: seq<int> := [10, 4, 9, 10, 6, 4, -1, 0, 0, 0, 0, 0, 0, 0, 0, 0]
  const Row97: seq<int> := [10, 4, 9, 10, 6, 4, 8, 3, 0, -1, 0, 0, 0, 0, 0, 0]
  const Row98: seq<int> := [1, 10, 6, 1, 6, 0, 0, 6, 4, -1, 0, 0, 0, 0, 0, 0]
  const Row99: seq<int> := [4, 8, 6, 6, 1, 10, 6, 8, 1, 1, 8, 3, -1, 0, 0, 0]
  const Row100: seq<int> := [9, 1, 2, 9, 2, 4, 4, 2, 6, -1, 0, 0, 0, 0, 0, 0]
  const Row101: seq<int> := [0, 8, 3, 9, 1, 2, 9, 2, 4, 4, 2, 6, -1, 0, 0, 0]
  const Row102: seq<int> := [0, 2, 6, 0, 6, 4, -1, 0, 0, 0, 0, 0, 0, 0, 0, 0]
  const Row103: seq<int> := [3, 4, 8, 3, 2, 4, 4, 2, 6, -1, 0, 0, 0, 0, 0, 0]
  const Row104: seq<int> := [4, 10, 6, 4, 9, 10, 2, 3, 11, -1, 0, 0, 0, 0, 0, 0]
  const Row105: seq<int> := [8, 2, 0, 8, 11, 2, 4, 9, 10, 4, 10, 6, -1, 0, 0, 0]
  const Row106: seq<int> := [2, 3, 11, 1, 10, 6, 1, 6, 0, 0, 6, 4, -1, 0, 0, 0]
  const Row107: seq<int> := [8, 11, 2, 8, 2, 4, 4, 2, 1, 4, 1, 10, 4, 10, 6, -1]
  const Row108: seq<int> := [3, 11, 1, 1, 4, 9, 11, 4, 1, 11, 6, 4, -1, 0, 0, 0]
  const Row109: seq<int> := [6, 4, 9, 6, 9, 11, 11, 9, 1, 11, 1, 0, 11, 0, 8, -1]
  const Row110: seq<int> := [11, 0, 3, 11, 6, 0, 0, 6, 4, -1, 0, 0, 0, 0, 0, 0]
  const Row111: seq<int> := [8, 11, 6, 8, 6, 4, -1, 0, 0, 0, 0, 0, 0, 0, 0, 0]
  const Row112: seq<int> := [6, 7, 8, 6, 8, 10, 10, 8, 9, -1, 0, 0, 0, 0, 0, 0]
  const Row113: seq<int> := [3, 0, 7, 7, 10, 6, 0, 10, 7, 0, 9, 10, -1, 0, 0, 0]
  const Row114: seq<int> := [1, 10, 6, 1, 6, 7, 1, 7, 0, 0, 7, 8, -1, 0, 0, 0]
  const Row115: seq<int> := [6, 1, 10, 6, 7, 1, 1, 7, 3, -1, 0, 0, 0, 0, 0, 0]
  const Row116: seq<int> := [9, 1, 8, 8, 6, 7, 8, 1, 6, 6, 1, 2, -1, 0, 0, 0]
  const Row117: seq<int> := [7, 3, 0, 7, 0, 6, 6, 0, 9, 6, 9, 1, 6, 1, 2, -1]
  const Row118: seq<int> := [8, 6, 7, 8, 0, 6, 6, 0, 2, -1, 0, 0, 0, 0, 0, 0]
  const Row119: seq<int> := [2, 6, 7, 2, 7, 3, -1, 0, 0, 0, 0, 0, 0, 0, 0, 0]
  const Row120: seq<int> := [11, 2, 3, 6, 7, 8, 6, 8, 10, 10, 8, 9, -1, 0, 0, 0]
  const Row121: seq<int> := [9, 10, 6, 9, 6, 0, 0, 6, 7, 0, 7, 11, 0, 11, 2, -1]
  const Row122: seq<int> := [3, 11, 2, 0, 7, 8, 0, 1, 7, 7, 1, 6, 6, 1, 10, -1]
  const Row123: seq<int> := [6, 7, 10, 7, 1, 10, 7, 2, 1, 7, 11, 2, -1, 0, 0, 0]
  const Row124: seq<int> := [1, 3, 11, 1, 11, 9, 9, 11, 6, 9, 6, 7, 9, 7, 8, -1]
  const Row125: seq<int> := [6, 7, 11, 9, 1, 0, -1, 0, 0, 0, 0, 0, 0, 0, 0, 0]
  const Row126: seq<int> := [8, 0, 7, 0, 6, 7, 0, 11, 6, 0, 3, 11, -1, 0, 0, 0]
  const Row127: seq<int> := [6, 7, 11, -1, 0, 0, 0, 0, 0, 0, 0, 0, 0, 0, 0, 0]
  const Row128: seq<int> := [6, 11, 7, -1, 0, 0, 0, 0, 0, 0, 0, 0, 0, 0, 0, 0]
  const Row129: seq<int> := [3, 0, 8, 11, 7, 6, -1, 0, 0, 0, 0, 0, 0, 0, 0, 0]
  const Row130: seq<int> := [6, 11, 7, 9, 0, 1, -1, 0, 0, 0, 0, 0, 0, 0, 0, 0]
  const Row131: seq<int> := [1, 8, 3, 1, 9, 8, 7, 6, 11, -1, 0, 0, 0, 0, 0, 0]
  const Row132: seq<int> := [11, 7, 6, 2, 10, 1, -1, 0, 0, 0, 0, 0, 0, 0, 0, 0]
  const Row133: seq<int> := [1, 2, 10, 0, 8, 3, 11, 7, 6, -1, 0, 0, 0, 0, 0, 0]
  const Row134: seq<int> := [9, 2, 10, 9, 0, 2, 11, 7, 6, -1, 0, 0, 0, 0, 0, 0]
  const Row135: seq<int> := [11, 7, 6, 3, 2, 10, 3, 10, 8, 8, 10, 9, -1, 0, 0, 0]
  const Row136: seq<int> := [2, 7, 6, 2, 3, 7, -1, 0, 0, 0, 0, 0, 0, 0, 0, 0]
  const Row137: seq<int> := [8, 7, 6, 8, 6, 0, 0, 6, 2, -1, 0, 0, 0, 0, 0, 0]
  const Row138: seq<int> := [7, 2, 3, 7, 6, 2, 1, 9, 0, -1, 0, 0, 0, 0, 0, 0]
  const Row139: seq<int> := [8, 7, 9, 9, 2, 1, 9, 7, 2, 2, 7, 6, -1, 0, 0, 0]
  const Row140: seq<int> := [6, 10, 1, 6, 1, 7, 7, 1, 3, -1, 0, 0, 0, 0, 0, 0]
  const Row141: seq<int> := [6, 10, 1, 6, 1, 0, 6, 0, 7, 7, 0, 8, -1, 0, 0, 0]
  const Row142: seq<int> := [7, 6, 3, 3, 9, 0, 6, 9, 3, 6, 10, 9, -1, 0, 0, 0]
  const Row143: seq<int> := [6, 8, 7, 6, 10, 8, 8, 10, 9, -1, 0, 0, 0, 0, 0, 0]
  const Row144: seq<int> := [8, 6, 11, 8, 4, 6, -1, 0, 0, 0, 0, 0, 0, 0, 0, 0]
  const Row145: seq<int> := [11, 3, 0, 11, 0, 6, 6, 0, 4, -1, 0, 0, 0, 0, 0, 0]
  const Row146: seq<int> := [6, 8, 4, 6, 11, 8, 0, 1, 9, -1, 0, 0, 0, 0, 0, 0]
  const Row147: seq<int> := [1, 9, 3, 3, 6, 11, 9, 6, 3, 9, 4, 6, -1, 0, 0, 0]
  const Row148: seq<int> := [8, 6, 11, 8, 4, 6, 10, 1, 2, -1, 0, 0, 0, 0, 0, 0]
  const Row149: seq<int> := [2, 10, 1, 11, 3, 0, 11, 0, 6, 6, 0, 4, -1, 0, 0, 0]
  const Row150: seq<int> := [11, 4, 6, 11, 8, 4, 2, 10, 9, 2, 9, 0, -1, 0, 0, 0]
  const Row151: seq<int> := [4, 6, 11, 4, 11, 9, 9, 11, 3, 9, 3, 2, 9, 2, 10, -1]
  const Row152: seq<int> := [3, 8, 4, 3, 4, 2, 2, 4, 6, -1, 0, 0, 0, 0, 0, 0]
  const Row153: seq<int> := [2, 0, 4, 2, 4, 6, -1, 0, 0, 0, 0, 0, 0, 0, 0, 0]
  const Row154: seq<int> := [0, 1, 9, 3, 8, 4, 3, 4, 2, 2, 4, 6, -1, 0, 0, 0]
  const Row155: seq<int> := [9, 2, 1, 9, 4, 2, 2, 4, 6, -1, 0, 0, 0, 0, 0, 0]
  const Row156: seq<int> := [6, 10, 4, 4, 3, 8, 4, 10, 3, 3, 10, 1, -1, 0, 0, 0]
  const Row157: seq<int> := [1, 6, 10, 1, 0, 6, 6, 0, 4, -1, 0, 0, 0, 0, 0, 0]
  const Row158: seq<int> := [10, 9, 0, 10, 0, 6, 6, 0, 3, 6, 3, 8, 6, 8, 4, -1]
  const Row159: seq<int> := [10, 9, 4, 10, 4, 6, -1, 0, 0, 0, 0, 0, 0, 0, 0, 0]
  const Row160: seq<int> := [6, 11, 7, 5, 4, 9, -1, 0, 0, 0, 0, 0, 0, 0, 0, 0]
  const Row161: seq<int> := [0, 8, 3, 9, 5, 4, 7, 6, 11, -1, 0, 0, 0, 0, 0, 0]
  const Row162: seq<int> := [0, 5, 4, 0, 1, 5, 6, 11, 7, -1, 0, 0, 0, 0, 0, 0]
  const Row163: seq<int> := [7, 6, 11, 4, 8, 3, 4, 3, 5, 5, 3, 1, -1, 0, 0, 0]
  const Row164: seq<int> := [2, 10, 1, 11, 7, 6, 5, 4, 9, -1, 0, 0, 0, 0, 0, 0]
  const Row165: seq<int> := [0, 8, 3, 1, 2, 10, 4, 9, 5, 11, 7, 6, -1, 0, 0, 0]
  const Row166: seq<int> := [6, 11, 7, 10, 5, 4, 10, 4, 2, 2, 4, 0, -1, 0, 0, 0]
  const Row167: seq<int> := [6, 11, 7, 5, 2, 10, 5, 4, 2, 2, 4, 3, 3, 4, 8, -1]
  const Row168: seq<int> := [2, 7, 6, 2, 3, 7, 4, 9, 5, -1, 0, 0, 0, 0, 0, 0]
  const Row169: seq<int> := [4, 9, 5, 8, 7, 6, 8, 6, 0, 0, 6, 2, -1, 0, 0, 0]
  const Row170: seq<int> := [3, 6, 2, 3, 7, 6, 0, 1, 5, 0, 5, 4, -1, 0, 0, 0]
  const Row171: seq<int> := [1, 5, 4, 1, 4, 2, 2, 4, 8, 2, 8, 7, 2, 7, 6, -1]
  const Row172: seq<int> := [5, 4, 9, 6, 10, 1, 6, 1, 7, 7, 1, 3, -1, 0, 0, 0]
  const Row173: seq<int> := [4, 9, 5, 7, 0, 8, 7, 6, 0, 0, 6, 1, 1, 6, 10, -1]
  const Row174: seq<int> := [3, 7, 6, 3, 6, 0, 0, 6, 10, 0, 10, 5, 0, 5, 4, -1]
  const Row175: seq<int> := [4, 8, 5, 8, 10, 5, 8, 6, 10, 8, 7, 6, -1, 0, 0, 0]
  const Row176: seq<int> := [5, 6, 11, 5, 11, 9, 9, 11, 8, -1, 0, 0, 0, 0, 0, 0]
  const Row177: seq<int> := [0, 9, 5, 0, 5, 6, 0, 6, 3, 3, 6, 11, -1, 0, 0, 0]
  const Row178: seq<int> := [8, 0, 11, 11, 5, 6, 11, 0, 5, 5, 0, 1, -1, 0, 0, 0]
  const Row179: seq<int> := [11, 5, 6, 11, 3, 5, 5, 3, 1, -1, 0, 0, 0, 0, 0, 0]
  const Row180: seq<int> := [10, 1, 2, 5, 6, 11, 5, 11, 9, 9, 11, 8, -1, 0, 0, 0]
  const Row181: seq<int> := [2, 10, 1, 3, 6, 11, 3, 0, 6, 6, 0, 5, 5, 0, 9, -1]
  const Row182: seq<int> := [0, 2, 10, 0, 10, 8, 8, 10, 5, 8, 5, 6, 8, 6, 11, -1]
  const Row183: seq<int> := [11, 3, 6, 3, 5, 6, 3, 10, 5, 3, 2, 10, -1, 0, 0, 0]
  const Row184: seq<int> := [2, 3, 6, 6, 9, 5, 3, 9, 6, 3, 8, 9, -1, 0, 0, 0]
  const Row185: seq<int> := [5, 0, 9, 5, 6, 0, 0, 6, 2, -1, 0, 0, 0, 0, 0, 0]
  const Row186: seq<int> := [6, 2, 3, 6, 3, 5, 5, 3, 8, 5, 8, 0, 5, 0, 1, -1]
  const Row187: seq<int> := [6, 2, 1, 6, 1, 5, -1, 0, 0, 0, 0, 0, 0, 0, 0, 0]
  const Row188: seq<int> := [8, 9, 5, 8, 5, 3, 3, 5, 6, 3, 6, 10, 3, 10, 1, -1]
  const Row189: seq<int> := [1, 0, 10, 0, 6, 10, 0, 5, 6, 0, 9, 5, -1, 0, 0, 0]
  const Row190: seq<int> := [0, 3, 8, 10, 5, 6, -1, 0, 0, 0, 0, 0, 0, 0, 0, 0]
  const Row191: seq<int> := [10, 5, 6, -1, 0, 0, 0, 0, 0, 0, 0, 0, 0, 0, 0, 0]
  const Row192: seq<int> := [11, 5, 10, 11, 7, 5, -1, 0, 0, 0, 0, 0, 0, 0, 0, 0]
  const Row193: seq<int> := [5, 11, 7, 5, 10, 11, 3, 0, 8, -1, 0, 0, 0, 0, 0, 0]
  const Row194: seq<int> := [11, 5, 10, 11, 7, 5, 9, 0, 1, -1, 0, 0, 0, 0, 0, 0]
  const Row195: seq<int> := [9, 3, 1, 9, 8, 3, 5, 10, 11, 5, 11, 7, -1, 0, 0, 0]
  const Row196: seq<int> := [2, 11, 7, 2, 7, 1, 1, 7, 5, -1, 0, 0, 0, 0, 0, 0]
  const Row197: seq<int> := [3, 0, 8, 2, 11, 7, 2, 7, 1, 1, 7, 5, -1, 0, 0, 0]
  const Row198: seq<int> := [2, 11, 0, 0, 5, 9, 0, 11, 5, 5, 11, 7, -1, 0, 0, 0]
  const Row199: seq<int> := [9, 8, 3, 9, 3, 5, 5, 3, 2, 5, 2, 11, 5, 11, 7, -1]
  const Row200: seq<int> := [10, 2, 3, 10, 3, 5, 5, 3, 7, -1, 0, 0, 0, 0, 0, 0]
  const Row201: seq<int> := [5, 10, 7, 7, 0, 8, 10, 0, 7, 10, 2, 0, -1, 0, 0, 0]
  const Row202: seq<int> := [1, 9, 0, 10, 2, 3, 10, 3, 5, 5, 3, 7, -1, 0, 0, 0]
  const Row203: seq<int> := [7, 5, 10, 7, 10, 8, 8, 10, 2, 8, 2, 1, 8, 1, 9, -1]
  const Row204: seq<int> := [7, 5, 1, 7, 1, 3, -1, 0, 0, 0, 0, 0, 0, 0, 0, 0]
  const Row205: seq<int> := [8, 1, 0, 8, 7, 1, 1, 7, 5, -1, 0, 0, 0, 0, 0, 0]
  const Row206: seq<int> := [0, 5, 9, 0, 3, 5, 5, 3, 7, -1, 0, 0, 0, 0, 0, 0]
  const Row207: seq<int> := [7, 5, 9, 7, 9, 8, -1, 0, 0, 0, 0, 0, 0, 0, 0, 0]
  const Row208: seq<int> := [4, 5, 10, 4, 10, 8, 8, 10, 11, -1, 0, 0, 0, 0, 0, 0]
  const Row209: seq<int> := [11, 3, 10, 10, 4, 5, 10, 3, 4, 4, 3, 0, -1, 0, 0, 0]
  const Row210: seq<int> := [9, 0, 1, 4, 5, 10, 4, 10, 8, 8, 10, 11, -1, 0, 0, 0]
  const Row211: seq<int> := [3, 1, 9, 3, 9, 11, 11, 9, 4, 11, 4, 5, 11, 5, 10, -1]
  const Row212: seq<int> := [8, 4, 11, 11, 1, 2, 4, 1, 11, 4, 5, 1, -1, 0, 0, 0]
  const Row213: seq<int> := [5, 1, 2, 5, 2, 4, 4, 2, 11, 4, 11, 3, 4, 3, 0, -1]
  const Row214: seq<int> := [11, 8, 4, 11, 4, 2, 2, 4, 5, 2, 5, 9, 2, 9, 0, -1]
  const Row215: seq<int> := [2, 11, 3, 5, 9, 4, -1, 0, 0, 0, 0, 0, 0, 0, 0, 0]
  const Row216: seq<int> := [4, 5, 10, 4, 10, 2, 4, 2, 8, 8, 2, 3, -1, 0, 0, 0]
  const Row217: seq<int> := [10, 4, 5, 10, 2, 4, 4, 2, 0, -1, 0, 0, 0, 0, 0, 0]
  const Row218: seq<int> := [0, 1, 9, 8, 2, 3, 8, 4, 2, 2, 4, 10, 10, 4, 5, -1]
  const Row219: seq<int> := [10, 2, 5, 2, 4, 5, 2, 9, 4, 2, 1, 9, -1, 0, 0, 0]
  const Row220: seq<int> := [4, 3, 8, 4, 5, 3, 3, 5, 1, -1, 0, 0, 0, 0, 0, 0]
  const Row221: seq<int> := [0, 4, 5, 0, 5, 1, -1, 0, 0, 0, 0, 0, 0, 0, 0, 0]
  const Row222: seq<int> := [0, 3, 9, 3, 5, 9, 3, 4, 5, 3, 8, 4, -1, 0, 0, 0]
  const Row223: seq<int> := [4, 5, 9, -1, 0, 0, 0, 0, 0, 0, 0, 0, 0, 0, 0, 0]
  const Row224: seq<int> := [7, 4, 9, 7, 9, 11, 11, 9, 10, -1, 0, 0, 0, 0, 0, 0]
  const Row225: seq<int> := [8, 3, 0, 7, 4, 9, 7, 9, 11, 11, 9, 10, -1, 0, 0, 0]
  const Row226: seq<int> := [0, 1, 4, 4, 11, 7, 1, 11, 4, 1, 10, 11, -1, 0, 0, 0]
  const Row227: seq<int> := [10, 11, 7, 10, 7, 1, 1, 7, 4, 1, 4, 8, 1, 8, 3, -1]
  const Row228: seq<int> := [2, 11, 7, 2, 7, 4, 2, 4, 1, 1, 4, 9, -1, 0, 0, 0]
  const Row229: seq<int> := [0, 8, 3, 1, 4, 9, 1, 2, 4, 4, 2, 7, 7, 2, 11, -1]
  const Row230: seq<int> := [7, 2, 11, 7, 4, 2, 2, 4, 0, -1, 0, 0, 0, 0, 0, 0]
  const Row231: seq<int> := [7, 4, 11, 4, 2, 11, 4, 3, 2, 4, 8, 3, -1, 0, 0, 0]
  const Row232: seq<int> := [7, 4, 3, 3, 10, 2, 3, 4, 10, 10, 4, 9, -1, 0, 0, 0]
  const Row233: seq<int> := [2, 0, 8, 2, 8, 10, 10, 8, 7, 10, 7, 4, 10, 4, 9, -1]
  const Row234: seq<int> := [4, 0, 1, 4, 1, 7, 7, 1, 10, 7, 10, 2, 7, 2, 3, -1]
  const Row235: seq<int> := [4, 8, 7, 1, 10, 2, -1, 0, 0, 0, 0, 0, 0, 0, 0, 0]
  const Row236: seq<int> := [9, 7, 4, 9, 1, 7, 7, 1, 3, -1, 0, 0, 0, 0, 0, 0]
  const Row237: seq<int> := [8, 7, 0, 7, 1, 0, 7, 9, 1, 7, 4, 9, -1, 0, 0, 0]
  const Row238: seq<int> := [4, 0, 3, 4, 3, 7, -1, 0, 0, 0, 0, 0, 0, 0, 0, 0]
  const Row239: seq<int> := [4, 8, 7, -1, 0, 0, 0, 0, 0, 0, 0, 0, 0, 0, 0, 0]
  const Row240: seq<int> := [8, 9, 10, 8, 10, 11, -1, 0, 0, 0, 0, 0, 0, 0, 0, 0]
  const Row241: seq<int> := [0, 11, 3, 0, 9, 11, 11, 9, 10, -1, 0, 0, 0, 0, 0, 0]
  const Row242: seq<int> := [1, 8, 0, 1, 10, 8, 8, 10, 11, -1, 0, 0, 0, 0, 0, 0]
  const Row243: seq<int> := [3, 1, 10, 3, 10, 11, -1, 0, 0, 0, 0, 0, 0, 0, 0, 0]
  const Row244: seq<int> := [2, 9, 1, 2, 11, 9, 9, 11, 8, -1, 0, 0, 0, 0, 0, 0]
  const Row245: seq<int> := [0, 9, 3, 9, 11, 3, 9, 2, 11, 9, 1, 2, -1, 0, 0, 0]
  const Row246: seq<int> := [11, 8, 0, 11, 0, 2, -1, 0, 0, 0, 0, 0, 0, 0, 0, 0]
  const Row247: seq<int> := [2, 11, 3, -1, 0, 0, 0, 0, 0, 0, 0, 0, 0, 0, 0, 0]
  const Row248: seq<int> := [3, 10, 2, 3, 8, 10, 10, 8, 9, -1, 0, 0, 0, 0, 0, 0]
  const Row249: seq<int> := [9, 10, 2, 9, 2, 0, -1, 0, 0, 0, 0, 0, 0, 0, 0, 0]
  const Row250: seq<int> := [3, 8, 2, 8, 10, 2, 8, 1, 10, 8, 0, 1, -1, 0, 0, 0]
  const Row251: seq<int> := [2, 1, 10, -1, 0, 0, 0, 0, 0, 0, 0, 0, 0, 0, 0, 0]
  const Row252: seq<int> := [8, 9, 1, 8, 1, 3, -1, 0, 0, 0, 0, 0, 0, 0, 0, 0]
  const Row253: seq<int> := [1, 0, 9, -1, 0, 0, 0, 0, 0, 0, 0, 0, 0, 0, 0, 0]
  const Row254: seq<int> := [0, 3, 8, -1, 0, 0, 0, 0, 0, 0, 0, 0, 0, 0, 0, 0]
  const Row255: seq<int> := [-1, 0, 0, 0, 0, 0, 0, 0, 0, 0, 0, 0, 0, 0, 0, 0]

  /** The triangle table in blocks of 16 rows. */
  const Block0: seq<seq<int>> :=
    [Row0, Row1, Row2, Row3, Row4, Row5, Row6, Row7, Row8, Row9, Row10, Row11, Row12, Row13, Row14, Row15]
  const Block1: seq<seq<int>> :=
    [Row16, Row17, Row18, Row19, Row20, Row21, Row22, Row23, Row24, Row25, Row26, Row27, Row28, Row29, Row30, Row31]
  const Block2: seq<seq<int>> :=
    [Row32, Row33, Row34, Row35, Row36, Row37, Row38, Row39, Row40, Row41, Row42, Row43, Row44, Row45, Row46, Row47]
  const Block3: seq<seq<int>> :=
    [Row48, Row49, Row50, Row51, Row52, Row53, Row54, Row55, Row56, Row57, Row58, Row59, Row60, Row61, Row62, Row63]
  const Block4: seq<seq<int>> :=
    [Row64, Row65, Row66, Row67, Row68, Row69, Row70, Row71, Row72, Row73, Row74, Row75, Row76, Row77, Row78, Row79]
  const Block5: seq<seq<int>> :=
    [Row80, Row81, Row82, Row83, Row84, Row85, Row86, Row87, Row88, Row89, Row90, Row91, Row92, Row93, Row94, Row95]
  const Block6: seq<seq<int>> :=
    [Row96, Row97, Row98, Row99, Row100, Row101, Row102, Row103, Row104, Row105, Row106, Row107, Row108, Row109, Row110, Row111]
  const Block7: seq<seq<int>> :=
    [Row112, Row113, Row114, Row115, Row116, Row117, Row118, Row119, Row120, Row121, Row122, Row123, Row124, Row125, Row126, Row127]
  const Block8: seq<seq<int>> :=
    [Row128, Row129, Row130, Row131, Row132, Row133, Row134, Row135, Row136, Row137, Row138, Row139, Row140, Row141, Row142, Row143]
  const Block9: seq<seq<int>> :=
    [Row144, Row145, Row146, Row147, Row148, Row149, Row150, Row151, Row152, Row153, Row154, Row155, Row156, Row157, Row158, Row159]
  const Block10: seq<seq<int>> :=
    [Row160, Row161, Row162, Row163, Row164, Row165, Row166, Row167, Row168, Row169, Row170, Row171, Row172, Row173, Row174, Row175]
  const Block11: seq<seq<int>> :=
    [Row176, Row177, Row178, Row179, Row180, Row181, Row182, Row183, Row184, Row185, Row186, Row187, Row188, Row189, Row190, Row191]
  const Block12: seq<seq<int>> :=
    [Row192, Row193, Row194, Row195, Row196, Row197, Row198, Row199, Row200, Row201, Row202, Row203, Row204, Row205, Row206, Row207]
  const Block13: seq<seq<int>> :=
    [Row208, Row209, Row210, Row211, Row212, Row213, Row214, Row215, Row216, Row217, Row218, Row219, Row220, Row221, Row222, Row223]
  const Block14: seq<seq<int>> :=
    [Row224, Row225, Row226, Row227, Row228, Row229, Row230, Row231, Row232, Row233, Row234, Row235, Row236, Row237, Row238, Row239]
  const Block15: seq<seq<int>> :=
    [Row240, Row241, Row242, Row243, Row244, Row245, Row246, Row247, Row248, Row249, Row250, Row251, Row252, Row253, Row254, Row255]
  const Blocks: seq<seq<seq<int>>> :=
    [Block0, Block1, Block2, Block3, Block4, Block5, Block6, Block7, Block8, Block9, Block10, Block11, Block12, Block13, Block14, Block15]

  /** Row c of the triangle table, the source's triTable[c]. */
  function TriRow(c: int): (row: seq<int>)
    requires 0 <= c < 256
  {
    Blocks[c / 16][c % 16]
  }

  /** The triangle table as one sequence of 256 rows, the source's triTable. */
  function TriTable(): (t: seq<seq<int>>)
    ensures |t| == 256 && forall c | 0 <= c < 256 :: t[c] == TriRow(c)
  {
    seq(256, c requires 0 <= c < 256 => TriRow(c))
  }

  /** `row` is a well-formed row for case c. */
  predicate CaseRowOk(c: int, row: seq<int>) {
    0 <= c < 256 && RowOk(c as bv8, row)
  }

  /** `row` is a well-formed row for case r of block b. */
  predicate BlockRowOk(b: int, r: int, row: seq<int>) {
    CaseRowOk(16 * b + r, row)
  }

  /*
   * Each row is checked on its own, and the fact is stated under a quantifier so that it is
   * only brought in where a case and a row are matched against it.
   */
  lemma Row0Ok()
    ensures forall c | c == 0 :: CaseRowOk(c, Row0)
  {
    var k := EdgeCount(Row0);
    assert EntriesOk(0, Row0, k, 14); assert EntriesOk(0, Row0, k, 13); assert EntriesOk(0, Row0, k, 12);
    assert EntriesOk(0, Row0, k, 11); assert EntriesOk(0, Row0, k, 10); assert EntriesOk(0, Row0, k, 9);
    assert EntriesOk(0, Row0, k, 8); assert EntriesOk(0, Row0, k, 7); assert EntriesOk(0, Row0, k, 6);
    assert EntriesOk(0, Row0, k, 5); assert EntriesOk(0, Row0, k, 4); assert EntriesOk(0, Row0, k, 3);
    assert EntriesOk(0, Row0, k, 2); assert EntriesOk(0, Row0, k, 1); assert EntriesOk(0, Row0, k, 0);
  }

  lemma Row1Ok()
    ensures forall c | c == 1 :: CaseRowOk(c, Row1)
  {
    var k := EdgeCount(Row1);
    assert EntriesOk(1, Row1, k, 14); assert EntriesOk(1, Row1, k, 13); assert EntriesOk(1, Row1, k, 12);
    assert EntriesOk(1, Row1, k, 11); assert EntriesOk(1, Row1, k, 10); assert EntriesOk(1, Row1, k, 9);
    assert EntriesOk(1, Row1, k, 8); assert EntriesOk(1, Row1, k, 7); assert EntriesOk(1, Row1, k, 6);
    assert EntriesOk(1, Row1, k, 5); assert EntriesOk(1, Row1, k, 4); assert EntriesOk(1, Row1, k, 3);
    assert EntriesOk(1, Row1, k, 2); assert EntriesOk(1, Row1, k, 1); assert EntriesOk(1, Row1, k, 0);
  }

  lemma Row2Ok()
    ensures forall c | c == 2 :: CaseRowOk(c, Row2)
  {
    var k := EdgeCount(Row2);
    assert EntriesOk(2, Row2, k, 14); assert EntriesOk(2, Row2, k, 13); assert EntriesOk(2, Row2, k, 12);
    assert EntriesOk(2, Row2, k, 11); assert EntriesOk(2, Row2, k, 10); assert EntriesOk(2, Row2, k, 9);
    assert EntriesOk(2, Row2, k, 8); assert EntriesOk(2, Row2, k, 7); assert EntriesOk(2, Row2, k, 6);
    assert EntriesOk(2, Row2, k, 5); assert EntriesOk(2, Row2, k, 4); assert EntriesOk(2, Row2, k, 3);
    assert EntriesOk(2, Row2, k, 2); assert EntriesOk(2, Row2, k, 1); assert EntriesOk(2, Row2, k, 0);
  }

  lemma Row3Ok()
    ensures forall c | c == 3 :: CaseRowOk(c, Row3)
  {
    var k := EdgeCount(Row3);
    assert EntriesOk(3, Row3, k, 14); assert EntriesOk(3, Row3, k, 13); assert EntriesOk(3, Row3, k, 12);
    assert EntriesOk(3, Row3, k, 11); assert EntriesOk(3, Row3, k, 10); assert EntriesOk(3, Row3, k, 9);
    assert EntriesOk(3, Row3, k, 8); assert EntriesOk(3, Row3, k, 7); assert EntriesOk(3, Row3, k, 6);
    assert EntriesOk(3, Row3, k, 5); assert EntriesOk(3, Row3, k, 4); assert EntriesOk(3, Row3, k, 3);
    assert EntriesOk(3, Row3, k, 2); assert EntriesOk(3, Row3, k, 1); assert EntriesOk(3, Row3, k, 0);
  }

  lemma Row4Ok()
    ensures forall c | c == 4 :: CaseRowOk(c, Row4)
  {
    var k := EdgeCount(Row4);
    assert EntriesOk(4, Row4, k, 14); assert EntriesOk(4, Row4, k, 13); assert EntriesOk(4, Row4, k, 12);
    assert EntriesOk(4, Row4, k, 11); assert EntriesOk(4, Row4, k, 10); assert EntriesOk(4, Row4, k, 9);
    assert EntriesOk(4, Row4, k, 8); assert EntriesOk(4, Row4, k, 7); assert EntriesOk(4, Row4, k, 6);
    assert EntriesOk(4, Row4, k, 5); assert EntriesOk(4, Row4, k, 4); assert EntriesOk(4, Row4, k, 3);
    assert EntriesOk(4, Row4, k, 2); assert EntriesOk(4, Row4, k, 1); assert EntriesOk(4, Row4, k, 0);
  }

  lemma Row5Ok()
    ensures forall c | c == 5 :: CaseRowOk(c, Row5)
  {
    var k := EdgeCount(Row5);
    assert EntriesOk(5, Row5, k, 14); assert EntriesOk(5, Row5, k, 13); assert EntriesOk(5, Row5, k, 12);
    assert EntriesOk(5, Row5, k, 11); assert EntriesOk(5, Row5, k, 10); assert EntriesOk(5, Row5, k, 9);
    assert EntriesOk(5, Row5, k, 8); assert EntriesOk(5, Row5, k, 7); assert EntriesOk(5, Row5, k, 6);
    assert EntriesOk(5, Row5, k, 5); assert EntriesOk(5, Row5, k, 4); assert EntriesOk(5, Row5, k, 3);
    assert EntriesOk(5, Row5, k, 2); assert EntriesOk(5, Row5, k, 1); assert EntriesOk(5, Row5, k, 0);
  }

  lemma Row6Ok()
    ensures forall c | c == 6 :: CaseRowOk(c, Row6)
  {
    var k := EdgeCount(Row6);
    assert EntriesOk(6, Row6, k, 14); assert EntriesOk(6, Row6, k, 13); assert EntriesOk(6, Row6, k, 12);
    assert EntriesOk(6, Row6, k, 11); assert EntriesOk(6, Row6, k, 10); assert EntriesOk(6, Row6, k, 9);
    assert EntriesOk(6, Row6, k, 8); assert EntriesOk(6, Row6, k, 7); assert EntriesOk(6, Row6, k, 6);
    assert EntriesOk(6, Row6, k, 5); assert EntriesOk(6, Row6, k, 4); assert EntriesOk(6, Row6, k, 3);
    assert EntriesOk(6, Row6, k, 2); assert EntriesOk(6, Row6, k, 1); assert EntriesOk(6, Row6, k, 0);
  }

  lemma Row7Ok()
    ensures forall c | c == 7 :: CaseRowOk(c, Row7)
  {
    var k := EdgeCount(Row7);
    assert EntriesOk(7, Row7, k, 14); assert EntriesOk(7, Row7, k, 13); assert EntriesOk(7, Row7, k, 12);
    assert EntriesOk(7, Row7, k, 11); assert EntriesOk(7, Row7, k, 10); assert EntriesOk(7, Row7, k, 9);
    assert EntriesOk(7, Row7, k, 8); assert EntriesOk(7, Row7, k, 7); assert EntriesOk(7, Row7, k, 6);
    assert EntriesOk(7, Row7, k, 5); assert EntriesOk(7, Row7, k, 4); assert EntriesOk(7, Row7, k, 3);
    assert EntriesOk(7, Row7, k, 2); assert EntriesOk(7, Row7, k, 1); assert EntriesOk(7, Row7, k, 0);
  }

  lemma Row8Ok()
    ensures forall c | c == 8 :: CaseRowOk(c, Row8)
  {
    var k := EdgeCount(Row8);
    assert EntriesOk(8, Row8, k, 14); assert EntriesOk(8, Row8, k, 13); assert EntriesOk(8, Row8, k, 12);
    assert EntriesOk(8, Row8, k, 11); assert EntriesOk(8, Row8, k, 10); assert EntriesOk(8, Row8, k, 9);
    assert EntriesOk(8, Row8, k, 8); assert EntriesOk(8, Row8, k, 7); assert EntriesOk(8, Row8, k, 6);
    assert EntriesOk(8, Row8, k, 5); assert EntriesOk(8, Row8, k, 4); assert EntriesOk(8, Row8, k, 3);
    assert EntriesOk(8, Row8, k, 2); assert EntriesOk(8, Row8, k, 1); assert EntriesOk(8, Row8, k, 0);
  }

  lemma Row9Ok()
    ensures forall c | c == 9 :: CaseRowOk(c, Row9)
  {
    var k := EdgeCount(Row9);
    assert EntriesOk(9, Row9, k, 14); assert EntriesOk(9, Row9, k, 13); assert EntriesOk(9, Row9, k, 12);
    assert EntriesOk(9, Row9, k, 11); assert EntriesOk(9, Row9, k, 10); assert EntriesOk(9, Row9, k, 9);
    assert EntriesOk(9, Row9, k, 8); assert EntriesOk(9, Row9, k, 7); assert EntriesOk(9, Row9, k, 6);
    assert EntriesOk(9, Row9, k, 5); assert EntriesOk(9, Row9, k, 4); assert EntriesOk(9, Row9, k, 3);
    assert EntriesOk(9, Row9, k, 2); assert EntriesOk(9, Row9, k, 1); assert EntriesOk(9, Row9, k, 0);
  }

  lemma Row10Ok()
    ensures forall c | c == 10 :: CaseRowOk(c, Row10)
  {
    var k := EdgeCount(Row10);
    assert EntriesOk(10, Row10, k, 14); assert EntriesOk(10, Row10, k, 13); assert EntriesOk(10, Row10, k, 12);
    assert EntriesOk(10, Row10, k, 11); assert EntriesOk(10, Row10, k, 10); assert EntriesOk(10, Row10, k, 9);
    assert EntriesOk(10, Row10, k, 8); assert EntriesOk(10, Row10, k, 7); assert EntriesOk(10, Row10, k, 6);
    assert EntriesOk(10, Row10, k, 5); assert EntriesOk(10, Row10, k, 4); assert EntriesOk(10, Row10, k, 3);
    assert EntriesOk(10, Row10, k, 2); assert EntriesOk(10, Row10, k, 1); assert EntriesOk(10, Row10, k, 0);
  }

  lemma Row11Ok()
    ensures forall c | c == 11 :: CaseRowOk(c, Row11)
  {
    var k := EdgeCount(Row11);
    assert EntriesOk(11, Row11, k, 14); assert EntriesOk(11, Row11, k, 13); assert EntriesOk(11, Row11, k, 12);
    assert EntriesOk(11, Row11, k, 11); assert EntriesOk(11, Row11, k, 10); assert EntriesOk(11, Row11, k, 9);
    assert EntriesOk(11, Row11, k, 8); assert EntriesOk(11, Row11, k, 7); assert EntriesOk(11, Row11, k, 6);
    assert EntriesOk(11, Row11, k, 5); assert EntriesOk(11, Row11, k, 4); assert EntriesOk(11, Row11, k, 3);
    assert EntriesOk(11, Row11, k, 2); assert EntriesOk(11, Row11, k, 1); assert EntriesOk(11, Row11, k, 0);
  }

  lemma Row12Ok()
    ensures forall c | c == 12 :: CaseRowOk(c, Row12)
  {
    var k := EdgeCount(Row12);
    assert EntriesOk(12, Row12, k, 14); assert EntriesOk(12, Row12, k, 13); assert EntriesOk(12, Row12, k, 12);
    assert EntriesOk(12, Row12, k, 11); assert EntriesOk(12, Row12, k, 10); assert EntriesOk(12, Row12, k, 9);
    assert EntriesOk(12, Row12, k, 8); assert EntriesOk(12, Row12, k, 7); assert EntriesOk(12, Row12, k, 6);
    assert EntriesOk(12, Row12, k, 5); assert EntriesOk(12, Row12, k, 4); assert EntriesOk(12, Row12, k, 3);
    assert EntriesOk(12, Row12, k, 2); assert EntriesOk(12, Row12, k, 1); assert EntriesOk(12, Row12, k, 0);
  }

  lemma Row13Ok()
    ensures forall c | c == 13 :: CaseRowOk(c, Row13)
  {
    var k := EdgeCount(Row13);
    assert EntriesOk(13, Row13, k, 14); assert EntriesOk(13, Row13, k, 13); assert EntriesOk(13, Row13, k, 12);
    assert EntriesOk(13, Row13, k, 11); assert EntriesOk(13, Row13, k, 10); assert EntriesOk(13, Row13, k, 9);
    assert EntriesOk(13, Row13, k, 8); assert EntriesOk(13, Row13, k, 7); assert EntriesOk(13, Row13, k, 6);
    assert EntriesOk(13, Row13, k, 5); assert EntriesOk(13, Row13, k, 4); assert EntriesOk(13, Row13, k, 3);
    assert EntriesOk(13, Row13, k, 2); assert EntriesOk(13, Row13, k, 1); assert EntriesOk(13, Row13, k, 0);
  }

  lemma Row14Ok()
    ensures forall c | c == 14 :: CaseRowOk(c, Row14)
  {
    var k := EdgeCount(Row14);
    assert EntriesOk(14, Row14, k, 14); assert EntriesOk(14, Row14, k, 13); assert EntriesOk(14, Row14, k, 12);
    assert EntriesOk(14, Row14, k, 11); assert EntriesOk(14, Row14, k, 10); assert EntriesOk(14, Row14, k, 9);
    assert EntriesOk(14, Row14, k, 8); assert EntriesOk(14, Row14, k, 7); assert EntriesOk(14, Row14, k, 6);
    assert EntriesOk(14, Row14, k, 5); assert EntriesOk(14, Row14, k, 4); assert EntriesOk(14, Row14, k, 3);
    assert EntriesOk(14, Row14, k, 2); assert EntriesOk(14, Row14, k, 1); assert EntriesOk(14, Row14, k, 0);
  }

  lemma Row15Ok()
    ensures forall c | c == 15 :: CaseRowOk(c, Row15)
  {
    var k := EdgeCount(Row15);
    assert EntriesOk(15, Row15, k, 14); assert EntriesOk(15, Row15, k, 13); assert EntriesOk(15, Row15, k, 12);
    assert EntriesOk(15, Row15, k, 11); assert EntriesOk(15, Row15, k, 10); assert EntriesOk(15, Row15, k, 9);
    assert EntriesOk(15, Row15, k, 8); assert EntriesOk(15, Row15, k, 7); assert EntriesOk(15, Row15, k, 6);
    assert EntriesOk(15, Row15, k, 5); assert EntriesOk(15, Row15, k, 4); assert EntriesOk(15, Row15, k, 3);
    assert EntriesOk(15, Row15, k, 2); assert EntriesOk(15, Row15, k, 1); assert EntriesOk(15, Row15, k, 0);
  }

  lemma Row16Ok()
    ensures forall c | c == 16 :: CaseRowOk(c, Row16)
  {
    var k := EdgeCount(Row16);
    assert EntriesOk(16, Row16, k, 14); assert EntriesOk(16, Row16, k, 13); assert EntriesOk(16, Row16, k, 12);
    assert EntriesOk(16, Row16, k, 11); assert EntriesOk(16, Row16, k, 10); assert EntriesOk(16, Row16, k, 9);
    assert EntriesOk(16, Row16, k, 8); assert EntriesOk(16, Row16, k, 7); assert EntriesOk(16, Row16, k, 6);
    assert EntriesOk(16, Row16, k, 5); assert EntriesOk(16, Row16, k, 4); assert EntriesOk(16, Row16, k, 3);
    assert EntriesOk(16, Row16, k, 2); assert EntriesOk(16, Row16, k, 1); assert EntriesOk(16, Row16, k, 0);
  }

  lemma Row17Ok()
    ensures forall c | c == 17 :: CaseRowOk(c, Row17)
  {
    var k := EdgeCount(Row17);
    assert EntriesOk(17, Row17, k, 14); assert EntriesOk(17, Row17, k, 13); assert EntriesOk(17, Row17, k, 12);
    assert EntriesOk(17, Row17, k, 11); assert EntriesOk(17, Row17, k, 10); assert EntriesOk(17, Row17, k, 9);
    assert EntriesOk(17, Row17, k, 8); assert EntriesOk(17, Row17, k, 7); assert EntriesOk(17, Row17, k, 6);
    assert EntriesOk(17, Row17, k, 5); assert EntriesOk(17, Row17, k, 4); assert EntriesOk(17, Row17, k, 3);
    assert EntriesOk(17, Row17, k, 2); assert EntriesOk(17, Row17, k, 1); assert EntriesOk(17, Row17, k, 0);
  }

  lemma Row18Ok()
    ensures forall c | c == 18 :: CaseRowOk(c, Row18)
  {
    var k := EdgeCount(Row18);
    assert EntriesOk(18, Row18, k, 14); assert EntriesOk(18, Row18, k, 13); assert EntriesOk(18, Row18, k, 12);
    assert EntriesOk(18, Row18, k, 11); assert EntriesOk(18, Row18, k, 10); assert EntriesOk(18, Row18, k, 9);
    assert EntriesOk(18, Row18, k, 8); assert EntriesOk(18, Row18, k, 7); assert EntriesOk(18, Row18, k, 6);
    assert EntriesOk(18, Row18, k, 5); assert EntriesOk(18, Row18, k, 4); assert EntriesOk(18, Row18, k, 3);
    assert EntriesOk(18, Row18, k, 2); assert EntriesOk(18, Row18, k, 1); assert EntriesOk(18, Row18, k, 0);
  }

  lemma Row19Ok()
    ensures forall c | c == 19 :: CaseRowOk(c, Row19)
  {
    var k := EdgeCount(Row19);
    assert EntriesOk(19, Row19, k, 14); assert EntriesOk(19, Row19, k, 13); assert EntriesOk(19, Row19, k, 12);
    assert EntriesOk(19, Row19, k, 11); assert EntriesOk(19, Row19, k, 10); assert EntriesOk(19, Row19, k, 9);
    assert EntriesOk(19, Row19, k, 8); assert EntriesOk(19, Row19, k, 7); assert EntriesOk(19, Row19, k, 6);
    assert EntriesOk(19, Row19, k, 5); assert EntriesOk(19, Row19, k, 4); assert EntriesOk(19, Row19, k, 3);
    assert EntriesOk(19, Row19, k, 2); assert EntriesOk(19, Row19, k, 1); assert EntriesOk(19, Row19, k, 0);
  }

  lemma Row20Ok()
    ensures forall c | c == 20 :: CaseRowOk(c, Row20)
  {
    var k := EdgeCount(Row20);
    assert EntriesOk(20, Row20, k, 14); assert EntriesOk(20, Row20, k, 13); assert EntriesOk(20, Row20, k, 12);
    assert EntriesOk(20, Row20, k, 11); assert EntriesOk(20, Row20, k, 10); assert EntriesOk(20, Row20, k, 9);
    assert EntriesOk(20, Row20, k, 8); assert EntriesOk(20, Row20, k, 7); assert EntriesOk(20, Row20, k, 6);
    assert EntriesOk(20, Row20, k, 5); assert EntriesOk(20, Row20, k, 4); assert EntriesOk(20, Row20, k, 3);
    assert EntriesOk(20, Row20, k, 2); assert EntriesOk(20, Row20, k, 1); assert EntriesOk(20, Row20, k, 0);
  }

  lemma Row21Ok()
    ensures forall c | c == 21 :: CaseRowOk(c, Row21)
  {
    var k := EdgeCount(Row21);
    assert EntriesOk(21, Row21, k, 14); assert EntriesOk(21, Row21, k, 13); assert EntriesOk(21, Row21, k, 12);
    assert EntriesOk(21, Row21, k, 11); assert EntriesOk(21, Row21, k, 10); assert EntriesOk(21, Row21, k, 9);
    assert EntriesOk(21, Row21, k, 8); assert EntriesOk(21, Row21, k, 7); assert EntriesOk(21, Row21, k, 6);
    assert EntriesOk(21, Row21, k, 5); assert EntriesOk(21, Row21, k, 4); assert EntriesOk(21, Row21, k, 3);
    assert EntriesOk(21, Row21, k, 2); assert EntriesOk(21, Row21, k, 1); assert EntriesOk(21, Row21, k, 0);
  }

  lemma Row22Ok()
    ensures forall c | c == 22 :: CaseRowOk(c, Row22)
  {
    var k := EdgeCount(Row22);
    assert EntriesOk(22, Row22, k, 14); assert EntriesOk(22, Row22, k, 13); assert EntriesOk(22, Row22, k, 12);
    assert EntriesOk(22, Row22, k, 11); assert EntriesOk(22, Row22, k, 10); assert EntriesOk(22, Row22, k, 9);
    assert EntriesOk(22, Row22, k, 8); assert EntriesOk(22, Row22, k, 7); assert EntriesOk(22, Row22, k, 6);
    assert EntriesOk(22, Row22, k, 5); assert EntriesOk(22, Row22, k, 4); assert EntriesOk(22, Row22, k, 3);
    assert EntriesOk(22, Row22, k, 2); assert EntriesOk(22, Row22, k, 1); assert EntriesOk(22, Row22, k, 0);
  }

  lemma Row23Ok()
    ensures forall c | c == 23 :: CaseRowOk(c, Row23)
  {
    var k := EdgeCount(Row23);
    assert EntriesOk(23, Row23, k, 14); assert EntriesOk(23, Row23, k, 13); assert EntriesOk(23, Row23, k, 12);
    assert EntriesOk(23, Row23, k, 11); assert EntriesOk(23, Row23, k, 10); assert EntriesOk(23, Row23, k, 9);
    assert EntriesOk(23, Row23, k, 8); assert EntriesOk(23, Row23, k, 7); assert EntriesOk(23, Row23, k, 6);
    assert EntriesOk(23, Row23, k, 5); assert EntriesOk(23, Row23, k, 4); assert EntriesOk(23, Row23, k, 3);
    assert EntriesOk(23, Row23, k, 2); assert EntriesOk(23, Row23, k, 1); assert EntriesOk(23, Row23, k, 0);
  }

  lemma Row24Ok()
    ensures forall c | c == 24 :: CaseRowOk(c, Row24)
  {
    var k := EdgeCount(Row24);
    assert EntriesOk(24, Row24, k, 14); assert EntriesOk(24, Row24, k, 13); assert EntriesOk(24, Row24, k, 12);
    assert EntriesOk(24, Row24, k, 11); assert EntriesOk(24, Row24, k, 10); assert EntriesOk(24, Row24, k, 9);
    assert EntriesOk(24, Row24, k, 8); assert EntriesOk(24, Row24, k, 7); assert EntriesOk(24, Row24, k, 6);
    assert EntriesOk(24, Row24, k, 5); assert EntriesOk(24, Row24, k, 4); assert EntriesOk(24, Row24, k, 3);
    assert EntriesOk(24, Row24, k, 2); assert EntriesOk(24, Row24, k, 1); assert EntriesOk(24, Row24, k, 0);
  }

  lemma Row25Ok()
    ensures forall c | c == 25 :: CaseRowOk(c, Row25)
  {
    var k := EdgeCount(Row25);
    assert EntriesOk(25, Row25, k, 14); assert EntriesOk(25, Row25, k, 13); assert EntriesOk(25, Row25, k, 12);
    assert EntriesOk(25, Row25, k, 11); assert EntriesOk(25, Row25, k, 10); assert EntriesOk(25, Row25, k, 9);
    assert EntriesOk(25, Row25, k, 8); assert EntriesOk(25, Row25, k, 7); assert EntriesOk(25, Row25, k, 6);
    assert EntriesOk(25, Row25, k, 5); assert EntriesOk(25, Row25, k, 4); assert EntriesOk(25, Row25, k, 3);
    assert EntriesOk(25, Row25, k, 2); assert EntriesOk(25, Row25, k, 1); assert EntriesOk(25, Row25, k, 0);
  }

  lemma Row26Ok()
    ensures forall c | c == 26 :: CaseRowOk(c, Row26)
  {
    var k := EdgeCount(Row26);
    assert EntriesOk(26, Row26, k, 14); assert EntriesOk(26, Row26, k, 13); assert EntriesOk(26, Row26, k, 12);
    assert EntriesOk(26, Row26, k, 11); assert EntriesOk(26, Row26, k, 10); assert EntriesOk(26, Row26, k, 9);
    assert EntriesOk(26, Row26, k, 8); assert EntriesOk(26, Row26, k, 7); assert EntriesOk(26, Row26, k, 6);
    assert EntriesOk(26, Row26, k, 5); assert EntriesOk(26, Row26, k, 4); assert EntriesOk(26, Row26, k, 3);
    assert EntriesOk(26, Row26, k, 2); assert EntriesOk(26, Row26, k, 1); assert EntriesOk(26, Row26, k, 0);
  }

  lemma Row27Ok()
    ensures forall c | c == 27 :: CaseRowOk(c, Row27)
  {
    var k := EdgeCount(Row27);
    assert EntriesOk(27, Row27, k, 14); assert EntriesOk(27, Row27, k, 13); assert EntriesOk(27, Row27, k, 12);
    assert EntriesOk(27, Row27, k, 11); assert EntriesOk(27, Row27, k, 10); assert EntriesOk(27, Row27, k, 9);
    assert EntriesOk(27, Row27, k, 8); assert EntriesOk(27, Row27, k, 7); assert EntriesOk(27, Row27, k, 6);
    assert EntriesOk(27, Row27, k, 5); assert EntriesOk(27, Row27, k, 4); assert EntriesOk(27, Row27, k, 3);
    assert EntriesOk(27, Row27, k, 2); assert EntriesOk(27, Row27, k, 1); assert EntriesOk(27, Row27, k, 0);
  }

  lemma Row28Ok()
    ensures forall c | c == 28 :: CaseRowOk(c, Row28)
  {
    var k := EdgeCount(Row28);
    assert EntriesOk(28, Row28, k, 14); assert EntriesOk(28, Row28, k, 13); assert EntriesOk(28, Row28, k, 12);
    assert EntriesOk(28, Row28, k, 11); assert EntriesOk(28, Row28, k, 10); assert EntriesOk(28, Row28, k, 9);
    assert EntriesOk(28, Row28, k, 8); assert EntriesOk(28, Row28, k, 7); assert EntriesOk(28, Row28, k, 6);
    assert EntriesOk(28, Row28, k, 5); assert EntriesOk(28, Row28, k, 4); assert EntriesOk(28, Row28, k, 3);
    assert EntriesOk(28, Row28, k, 2); assert EntriesOk(28, Row28, k, 1); assert EntriesOk(28, Row28, k, 0);
  }

  lemma Row29Ok()
    ensures forall c | c == 29 :: CaseRowOk(c, Row29)
  {
    var k := EdgeCount(Row29);
    assert EntriesOk(29, Row29, k, 14); assert EntriesOk(29, Row29, k, 13); assert EntriesOk(29, Row29, k, 12);
    assert EntriesOk(29, Row29, k, 11); assert EntriesOk(29, Row29, k, 10); assert EntriesOk(29, Row29, k, 9);
    assert EntriesOk(29, Row29, k, 8); assert EntriesOk(29, Row29, k, 7); assert EntriesOk(29, Row29, k, 6);
    assert EntriesOk(29, Row29, k, 5); assert EntriesOk(29, Row29, k, 4); assert EntriesOk(29, Row29, k, 3);
    assert EntriesOk(29, Row29, k, 2); assert EntriesOk(29, Row29, k, 1); assert EntriesOk(29, Row29, k, 0);
  }

  lemma Row30Ok()
    ensures forall c | c == 30 :: CaseRowOk(c, Row30)
  {
    var k := EdgeCount(Row30);
    assert EntriesOk(30, Row30, k, 14); assert EntriesOk(30, Row30, k, 13); assert EntriesOk(30, Row30, k, 12);
    assert EntriesOk(30, Row30, k, 11); assert EntriesOk(30, Row30, k, 10); assert EntriesOk(30, Row30, k, 9);
    assert EntriesOk(30, Row30, k, 8); assert EntriesOk(30, Row30, k, 7); assert EntriesOk(30, Row30, k, 6);
    assert EntriesOk(30, Row30, k, 5); assert EntriesOk(30, Row30, k, 4); assert EntriesOk(30, Row30, k, 3);
    assert EntriesOk(30, Row30, k, 2); assert EntriesOk(30, Row30, k, 1); assert EntriesOk(30, Row30, k, 0);
  }

  lemma Row31Ok()
    ensures forall c | c == 31 :: CaseRowOk(c, Row31)
  {
    var k := EdgeCount(Row31);
    assert EntriesOk(31, Row31, k, 14); assert EntriesOk(31, Row31, k, 13); assert EntriesOk(31, Row31, k, 12);
    assert EntriesOk(31, Row31, k, 11); assert EntriesOk(31, Row31, k, 10); assert EntriesOk(31, Row31, k, 9);
    assert EntriesOk(31, Row31, k, 8); assert EntriesOk(31, Row31, k, 7); assert EntriesOk(31, Row31, k, 6);
    assert EntriesOk(31, Row31, k, 5); assert EntriesOk(31, Row31, k, 4); assert EntriesOk(31, Row31, k, 3);
    assert EntriesOk(31, Row31, k, 2); assert EntriesOk(31, Row31, k, 1); assert EntriesOk(31, Row31, k, 0);
  }

  lemma Row32Ok()
    ensures forall c | c == 32 :: CaseRowOk(c, Row32)
  {
    var k := EdgeCount(Row32);
    assert EntriesOk(32, Row32, k, 14); assert EntriesOk(32, Row32, k, 13); assert EntriesOk(32, Row32, k, 12);
    assert EntriesOk(32, Row32, k, 11); assert EntriesOk(32, Row32, k, 10); assert EntriesOk(32, Row32, k, 9);
    assert EntriesOk(32, Row32, k, 8); assert EntriesOk(32, Row32, k, 7); assert EntriesOk(32, Row32, k, 6);
    assert EntriesOk(32, Row32, k, 5); assert EntriesOk(32, Row32, k, 4); assert EntriesOk(32, Row32, k, 3);
    assert EntriesOk(32, Row32, k, 2); assert EntriesOk(32, Row32, k, 1); assert EntriesOk(32, Row32, k, 0);
  }

  lemma Row33Ok()
    ensures forall c | c == 33 :: CaseRowOk(c, Row33)
  {
    var k := EdgeCount(Row33);
    assert EntriesOk(33, Row33, k, 14); assert EntriesOk(33, Row33, k, 13); assert EntriesOk(33, Row33, k, 12);
    assert EntriesOk(33, Row33, k, 11); assert EntriesOk(33, Row33, k, 10); assert EntriesOk(33, Row33, k, 9);
    assert EntriesOk(33, Row33, k, 8); assert EntriesOk(33, Row33, k, 7); assert EntriesOk(33, Row33, k, 6);
    assert EntriesOk(33, Row33, k, 5); assert EntriesOk(33, Row33, k, 4); assert EntriesOk(33, Row33, k, 3);
    assert EntriesOk(33, Row33, k, 2); assert EntriesOk(33, Row33, k, 1); assert EntriesOk(33, Row33, k, 0);
  }

  lemma Row34Ok()
    ensures forall c | c == 34 :: CaseRowOk(c, Row34)
  {
    var k := EdgeCount(Row34);
    assert EntriesOk(34, Row34, k, 14); assert EntriesOk(34, Row34, k, 13); assert EntriesOk(34, Row34, k, 12);
    assert EntriesOk(34, Row34, k, 11); assert EntriesOk(34, Row34, k, 10); assert EntriesOk(34, Row34, k, 9);
    assert EntriesOk(34, Row34, k, 8); assert EntriesOk(34, Row34, k, 7); assert EntriesOk(34, Row34, k, 6);
    assert EntriesOk(34, Row34, k, 5); assert EntriesOk(34, Row34, k, 4); assert EntriesOk(34, Row34, k, 3);
    assert EntriesOk(34, Row34, k, 2); assert EntriesOk(34, Row34, k, 1); assert EntriesOk(34, Row34, k, 0);
  }

  lemma Row35Ok()
    ensures forall c | c == 35 :: CaseRowOk(c, Row35)
  {
    var k := EdgeCount(Row35);
    assert EntriesOk(35, Row35, k, 14); assert EntriesOk(35, Row35, k, 13); assert EntriesOk(35, Row35, k, 12);
    assert EntriesOk(35, Row35, k, 11); assert EntriesOk(35, Row35, k, 10); assert EntriesOk(35, Row35, k, 9);
    assert EntriesOk(35, Row35, k, 8); assert EntriesOk(35, Row35, k, 7); assert EntriesOk(35, Row35, k, 6);
    assert EntriesOk(35, Row35, k, 5); assert EntriesOk(35, Row35, k, 4); assert EntriesOk(35, Row35, k, 3);
    assert EntriesOk(35, Row35, k, 2); assert EntriesOk(35, Row35, k, 1); assert EntriesOk(35, Row35, k, 0);
  }

  lemma Row36Ok()
    ensures forall c | c == 36 :: CaseRowOk(c, Row36)
  {
    var k := EdgeCount(Row36);
    assert EntriesOk(36, Row36, k, 14); assert EntriesOk(36, Row36, k, 13); assert EntriesOk(36, Row36, k, 12);
    assert EntriesOk(36, Row36, k, 11); assert EntriesOk(36, Row36, k, 10); assert EntriesOk(36, Row36, k, 9);
    assert EntriesOk(36, Row36, k, 8); assert EntriesOk(36, Row36, k, 7); assert EntriesOk(36, Row36, k, 6);
    assert EntriesOk(36, Row36, k, 5); assert EntriesOk(36, Row36, k, 4); assert EntriesOk(36, Row36, k, 3);
    assert EntriesOk(36, Row36, k, 2); assert EntriesOk(36, Row36, k, 1); assert EntriesOk(36, Row36, k, 0);
  }

  lemma Row37Ok()
    ensures forall c | c == 37 :: CaseRowOk(c, Row37)
  {
    var k := EdgeCount(Row37);
    assert EntriesOk(37, Row37, k, 14); assert EntriesOk(37, Row37, k, 13); assert EntriesOk(37, Row37, k, 12);
    assert EntriesOk(37, Row37, k, 11); assert EntriesOk(37, Row37, k, 10); assert EntriesOk(37, Row37, k, 9);
    assert EntriesOk(37, Row37, k, 8); assert EntriesOk(37, Row37, k, 7); assert EntriesOk(37, Row37, k, 6);
    assert EntriesOk(37, Row37, k, 5); assert EntriesOk(37, Row37, k, 4); assert EntriesOk(37, Row37, k, 3);
    assert EntriesOk(37, Row37, k, 2); assert EntriesOk(37, Row37, k, 1); assert EntriesOk(37, Row37, k, 0);
  }

  lemma Row38Ok()
    ensures forall c | c == 38 :: CaseRowOk(c, Row38)
  {
    var k := EdgeCount(Row38);
    assert EntriesOk(38, Row38, k, 14); assert EntriesOk(38, Row38, k, 13); assert EntriesOk(38, Row38, k, 12);
    assert EntriesOk(38, Row38, k, 11); assert EntriesOk(38, Row38, k, 10); assert EntriesOk(38, Row38, k, 9);
    assert EntriesOk(38, Row38, k, 8); assert EntriesOk(38, Row38, k, 7); assert EntriesOk(38, Row38, k, 6);
    assert EntriesOk(38, Row38, k, 5); assert EntriesOk(38, Row38, k, 4); assert EntriesOk(38, Row38, k, 3);
    assert EntriesOk(38, Row38, k, 2); assert EntriesOk(38, Row38, k, 1); assert EntriesOk(38, Row38, k, 0);
  }

  lemma Row39Ok()
    ensures forall c | c == 39 :: CaseRowOk(c, Row39)
  {
    var k := EdgeCount(Row39);
    assert EntriesOk(39, Row39, k, 14); assert EntriesOk(39, Row39, k, 13); assert EntriesOk(39, Row39, k, 12);
    assert EntriesOk(39, Row39, k, 11); assert EntriesOk(39, Row39, k, 10); assert EntriesOk(39, Row39, k, 9);
    assert EntriesOk(39, Row39, k, 8); assert EntriesOk(39, Row39, k, 7); assert EntriesOk(39, Row39, k, 6);
    assert EntriesOk(39, Row39, k, 5); assert EntriesOk(39, Row39, k, 4); assert EntriesOk(39, Row39, k, 3);
    assert EntriesOk(39, Row39, k, 2); assert EntriesOk(39, Row39, k, 1); assert EntriesOk(39, Row39, k, 0);
  }

  lemma Row40Ok()
    ensures forall c | c == 40 :: CaseRowOk(c, Row40)
  {
    var k := EdgeCount(Row40);
    assert EntriesOk(40, Row40, k, 14); assert EntriesOk(40, Row40, k, 13); assert EntriesOk(40, Row40, k, 12);
    assert EntriesOk(40, Row40, k, 11); assert EntriesOk(40, Row40, k, 10); assert EntriesOk(40, Row40, k, 9);
    assert EntriesOk(40, Row40, k, 8); assert EntriesOk(40, Row40, k, 7); assert EntriesOk(40, Row40, k, 6);
    assert EntriesOk(40, Row40, k, 5); assert EntriesOk(40, Row40, k, 4); assert EntriesOk(40, Row40, k, 3);
    assert EntriesOk(40, Row40, k, 2); assert EntriesOk(40, Row40, k, 1); assert EntriesOk(40, Row40, k, 0);
  }

  lemma Row41Ok()
    ensures forall c | c == 41 :: CaseRowOk(c, Row41)
  {
    var k := EdgeCount(Row41);
    assert EntriesOk(41, Row41, k, 14); assert EntriesOk(41, Row41, k, 13); assert EntriesOk(41, Row41, k, 12);
    assert EntriesOk(41, Row41, k, 11); assert EntriesOk(41, Row41, k, 10); assert EntriesOk(41, Row41, k, 9);
    assert EntriesOk(41, Row41, k, 8); assert EntriesOk(41, Row41, k, 7); assert EntriesOk(41, Row41, k, 6);
    assert EntriesOk(41, Row41, k, 5); assert EntriesOk(41, Row41, k, 4); assert EntriesOk(41, Row41, k, 3);
    assert EntriesOk(41, Row41, k, 2); assert EntriesOk(41, Row41, k, 1); assert EntriesOk(41, Row41, k, 0);
  }

  lemma Row42Ok()
    ensures forall c | c == 42 :: CaseRowOk(c, Row42)
  {
    var k := EdgeCount(Row42);
    assert EntriesOk(42, Row42, k, 14); assert EntriesOk(42, Row42, k, 13); assert EntriesOk(42, Row42, k, 12);
    assert EntriesOk(42, Row42, k, 11); assert EntriesOk(42, Row42, k, 10); assert EntriesOk(42, Row42, k, 9);
    assert EntriesOk(42, Row42, k, 8); assert EntriesOk(42, Row42, k, 7); assert EntriesOk(42, Row42, k, 6);
    assert EntriesOk(42, Row42, k, 5); assert EntriesOk(42, Row42, k, 4); assert EntriesOk(42, Row42, k, 3);
    assert EntriesOk(42, Row42, k, 2); assert EntriesOk(42, Row42, k, 1); assert EntriesOk(42, Row42, k, 0);
  }

  lemma Row43Ok()
    ensures forall c | c == 43 :: CaseRowOk(c, Row43)
  {
    var k := EdgeCount(Row43);
    assert EntriesOk(43, Row43, k, 14); assert EntriesOk(43, Row43, k, 13); assert EntriesOk(43, Row43, k, 12);
    assert EntriesOk(43, Row43, k, 11); assert EntriesOk(43, Row43, k, 10); assert EntriesOk(43, Row43, k, 9);
    assert EntriesOk(43, Row43, k, 8); assert EntriesOk(43, Row43, k, 7); assert EntriesOk(43, Row43, k, 6);
    assert EntriesOk(43, Row43, k, 5); assert EntriesOk(43, Row43, k, 4); assert EntriesOk(43, Row43, k, 3);
    assert EntriesOk(43, Row43, k, 2); assert EntriesOk(43, Row43, k, 1); assert EntriesOk(43, Row43, k, 0);
  }

  lemma Row44Ok()
    ensures forall c | c == 44 :: CaseRowOk(c, Row44)
  {
    var k := EdgeCount(Row44);
    assert EntriesOk(44, Row44, k, 14); assert EntriesOk(44, Row44, k, 13); assert EntriesOk(44, Row44, k, 12);
    assert EntriesOk(44, Row44, k, 11); assert EntriesOk(44, Row44, k, 10); assert EntriesOk(44, Row44, k, 9);
    assert EntriesOk(44, Row44, k, 8); assert EntriesOk(44, Row44, k, 7); assert EntriesOk(44, Row44, k, 6);
    assert EntriesOk(44, Row44, k, 5); assert EntriesOk(44, Row44, k, 4); assert EntriesOk(44, Row44, k, 3);
    assert EntriesOk(44, Row44, k, 2); assert EntriesOk(44, Row44, k, 1); assert EntriesOk(44, Row44, k, 0);
  }

  lemma Row45Ok()
    ensures forall c | c == 45 :: CaseRowOk(c, Row45)
  {
    var k := EdgeCount(Row45);
    assert EntriesOk(45, Row45, k, 14); assert EntriesOk(45, Row45, k, 13); assert EntriesOk(45, Row45, k, 12);
    assert EntriesOk(45, Row45, k, 11); assert EntriesOk(45, Row45, k, 10); assert EntriesOk(45, Row45, k, 9);
    assert EntriesOk(45, Row45, k, 8); assert EntriesOk(45, Row45, k, 7); assert EntriesOk(45, Row45, k, 6);
    assert EntriesOk(45, Row45, k, 5); assert EntriesOk(45, Row45, k, 4); assert EntriesOk(45, Row45, k, 3);
    assert EntriesOk(45, Row45, k, 2); assert EntriesOk(45, Row45, k, 1); assert EntriesOk(45, Row45, k, 0);
  }

  lemma Row46Ok()
    ensures forall c | c == 46 :: CaseRowOk(c, Row46)
  {
    var k := EdgeCount(Row46);
    assert EntriesOk(46, Row46, k, 14); assert EntriesOk(46, Row46, k, 13); assert EntriesOk(46, Row46, k, 12);
    assert EntriesOk(46, Row46, k, 11); assert EntriesOk(46, Row46, k, 10); assert EntriesOk(46, Row46, k, 9);
    assert EntriesOk(46, Row46, k, 8); assert EntriesOk(46, Row46, k, 7); assert EntriesOk(46, Row46, k, 6);
    assert EntriesOk(46, Row46, k, 5); assert EntriesOk(46, Row46, k, 4); assert EntriesOk(46, Row46, k, 3);
    assert EntriesOk(46, Row46, k, 2); assert EntriesOk(46, Row46, k, 1); assert EntriesOk(46, Row46, k, 0);
  }

  lemma Row47Ok()
    ensures forall c | c == 47 :: CaseRowOk(c, Row47)
  {
    var k := EdgeCount(Row47);
    assert EntriesOk(47, Row47, k, 14); assert EntriesOk(47, Row47, k, 13); assert EntriesOk(47, Row47, k, 12);
    assert EntriesOk(47, Row47, k, 11); assert EntriesOk(47, Row47, k, 10); assert EntriesOk(47, Row47, k, 9);
    assert EntriesOk(47, Row47, k, 8); assert EntriesOk(47, Row47, k, 7); assert EntriesOk(47, Row47, k, 6);
    assert EntriesOk(47, Row47, k, 5); assert EntriesOk(47, Row47, k, 4); assert EntriesOk(47, Row47, k, 3);
    assert EntriesOk(47, Row47, k, 2); assert EntriesOk(47, Row47, k, 1); assert EntriesOk(47, Row47, k, 0);
  }

  lemma Row48Ok()
    ensures forall c | c == 48 :: CaseRowOk(c, Row48)
  {
    var k := EdgeCount(Row48);
    assert EntriesOk(48, Row48, k, 14); assert EntriesOk(48, Row48, k, 13); assert EntriesOk(48, Row48, k, 12);
    assert EntriesOk(48, Row48, k, 11); assert EntriesOk(48, Row48, k, 10); assert EntriesOk(48, Row48, k, 9);
    assert EntriesOk(48, Row48, k, 8); assert EntriesOk(48, Row48, k, 7); assert EntriesOk(48, Row48, k, 6);
    assert EntriesOk(48, Row48, k, 5); assert EntriesOk(48, Row48, k, 4); assert EntriesOk(48, Row48, k, 3);
    assert EntriesOk(48, Row48, k, 2); assert EntriesOk(48, Row48, k, 1); assert EntriesOk(48, Row48, k, 0);
  }

  lemma Row49Ok()
    ensures forall c | c == 49 :: CaseRowOk(c, Row49)
  {
    var k := EdgeCount(Row49);
    assert EntriesOk(49, Row49, k, 14); assert EntriesOk(49, Row49, k, 13); assert EntriesOk(49, Row49, k, 12);
    assert EntriesOk(49, Row49, k, 11); assert EntriesOk(49, Row49, k, 10); assert EntriesOk(49, Row49, k, 9);
    assert EntriesOk(49, Row49, k, 8); assert EntriesOk(49, Row49, k, 7); assert EntriesOk(49, Row49, k, 6);
    assert EntriesOk(49, Row49, k, 5); assert EntriesOk(49, Row49, k, 4); assert EntriesOk(49, Row49, k, 3);
    assert EntriesOk(49, Row49, k, 2); assert EntriesOk(49, Row49, k, 1); assert EntriesOk(49, Row49, k, 0);
  }

  lemma Row50Ok()
    ensures forall c | c == 50 :: CaseRowOk(c, Row50)
  {
    var k := EdgeCount(Row50);
    assert EntriesOk(50, Row50, k, 14); assert EntriesOk(50, Row50, k, 13); assert EntriesOk(50, Row50, k, 12);
    assert EntriesOk(50, Row50, k, 11); assert EntriesOk(50, Row50, k, 10); assert EntriesOk(50, Row50, k, 9);
    assert EntriesOk(50, Row50, k, 8); assert EntriesOk(50, Row50, k, 7); assert EntriesOk(50, Row50, k, 6);
    assert EntriesOk(50, Row50, k, 5); assert EntriesOk(50, Row50, k, 4); assert EntriesOk(50, Row50, k, 3);
    assert EntriesOk(50, Row50, k, 2); assert EntriesOk(50, Row50, k, 1); assert EntriesOk(50, Row50, k, 0);
  }

  lemma Row51Ok()
    ensures forall c | c == 51 :: CaseRowOk(c, Row51)
  {
    var k := EdgeCount(Row51);
    assert EntriesOk(51, Row51, k, 14); assert EntriesOk(51, Row51, k, 13); assert EntriesOk(51, Row51, k, 12);
    assert EntriesOk(51, Row51, k, 11); assert EntriesOk(51, Row51, k, 10); assert EntriesOk(51, Row51, k, 9);
    assert EntriesOk(51, Row51, k, 8); assert EntriesOk(51, Row51, k, 7); assert EntriesOk(51, Row51, k, 6);
    assert EntriesOk(51, Row51, k, 5); assert EntriesOk(51, Row51, k, 4); assert EntriesOk(51, Row51, k, 3);
    assert EntriesOk(51, Row51, k, 2); assert EntriesOk(51, Row51, k, 1); assert EntriesOk(51, Row51, k, 0);
  }

  lemma Row52Ok()
    ensures forall c | c == 52 :: CaseRowOk(c, Row52)
  {
    var k := EdgeCount(Row52);
    assert EntriesOk(52, Row52, k, 14); assert EntriesOk(52, Row52, k, 13); assert EntriesOk(52, Row52, k, 12);
    assert EntriesOk(52, Row52, k, 11); assert EntriesOk(52, Row52, k, 10); assert EntriesOk(52, Row52, k, 9);
    assert EntriesOk(52, Row52, k, 8); assert EntriesOk(52, Row52, k, 7); assert EntriesOk(52, Row52, k, 6);
    assert EntriesOk(52, Row52, k, 5); assert EntriesOk(52, Row52, k, 4); assert EntriesOk(52, Row52, k, 3);
    assert EntriesOk(52, Row52, k, 2); assert EntriesOk(52, Row52, k, 1); assert EntriesOk(52, Row52, k, 0);
  }

  lemma Row53Ok()
    ensures forall c | c == 53 :: CaseRowOk(c, Row53)
  {
    var k := EdgeCount(Row53);
    assert EntriesOk(53, Row53, k, 14); assert EntriesOk(53, Row53, k, 13); assert EntriesOk(53, Row53, k, 12);
    assert EntriesOk(53, Row53, k, 11); assert EntriesOk(53, Row53, k, 10); assert EntriesOk(53, Row53, k, 9);
    assert EntriesOk(53, Row53, k, 8); assert EntriesOk(53, Row53, k, 7); assert EntriesOk(53, Row53, k, 6);
    assert EntriesOk(53, Row53, k, 5); assert EntriesOk(53, Row53, k, 4); assert EntriesOk(53, Row53, k, 3);
    assert EntriesOk(53, Row53, k, 2); assert EntriesOk(53, Row53, k, 1); assert EntriesOk(53, Row53, k, 0);
  }

  lemma Row54Ok()
    ensures forall c | c == 54 :: CaseRowOk(c, Row54)
  {
    var k := EdgeCount(Row54);
    assert EntriesOk(54, Row54, k, 14); assert EntriesOk(54, Row54, k, 13); assert EntriesOk(54, Row54, k, 12);
    assert EntriesOk(54, Row54, k, 11); assert EntriesOk(54, Row54, k, 10); assert EntriesOk(54, Row54, k, 9);
    assert EntriesOk(54, Row54, k, 8); assert EntriesOk(54, Row54, k, 7); assert EntriesOk(54, Row54, k, 6);
    assert EntriesOk(54, Row54, k, 5); assert EntriesOk(54, Row54, k, 4); assert EntriesOk(54, Row54, k, 3);
    assert EntriesOk(54, Row54, k, 2); assert EntriesOk(54, Row54, k, 1); assert EntriesOk(54, Row54, k, 0);
  }

  lemma Row55Ok()
    ensures forall c | c == 55 :: CaseRowOk(c, Row55)
  {
    var k := EdgeCount(Row55);
    assert EntriesOk(55, Row55, k, 14); assert EntriesOk(55, Row55, k, 13); assert EntriesOk(55, Row55, k, 12);
    assert EntriesOk(55, Row55, k, 11); assert EntriesOk(55, Row55, k, 10); assert EntriesOk(55, Row55, k, 9);
    assert EntriesOk(55, Row55, k, 8); assert EntriesOk(55, Row55, k, 7); assert EntriesOk(55, Row55, k, 6);
    assert EntriesOk(55, Row55, k, 5); assert EntriesOk(55, Row55, k, 4); assert EntriesOk(55, Row55, k, 3);
    assert EntriesOk(55, Row55, k, 2); assert EntriesOk(55, Row55, k, 1); assert EntriesOk(55, Row55, k, 0);
  }

  lemma Row56Ok()
    ensures forall c | c == 56 :: CaseRowOk(c, Row56)
  {
    var k := EdgeCount(Row56);
    assert EntriesOk(56, Row56, k, 14); assert EntriesOk(56, Row56, k, 13); assert EntriesOk(56, Row56, k, 12);
    assert EntriesOk(56, Row56, k, 11); assert EntriesOk(56, Row56, k, 10); assert EntriesOk(56, Row56, k, 9);
    assert EntriesOk(56, Row56, k, 8); assert EntriesOk(56, Row56, k, 7); assert EntriesOk(56, Row56, k, 6);
    assert EntriesOk(56, Row56, k, 5); assert EntriesOk(56, Row56, k, 4); assert EntriesOk(56, Row56, k, 3);
    assert EntriesOk(56, Row56, k, 2); assert EntriesOk(56, Row56, k, 1); assert EntriesOk(56, Row56, k, 0);
  }

  lemma Row57Ok()
    ensures forall c | c == 57 :: CaseRowOk(c, Row57)
  {
    var k := EdgeCount(Row57);
    assert EntriesOk(57, Row57, k, 14); assert EntriesOk(57, Row57, k, 13); assert EntriesOk(57, Row57, k, 12);
    assert EntriesOk(57, Row57, k, 11); assert EntriesOk(57, Row57, k, 10); assert EntriesOk(57, Row57, k, 9);
    assert EntriesOk(57, Row57, k, 8); assert EntriesOk(57, Row57, k, 7); assert EntriesOk(57, Row57, k, 6);
    assert EntriesOk(57, Row57, k, 5); assert EntriesOk(57, Row57, k, 4); assert EntriesOk(57, Row57, k, 3);
    assert EntriesOk(57, Row57, k, 2); assert EntriesOk(57, Row57, k, 1); assert EntriesOk(57, Row57, k, 0);
  }

  lemma Row58Ok()
    ensures forall c | c == 58 :: CaseRowOk(c, Row58)
  {
    var k := EdgeCount(Row58);
    assert EntriesOk(58, Row58, k, 14); assert EntriesOk(58, Row58, k, 13); assert EntriesOk(58, Row58, k, 12);
    assert EntriesOk(58, Row58, k, 11); assert EntriesOk(58, Row58, k, 10); assert EntriesOk(58, Row58, k, 9);
    assert EntriesOk(58, Row58, k, 8); assert EntriesOk(58, Row58, k, 7); assert EntriesOk(58, Row58, k, 6);
    assert EntriesOk(58, Row58, k, 5); assert EntriesOk(58, Row58, k, 4); assert EntriesOk(58, Row58, k, 3);
    assert EntriesOk(58, Row58, k, 2); assert EntriesOk(58, Row58, k, 1); assert EntriesOk(58, Row58, k, 0);
  }

  lemma Row59Ok()
    ensures forall c | c == 59 :: CaseRowOk(c, Row59)
  {
    var k := EdgeCount(Row59);
    assert EntriesOk(59, Row59, k, 14); assert EntriesOk(59, Row59, k, 13); assert EntriesOk(59, Row59, k, 12);
    assert EntriesOk(59, Row59, k, 11); assert EntriesOk(59, Row59, k, 10); assert EntriesOk(59, Row59, k, 9);
    assert EntriesOk(59, Row59, k, 8); assert EntriesOk(59, Row59, k, 7); assert EntriesOk(59, Row59, k, 6);
    assert EntriesOk(59, Row59, k, 5); assert EntriesOk(59, Row59, k, 4); assert EntriesOk(59, Row59, k, 3);
    assert EntriesOk(59, Row59, k, 2); assert EntriesOk(59, Row59, k, 1); assert EntriesOk(59, Row59, k, 0);
  }

  lemma Row60Ok()
    ensures forall c | c == 60 :: CaseRowOk(c, Row60)
  {
    var k := EdgeCount(Row60);
    assert EntriesOk(60, Row60, k, 14); assert EntriesOk(60, Row60, k, 13); assert EntriesOk(60, Row60, k, 12);
    assert EntriesOk(60, Row60, k, 11); assert EntriesOk(60, Row60, k, 10); assert EntriesOk(60, Row60, k, 9);
    assert EntriesOk(60, Row60, k, 8); assert EntriesOk(60, Row60, k, 7); assert EntriesOk(60, Row60, k, 6);
    assert EntriesOk(60, Row60, k, 5); assert EntriesOk(60, Row60, k, 4); assert EntriesOk(60, Row60, k, 3);
    assert EntriesOk(60, Row60, k, 2); assert EntriesOk(60, Row60, k, 1); assert EntriesOk(60, Row60, k, 0);
  }

  lemma Row61Ok()
    ensures forall c | c == 61 :: CaseRowOk(c, Row61)
  {
    var k := EdgeCount(Row61);
    assert EntriesOk(61, Row61, k, 14); assert EntriesOk(61, Row61, k, 13); assert EntriesOk(61, Row61, k, 12);
    assert EntriesOk(61, Row61, k, 11); assert EntriesOk(61, Row61, k, 10); assert EntriesOk(61, Row61, k, 9);
    assert EntriesOk(61, Row61, k, 8); assert EntriesOk(61, Row61, k, 7); assert EntriesOk(61, Row61, k, 6);
    assert EntriesOk(61, Row61, k, 5); assert EntriesOk(61, Row61, k, 4); assert EntriesOk(61, Row61, k, 3);
    assert EntriesOk(61, Row61, k, 2); assert EntriesOk(61, Row61, k, 1); assert EntriesOk(61, Row61, k, 0);
  }

  lemma Row62Ok()
    ensures forall c | c == 62 :: CaseRowOk(c, Row62)
  {
    var k := EdgeCount(Row62);
    assert EntriesOk(62, Row62, k, 14); assert EntriesOk(62, Row62, k, 13); assert EntriesOk(62, Row62, k, 12);
    assert EntriesOk(62, Row62, k, 11); assert EntriesOk(62, Row62, k, 10); assert EntriesOk(62, Row62, k, 9);
    assert EntriesOk(62, Row62, k, 8); assert EntriesOk(62, Row62, k, 7); assert EntriesOk(62, Row62, k, 6);
    assert EntriesOk(62, Row62, k, 5); assert EntriesOk(62, Row62, k, 4); assert EntriesOk(62, Row62, k, 3);
    assert EntriesOk(62, Row62, k, 2); assert EntriesOk(62, Row62, k, 1); assert EntriesOk(62, Row62, k, 0);
  }

  lemma Row63Ok()
    ensures forall c | c == 63 :: CaseRowOk(c, Row63)
  {
    var k := EdgeCount(Row63);
    assert EntriesOk(63, Row63, k, 14); assert EntriesOk(63, Row63, k, 13); assert EntriesOk(63, Row63, k, 12);
    assert EntriesOk(63, Row63, k, 11); assert EntriesOk(63, Row63, k, 10); assert EntriesOk(63, Row63, k, 9);
    assert EntriesOk(63, Row63, k, 8); assert EntriesOk(63, Row63, k, 7); assert EntriesOk(63, Row63, k, 6);
    assert EntriesOk(63, Row63, k, 5); assert EntriesOk(63, Row63, k, 4); assert EntriesOk(63, Row63, k, 3);
    assert EntriesOk(63, Row63, k, 2); assert EntriesOk(63, Row63, k, 1); assert EntriesOk(63, Row63, k, 0);
  }

  lemma Row64Ok()
    ensures forall c | c == 64 :: CaseRowOk(c, Row64)
  {
    var k := EdgeCount(Row64);
    assert EntriesOk(64, Row64, k, 14); assert EntriesOk(64, Row64, k, 13); assert EntriesOk(64, Row64, k, 12);
    assert EntriesOk(64, Row64, k, 11); assert EntriesOk(64, Row64, k, 10); assert EntriesOk(64, Row64, k, 9);
    assert EntriesOk(64, Row64, k, 8); assert EntriesOk(64, Row64, k, 7); assert EntriesOk(64, Row64, k, 6);
    assert EntriesOk(64, Row64, k, 5); assert EntriesOk(64, Row64, k, 4); assert EntriesOk(64, Row64, k, 3);
    assert EntriesOk(64, Row64, k, 2); assert EntriesOk(64, Row64, k, 1); assert EntriesOk(64, Row64, k, 0);
  }

  lemma Row65Ok()
    ensures forall c | c == 65 :: CaseRowOk(c, Row65)
  {
    var k := EdgeCount(Row65);
    assert EntriesOk(65, Row65, k, 14); assert EntriesOk(65, Row65, k, 13); assert EntriesOk(65, Row65, k, 12);
    assert EntriesOk(65, Row65, k, 11); assert EntriesOk(65, Row65, k, 10); assert EntriesOk(65, Row65, k, 9);
    assert EntriesOk(65, Row65, k, 8); assert EntriesOk(65, Row65, k, 7); assert EntriesOk(65, Row65, k, 6);
    assert EntriesOk(65, Row65, k, 5); assert EntriesOk(65, Row65, k, 4); assert EntriesOk(65, Row65, k, 3);
    assert EntriesOk(65, Row65, k, 2); assert EntriesOk(65, Row65, k, 1); assert EntriesOk(65, Row65, k, 0);
  }

  lemma Row66Ok()
    ensures forall c | c == 66 :: CaseRowOk(c, Row66)
  {
    var k := EdgeCount(Row66);
    assert EntriesOk(66, Row66, k, 14); assert EntriesOk(66, Row66, k, 13); assert EntriesOk(66, Row66, k, 12);
    assert EntriesOk(66, Row66, k, 11); assert EntriesOk(66, Row66, k, 10); assert EntriesOk(66, Row66, k, 9);
    assert EntriesOk(66, Row66, k, 8); assert EntriesOk(66, Row66, k, 7); assert EntriesOk(66, Row66, k, 6);
    assert EntriesOk(66, Row66, k, 5); assert EntriesOk(66, Row66, k, 4); assert EntriesOk(66, Row66, k, 3);
    assert EntriesOk(66, Row66, k, 2); assert EntriesOk(66, Row66, k, 1); assert EntriesOk(66, Row66, k, 0);
  }

  lemma Row67Ok()
    ensures forall c | c == 67 :: CaseRowOk(c, Row67)
  {
    var k := EdgeCount(Row67);
    assert EntriesOk(67, Row67, k, 14); assert EntriesOk(67, Row67, k, 13); assert EntriesOk(67, Row67, k, 12);
    assert EntriesOk(67, Row67, k, 11); assert EntriesOk(67, Row67, k, 10); assert EntriesOk(67, Row67, k, 9);
    assert EntriesOk(67, Row67, k, 8); assert EntriesOk(67, Row67, k, 7); assert EntriesOk(67, Row67, k, 6);
    assert EntriesOk(67, Row67, k, 5); assert EntriesOk(67, Row67, k, 4); assert EntriesOk(67, Row67, k, 3);
    assert EntriesOk(67, Row67, k, 2); assert EntriesOk(67, Row67, k, 1); assert EntriesOk(67, Row67, k, 0);
  }

  lemma Row68Ok()
    ensures forall c | c == 68 :: CaseRowOk(c, Row68)
  {
    var k := EdgeCount(Row68);
    assert EntriesOk(68, Row68, k, 14); assert EntriesOk(68, Row68, k, 13); assert EntriesOk(68, Row68, k, 12);
    assert EntriesOk(68, Row68, k, 11); assert EntriesOk(68, Row68, k, 10); assert EntriesOk(68, Row68, k, 9);
    assert EntriesOk(68, Row68, k, 8); assert EntriesOk(68, Row68, k, 7); assert EntriesOk(68, Row68, k, 6);
    assert EntriesOk(68, Row68, k, 5); assert EntriesOk(68, Row68, k, 4); assert EntriesOk(68, Row68, k, 3);
    assert EntriesOk(68, Row68, k, 2); assert EntriesOk(68, Row68, k, 1); assert EntriesOk(68, Row68, k, 0);
  }

  lemma Row69Ok()
    ensures forall c | c == 69 :: CaseRowOk(c, Row69)
  {
    var k := EdgeCount(Row69);
    assert EntriesOk(69, Row69, k, 14); assert EntriesOk(69, Row69, k, 13); assert EntriesOk(69, Row69, k, 12);
    assert EntriesOk(69, Row69, k, 11); assert EntriesOk(69, Row69, k, 10); assert EntriesOk(69, Row69, k, 9);
    assert EntriesOk(69, Row69, k, 8); assert EntriesOk(69, Row69, k, 7); assert EntriesOk(69, Row69, k, 6);
    assert EntriesOk(69, Row69, k, 5); assert EntriesOk(69, Row69, k, 4); assert EntriesOk(69, Row69, k, 3);
    assert EntriesOk(69, Row69, k, 2); assert EntriesOk(69, Row69, k, 1); assert EntriesOk(69, Row69, k, 0);
  }

  lemma Row70Ok()
    ensures forall c | c == 70 :: CaseRowOk(c, Row70)
  {
    var k := EdgeCount(Row70);
    assert EntriesOk(70, Row70, k, 14); assert EntriesOk(70, Row70, k, 13); assert EntriesOk(70, Row70, k, 12);
    assert EntriesOk(70, Row70, k, 11); assert EntriesOk(70, Row70, k, 10); assert EntriesOk(70, Row70, k, 9);
    assert EntriesOk(70, Row70, k, 8); assert EntriesOk(70, Row70, k, 7); assert EntriesOk(70, Row70, k, 6);
    assert EntriesOk(70, Row70, k, 5); assert EntriesOk(70, Row70, k, 4); assert EntriesOk(70, Row70, k, 3);
    assert EntriesOk(70, Row70, k, 2); assert EntriesOk(70, Row70, k, 1); assert EntriesOk(70, Row70, k, 0);
  }

  lemma Row71Ok()
    ensures forall c | c == 71 :: CaseRowOk(c, Row71)
  {
    var k := EdgeCount(Row71);
    assert EntriesOk(71, Row71, k, 14); assert EntriesOk(71, Row71, k, 13); assert EntriesOk(71, Row71, k, 12);
    assert EntriesOk(71, Row71, k, 11); assert EntriesOk(71, Row71, k, 10); assert EntriesOk(71, Row71, k, 9);
    assert EntriesOk(71, Row71, k, 8); assert EntriesOk(71, Row71, k, 7); assert EntriesOk(71, Row71, k, 6);
    assert EntriesOk(71, Row71, k, 5); assert EntriesOk(71, Row71, k, 4); assert EntriesOk(71, Row71, k, 3);
    assert EntriesOk(71, Row71, k, 2); assert EntriesOk(71, Row71, k, 1); assert EntriesOk(71, Row71, k, 0);
  }

  lemma Row72Ok()
    ensures forall c | c == 72 :: CaseRowOk(c, Row72)
  {
    var k := EdgeCount(Row72);
    assert EntriesOk(72, Row72, k, 14); assert EntriesOk(72, Row72, k, 13); assert EntriesOk(72, Row72, k, 12);
    assert EntriesOk(72, Row72, k, 11); assert EntriesOk(72, Row72, k, 10); assert EntriesOk(72, Row72, k, 9);
    assert EntriesOk(72, Row72, k, 8); assert EntriesOk(72, Row72, k, 7); assert EntriesOk(72, Row72, k, 6);
    assert EntriesOk(72, Row72, k, 5); assert EntriesOk(72, Row72, k, 4); assert EntriesOk(72, Row72, k, 3);
    assert EntriesOk(72, Row72, k, 2); assert EntriesOk(72, Row72, k, 1); assert EntriesOk(72, Row72, k, 0);
  }

  lemma Row73Ok()
    ensures forall c | c == 73 :: CaseRowOk(c, Row73)
  {
    var k := EdgeCount(Row73);
    assert EntriesOk(73, Row73, k, 14); assert EntriesOk(73, Row73, k, 13); assert EntriesOk(73, Row73, k, 12);
    assert EntriesOk(73, Row73, k, 11); assert EntriesOk(73, Row73, k, 10); assert EntriesOk(73, Row73, k, 9);
    assert EntriesOk(73, Row73, k, 8); assert EntriesOk(73, Row73, k, 7); assert EntriesOk(73, Row73, k, 6);
    assert EntriesOk(73, Row73, k, 5); assert EntriesOk(73, Row73, k, 4); assert EntriesOk(73, Row73, k, 3);
    assert EntriesOk(73, Row73, k, 2); assert EntriesOk(73, Row73, k, 1); assert EntriesOk(73, Row73, k, 0);
  }

  lemma Row74Ok()
    ensures forall c | c == 74 :: CaseRowOk(c, Row74)
  {
    var k := EdgeCount(Row74);
    assert EntriesOk(74, Row74, k, 14); assert EntriesOk(74, Row74, k, 13); assert EntriesOk(74, Row74, k, 12);
    assert EntriesOk(74, Row74, k, 11); assert EntriesOk(74, Row74, k, 10); assert EntriesOk(74, Row74, k, 9);
    assert EntriesOk(74, Row74, k, 8); assert EntriesOk(74, Row74, k, 7); assert EntriesOk(74, Row74, k, 6);
    assert EntriesOk(74, Row74, k, 5); assert EntriesOk(74, Row74, k, 4); assert EntriesOk(74, Row74, k, 3);
    assert EntriesOk(74, Row74, k, 2); assert EntriesOk(74, Row74, k, 1); assert EntriesOk(74, Row74, k, 0);
  }

  lemma Row75Ok()
    ensures forall c | c == 75 :: CaseRowOk(c, Row75)
  {
    var k := EdgeCount(Row75);
    assert EntriesOk(75, Row75, k, 14); assert EntriesOk(75, Row75, k, 13); assert EntriesOk(75, Row75, k, 12);
    assert EntriesOk(75, Row75, k, 11); assert EntriesOk(75, Row75, k, 10); assert EntriesOk(75, Row75, k, 9);
    assert EntriesOk(75, Row75, k, 8); assert EntriesOk(75, Row75, k, 7); assert EntriesOk(75, Row75, k, 6);
    assert EntriesOk(75, Row75, k, 5); assert EntriesOk(75, Row75, k, 4); assert EntriesOk(75, Row75, k, 3);
    assert EntriesOk(75, Row75, k, 2); assert EntriesOk(75, Row75, k, 1); assert EntriesOk(75, Row75, k, 0);
  }

  lemma Row76Ok()
    ensures forall c | c == 76 :: CaseRowOk(c, Row76)
  {
    var k := EdgeCount(Row76);
    assert EntriesOk(76, Row76, k, 14); assert EntriesOk(76, Row76, k, 13); assert EntriesOk(76, Row76, k, 12);
    assert EntriesOk(76, Row76, k, 11); assert EntriesOk(76, Row76, k, 10); assert EntriesOk(76, Row76, k, 9);
    assert EntriesOk(76, Row76, k, 8); assert EntriesOk(76, Row76, k, 7); assert EntriesOk(76, Row76, k, 6);
    assert EntriesOk(76, Row76, k, 5); assert EntriesOk(76, Row76, k, 4); assert EntriesOk(76, Row76, k, 3);
    assert EntriesOk(76, Row76, k, 2); assert EntriesOk(76, Row76, k, 1); assert EntriesOk(76, Row76, k, 0);
  }

  lemma Row77Ok()
    ensures forall c | c == 77 :: CaseRowOk(c, Row77)
  {
    var k := EdgeCount(Row77);
    assert EntriesOk(77, Row77, k, 14); assert EntriesOk(77, Row77, k, 13); assert EntriesOk(77, Row77, k, 12);
    assert EntriesOk(77, Row77, k, 11); assert EntriesOk(77, Row77, k, 10); assert EntriesOk(77, Row77, k, 9);
    assert EntriesOk(77, Row77, k, 8); assert EntriesOk(77, Row77, k, 7); assert EntriesOk(77, Row77, k, 6);
    assert EntriesOk(77, Row77, k, 5); assert EntriesOk(77, Row77, k, 4); assert EntriesOk(77, Row77, k, 3);
    assert EntriesOk(77, Row77, k, 2); assert EntriesOk(77, Row77, k, 1); assert EntriesOk(77, Row77, k, 0);
  }

  lemma Row78Ok()
    ensures forall c | c == 78 :: CaseRowOk(c, Row78)
  {
    var k := EdgeCount(Row78);
    assert EntriesOk(78, Row78, k, 14); assert EntriesOk(78, Row78, k, 13); assert EntriesOk(78, Row78, k, 12);
    assert EntriesOk(78, Row78, k, 11); assert EntriesOk(78, Row78, k, 10); assert EntriesOk(78, Row78, k, 9);
    assert EntriesOk(78, Row78, k, 8); assert EntriesOk(78, Row78, k, 7); assert EntriesOk(78, Row78, k, 6);
    assert EntriesOk(78, Row78, k, 5); assert EntriesOk(78, Row78, k, 4); assert EntriesOk(78, Row78, k, 3);
    assert EntriesOk(78, Row78, k, 2); assert EntriesOk(78, Row78, k, 1); assert EntriesOk(78, Row78, k, 0);
  }

  lemma Row79Ok()
    ensures forall c | c == 79 :: CaseRowOk(c, Row79)
  {
    var k := EdgeCount(Row79);
    assert EntriesOk(79, Row79, k, 14); assert EntriesOk(79, Row79, k, 13); assert EntriesOk(79, Row79, k, 12);
    assert EntriesOk(79, Row79, k, 11); assert EntriesOk(79, Row79, k, 10); assert EntriesOk(79, Row79, k, 9);
    assert EntriesOk(79, Row79, k, 8); assert EntriesOk(79, Row79, k, 7); assert EntriesOk(79, Row79, k, 6);
    assert EntriesOk(79, Row79, k, 5); assert EntriesOk(79, Row79, k, 4); assert EntriesOk(79, Row79, k, 3);
    assert EntriesOk(79, Row79, k, 2); assert EntriesOk(79, Row79, k, 1); assert EntriesOk(79, Row79, k, 0);
  }

  lemma Row80Ok()
    ensures forall c | c == 80 :: CaseRowOk(c, Row80)
  {
    var k := EdgeCount(Row80);
    assert EntriesOk(80, Row80, k, 14); assert EntriesOk(80, Row80, k, 13); assert EntriesOk(80, Row80, k, 12);
    assert EntriesOk(80, Row80, k, 11); assert EntriesOk(80, Row80, k, 10); assert EntriesOk(80, Row80, k, 9);
    assert EntriesOk(80, Row80, k, 8); assert EntriesOk(80, Row80, k, 7); assert EntriesOk(80, Row80, k, 6);
    assert EntriesOk(80, Row80, k, 5); assert EntriesOk(80, Row80, k, 4); assert EntriesOk(80, Row80, k, 3);
    assert EntriesOk(80, Row80, k, 2); assert EntriesOk(80, Row80, k, 1); assert EntriesOk(80, Row80, k, 0);
  }

  lemma Row81Ok()
    ensures forall c | c == 81 :: CaseRowOk(c, Row81)
  {
    var k := EdgeCount(Row81);
    assert EntriesOk(81, Row81, k, 14); assert EntriesOk(81, Row81, k, 13); assert EntriesOk(81, Row81, k, 12);
    assert EntriesOk(81, Row81, k, 11); assert EntriesOk(81, Row81, k, 10); assert EntriesOk(81, Row81, k, 9);
    assert EntriesOk(81, Row81, k, 8); assert EntriesOk(81, Row81, k, 7); assert EntriesOk(81, Row81, k, 6);
    assert EntriesOk(81, Row81, k, 5); assert EntriesOk(81, Row81, k, 4); assert EntriesOk(81, Row81, k, 3);
    assert EntriesOk(81, Row81, k, 2); assert EntriesOk(81, Row81, k, 1); assert EntriesOk(81, Row81, k, 0);
  }

  lemma Row82Ok()
    ensures forall c | c == 82 :: CaseRowOk(c, Row82)
  {
    var k := EdgeCount(Row82);
    assert EntriesOk(82, Row82, k, 14); assert EntriesOk(82, Row82, k, 13); assert EntriesOk(82, Row82, k, 12);
    assert EntriesOk(82, Row82, k, 11); assert EntriesOk(82, Row82, k, 10); assert EntriesOk(82, Row82, k, 9);
    assert EntriesOk(82, Row82, k, 8); assert EntriesOk(82, Row82, k, 7); assert EntriesOk(82, Row82, k, 6);
    assert EntriesOk(82, Row82, k, 5); assert EntriesOk(82, Row82, k, 4); assert EntriesOk(82, Row82, k, 3);
    assert EntriesOk(82, Row82, k, 2); assert EntriesOk(82, Row82, k, 1); assert EntriesOk(82, Row82, k, 0);
  }

  lemma Row83Ok()
    ensures forall c | c == 83 :: CaseRowOk(c, Row83)
  {
    var k := EdgeCount(Row83);
    assert EntriesOk(83, Row83, k, 14); assert EntriesOk(83, Row83, k, 13); assert EntriesOk(83, Row83, k, 12);
    assert EntriesOk(83, Row83, k, 11); assert EntriesOk(83, Row83, k, 10); assert EntriesOk(83, Row83, k, 9);
    assert EntriesOk(83, Row83, k, 8); assert EntriesOk(83, Row83, k, 7); assert EntriesOk(83, Row83, k, 6);
    assert EntriesOk(83, Row83, k, 5); assert EntriesOk(83, Row83, k, 4); assert EntriesOk(83, Row83, k, 3);
    assert EntriesOk(83, Row83, k, 2); assert EntriesOk(83, Row83, k, 1); assert EntriesOk(83, Row83, k, 0);
  }

  lemma Row84Ok()
    ensures forall c | c == 84 :: CaseRowOk(c, Row84)
  {
    var k := EdgeCount(Row84);
    assert EntriesOk(84, Row84, k, 14); assert EntriesOk(84, Row84, k, 13); assert EntriesOk(84, Row84, k, 12);
    assert EntriesOk(84, Row84, k, 11); assert EntriesOk(84, Row84, k, 10); assert EntriesOk(84, Row84, k, 9);
    assert EntriesOk(84, Row84, k, 8); assert EntriesOk(84, Row84, k, 7); assert EntriesOk(84, Row84, k, 6);
    assert EntriesOk(84, Row84, k, 5); assert EntriesOk(84, Row84, k, 4); assert EntriesOk(84, Row84, k, 3);
    assert EntriesOk(84, Row84, k, 2); assert EntriesOk(84, Row84, k, 1); assert EntriesOk(84, Row84, k, 0);
  }

  lemma Row85Ok()
    ensures forall c | c == 85 :: CaseRowOk(c, Row85)
  {
    var k := EdgeCount(Row85);
    assert EntriesOk(85, Row85, k, 14); assert EntriesOk(85, Row85, k, 13); assert EntriesOk(85, Row85, k, 12);
    assert EntriesOk(85, Row85, k, 11); assert EntriesOk(85, Row85, k, 10); assert EntriesOk(85, Row85, k, 9);
    assert EntriesOk(85, Row85, k, 8); assert EntriesOk(85, Row85, k, 7); assert EntriesOk(85, Row85, k, 6);
    assert EntriesOk(85, Row85, k, 5); assert EntriesOk(85, Row85, k, 4); assert EntriesOk(85, Row85, k, 3);
    assert EntriesOk(85, Row85, k, 2); assert EntriesOk(85, Row85, k, 1); assert EntriesOk(85, Row85, k, 0);
  }

  lemma Row86Ok()
    ensures forall c | c == 86 :: CaseRowOk(c, Row86)
  {
    var k := EdgeCount(Row86);
    assert EntriesOk(86, Row86, k, 14); assert EntriesOk(86, Row86, k, 13); assert EntriesOk(86, Row86, k, 12);
    assert EntriesOk(86, Row86, k, 11); assert EntriesOk(86, Row86, k, 10); assert EntriesOk(86, Row86, k, 9);
    assert EntriesOk(86, Row86, k, 8); assert EntriesOk(86, Row86, k, 7); assert EntriesOk(86, Row86, k, 6);
    assert EntriesOk(86, Row86, k, 5); assert EntriesOk(86, Row86, k, 4); assert EntriesOk(86, Row86, k, 3);
    assert EntriesOk(86, Row86, k, 2); assert EntriesOk(86, Row86, k, 1); assert EntriesOk(86, Row86, k, 0);
  }

  lemma Row87Ok()
    ensures forall c | c == 87 :: CaseRowOk(c, Row87)
  {
    var k := EdgeCount(Row87);
    assert EntriesOk(87, Row87, k, 14); assert EntriesOk(87, Row87, k, 13); assert EntriesOk(87, Row87, k, 12);
    assert EntriesOk(87, Row87, k, 11); assert EntriesOk(87, Row87, k, 10); assert EntriesOk(87, Row87, k, 9);
    assert EntriesOk(87, Row87, k, 8); assert EntriesOk(87, Row87, k, 7); assert EntriesOk(87, Row87, k, 6);
    assert EntriesOk(87, Row87, k, 5); assert EntriesOk(87, Row87, k, 4); assert EntriesOk(87, Row87, k, 3);
    assert EntriesOk(87, Row87, k, 2); assert EntriesOk(87, Row87, k, 1); assert EntriesOk(87, Row87, k, 0);
  }

  lemma Row88Ok()
    ensures forall c | c == 88 :: CaseRowOk(c, Row88)
  {
    var k := EdgeCount(Row88);
    assert EntriesOk(88, Row88, k, 14); assert EntriesOk(88, Row88, k, 13); assert EntriesOk(88, Row88, k, 12);
    assert EntriesOk(88, Row88, k, 11); assert EntriesOk(88, Row88, k, 10); assert EntriesOk(88, Row88, k, 9);
    assert EntriesOk(88, Row88, k, 8); assert EntriesOk(88, Row88, k, 7); assert EntriesOk(88, Row88, k, 6);
    assert EntriesOk(88, Row88, k, 5); assert EntriesOk(88, Row88, k, 4); assert EntriesOk(88, Row88, k, 3);
    assert EntriesOk(88, Row88, k, 2); assert EntriesOk(88, Row88, k, 1); assert EntriesOk(88, Row88, k, 0);
  }

  lemma Row89Ok()
    ensures forall c | c == 89 :: CaseRowOk(c, Row89)
  {
    var k := EdgeCount(Row89);
    assert EntriesOk(89, Row89, k, 14); assert EntriesOk(89, Row89, k, 13); assert EntriesOk(89, Row89, k, 12);
    assert EntriesOk(89, Row89, k, 11); assert EntriesOk(89, Row89, k, 10); assert EntriesOk(89, Row89, k, 9);
    assert EntriesOk(89, Row89, k, 8); assert EntriesOk(89, Row89, k, 7); assert EntriesOk(89, Row89, k, 6);
    assert EntriesOk(89, Row89, k, 5); assert EntriesOk(89, Row89, k, 4); assert EntriesOk(89, Row89, k, 3);
    assert EntriesOk(89, Row89, k, 2); assert EntriesOk(89, Row89, k, 1); assert EntriesOk(89, Row89, k, 0);
  }

  lemma Row90Ok()
    ensures forall c | c == 90 :: CaseRowOk(c, Row90)
  {
    var k := EdgeCount(Row90);
    assert EntriesOk(90, Row90, k, 14); assert EntriesOk(90, Row90, k, 13); assert EntriesOk(90, Row90, k, 12);
    assert EntriesOk(90, Row90, k, 11); assert EntriesOk(90, Row90, k, 10); assert EntriesOk(90, Row90, k, 9);
    assert EntriesOk(90, Row90, k, 8); assert EntriesOk(90, Row90, k, 7); assert EntriesOk(90, Row90, k, 6);
    assert EntriesOk(90, Row90, k, 5); assert EntriesOk(90, Row90, k, 4); assert EntriesOk(90, Row90, k, 3);
    assert EntriesOk(90, Row90, k, 2); assert EntriesOk(90, Row90, k, 1); assert EntriesOk(90, Row90, k, 0);
  }

  lemma Row91Ok()
    ensures forall c | c == 91 :: CaseRowOk(c, Row91)
  {
    var k := EdgeCount(Row91);
    assert EntriesOk(91, Row91, k, 14); assert EntriesOk(91, Row91, k, 13); assert EntriesOk(91, Row91, k, 12);
    assert EntriesOk(91, Row91, k, 11); assert EntriesOk(91, Row91, k, 10); assert EntriesOk(91, Row91, k, 9);
    assert EntriesOk(91, Row91, k, 8); assert EntriesOk(91, Row91, k, 7); assert EntriesOk(91, Row91, k, 6);
    assert EntriesOk(91, Row91, k, 5); assert EntriesOk(91, Row91, k, 4); assert EntriesOk(91, Row91, k, 3);
    assert EntriesOk(91, Row91, k, 2); assert EntriesOk(91, Row91, k, 1); assert EntriesOk(91, Row91, k, 0);
  }

  lemma Row92Ok()
    ensures forall c | c == 92 :: CaseRowOk(c, Row92)
  {
    var k := EdgeCount(Row92);
    assert EntriesOk(92, Row92, k, 14); assert EntriesOk(92, Row92, k, 13); assert EntriesOk(92, Row92, k, 12);
    assert EntriesOk(92, Row92, k, 11); assert EntriesOk(92, Row92, k, 10); assert EntriesOk(92, Row92, k, 9);
    assert EntriesOk(92, Row92, k, 8); assert EntriesOk(92, Row92, k, 7); assert EntriesOk(92, Row92, k, 6);
    assert EntriesOk(92, Row92, k, 5); assert EntriesOk(92, Row92, k, 4); assert EntriesOk(92, Row92, k, 3);
    assert EntriesOk(92, Row92, k, 2); assert EntriesOk(92, Row92, k, 1); assert EntriesOk(92, Row92, k, 0);
  }

  lemma Row93Ok()
    ensures forall c | c == 93 :: CaseRowOk(c, Row93)
  {
    var k := EdgeCount(Row93);
    assert EntriesOk(93, Row93, k, 14); assert EntriesOk(93, Row93, k, 13); assert EntriesOk(93, Row93, k, 12);
    assert EntriesOk(93, Row93, k, 11); assert EntriesOk(93, Row93, k, 10); assert EntriesOk(93, Row93, k, 9);
    assert EntriesOk(93, Row93, k, 8); assert EntriesOk(93, Row93, k, 7); assert EntriesOk(93, Row93, k, 6);
    assert EntriesOk(93, Row93, k, 5); assert EntriesOk(93, Row93, k, 4); assert EntriesOk(93, Row93, k, 3);
    assert EntriesOk(93, Row93, k, 2); assert EntriesOk(93, Row93, k, 1); assert EntriesOk(93, Row93, k, 0);
  }

  lemma Row94Ok()
    ensures forall c | c == 94 :: CaseRowOk(c, Row94)
  {
    var k := EdgeCount(Row94);
    assert EntriesOk(94, Row94, k, 14); assert EntriesOk(94, Row94, k, 13); assert EntriesOk(94, Row94, k, 12);
    assert EntriesOk(94, Row94, k, 11); assert EntriesOk(94, Row94, k, 10); assert EntriesOk(94, Row94, k, 9);
    assert EntriesOk(94, Row94, k, 8); assert EntriesOk(94, Row94, k, 7); assert EntriesOk(94, Row94, k, 6);
    assert EntriesOk(94, Row94, k, 5); assert EntriesOk(94, Row94, k, 4); assert EntriesOk(94, Row94, k, 3);
    assert EntriesOk(94, Row94, k, 2); assert EntriesOk(94, Row94, k, 1); assert EntriesOk(94, Row94, k, 0);
  }

  lemma Row95Ok()
    ensures forall c | c == 95 :: CaseRowOk(c, Row95)
  {
    var k := EdgeCount(Row95);
    assert EntriesOk(95, Row95, k, 14); assert EntriesOk(95, Row95, k, 13); assert EntriesOk(95, Row95, k, 12);
    assert EntriesOk(95, Row95, k, 11); assert EntriesOk(95, Row95, k, 10); assert EntriesOk(95, Row95, k, 9);
    assert EntriesOk(95, Row95, k, 8); assert EntriesOk(95, Row95, k, 7); assert EntriesOk(95, Row95, k, 6);
    assert EntriesOk(95, Row95, k, 5); assert EntriesOk(95, Row95, k, 4); assert EntriesOk(95, Row95, k, 3);
    assert EntriesOk(95, Row95, k, 2); assert EntriesOk(95, Row95, k, 1); assert EntriesOk(95, Row95, k, 0);
  }

  lemma Row96Ok()
    ensures forall c | c == 96 :: CaseRowOk(c, Row96)
  {
    var k := EdgeCount(Row96);
    assert EntriesOk(96, Row96, k, 14); assert EntriesOk(96, Row96, k, 13); assert EntriesOk(96, Row96, k, 12);
    assert EntriesOk(96, Row96, k, 11); assert EntriesOk(96, Row96, k, 10); assert EntriesOk(96, Row96, k, 9);
    assert EntriesOk(96, Row96, k, 8); assert EntriesOk(96, Row96, k, 7); assert EntriesOk(96, Row96, k, 6);
    assert EntriesOk(96, Row96, k, 5); assert EntriesOk(96, Row96, k, 4); assert EntriesOk(96, Row96, k, 3);
    assert EntriesOk(96, Row96, k, 2); assert EntriesOk(96, Row96, k, 1); assert EntriesOk(96, Row96, k, 0);
  }

  lemma Row97Ok()
    ensures forall c | c == 97 :: CaseRowOk(c, Row97)
  {
    var k := EdgeCount(Row97);
    assert EntriesOk(97, Row97, k, 14); assert EntriesOk(97, Row97, k, 13); assert EntriesOk(97, Row97, k, 12);
    assert EntriesOk(97, Row97, k, 11); assert EntriesOk(97, Row97, k, 10); assert EntriesOk(97, Row97, k, 9);
    assert EntriesOk(97, Row97, k, 8); assert EntriesOk(97, Row97, k, 7); assert EntriesOk(97, Row97, k, 6);
    assert EntriesOk(97, Row97, k, 5); assert EntriesOk(97, Row97, k, 4); assert EntriesOk(97, Row97, k, 3);
    assert EntriesOk(97, Row97, k, 2); assert EntriesOk(97, Row97, k, 1); assert EntriesOk(97, Row97, k, 0);
  }

  lemma Row98Ok()
    ensures forall c | c == 98 :: CaseRowOk(c, Row98)
  {
    var k := EdgeCount(Row98);
    assert EntriesOk(98, Row98, k, 14); assert EntriesOk(98, Row98, k, 13); assert EntriesOk(98, Row98, k, 12);
    assert EntriesOk(98, Row98, k, 11); assert EntriesOk(98, Row98, k, 10); assert EntriesOk(98, Row98, k, 9);
    assert EntriesOk(98, Row98, k, 8); assert EntriesOk(98, Row98, k, 7); assert EntriesOk(98, Row98, k, 6);
    assert EntriesOk(98, Row98, k, 5); assert EntriesOk(98, Row98, k, 4); assert EntriesOk(98, Row98, k, 3);
    assert EntriesOk(98, Row98, k, 2); assert EntriesOk(98, Row98, k, 1); assert EntriesOk(98, Row98, k, 0);
  }

  lemma Row99Ok()
    ensures forall c | c == 99 :: CaseRowOk(c, Row99)
  {
    var k := EdgeCount(Row99);
    assert EntriesOk(99, Row99, k, 14); assert EntriesOk(99, Row99, k, 13); assert EntriesOk(99, Row99, k, 12);
    assert EntriesOk(99, Row99, k, 11); assert EntriesOk(99, Row99, k, 10); assert EntriesOk(99, Row99, k, 9);
    assert EntriesOk(99, Row99, k, 8); assert EntriesOk(99, Row99, k, 7); assert EntriesOk(99, Row99, k, 6);
    assert EntriesOk(99, Row99, k, 5); assert EntriesOk(99, Row99, k, 4); assert EntriesOk(99, Row99, k, 3);
    assert EntriesOk(99, Row99, k, 2); assert EntriesOk(99, Row99, k, 1); assert EntriesOk(99, Row99, k, 0);
  }

  lemma Row100Ok()
    ensures forall c | c == 100 :: CaseRowOk(c, Row100)
  {
    var k := EdgeCount(Row100);
    assert EntriesOk(100, Row100, k, 14); assert EntriesOk(100, Row100, k, 13); assert EntriesOk(100, Row100, k, 12);
    assert EntriesOk(100, Row100, k, 11); assert EntriesOk(100, Row100, k, 10); assert EntriesOk(100, Row100, k, 9);
    assert EntriesOk(100, Row100, k, 8); assert EntriesOk(100, Row100, k, 7); assert EntriesOk(100, Row100, k, 6);
    assert EntriesOk(100, Row100, k, 5); assert EntriesOk(100, Row100, k, 4); assert EntriesOk(100, Row100, k, 3);
    assert EntriesOk(100, Row100, k, 2); assert EntriesOk(100, Row100, k, 1); assert EntriesOk(100, Row100, k, 0);
  }

  lemma Row101Ok()
    ensures forall c | c == 101 :: CaseRowOk(c, Row101)
  {
    var k := EdgeCount(Row101);
    assert EntriesOk(101, Row101, k, 14); assert EntriesOk(101, Row101, k, 13); assert EntriesOk(101, Row101, k, 12);
    assert EntriesOk(101, Row101, k, 11); assert EntriesOk(101, Row101, k, 10); assert EntriesOk(101, Row101, k, 9);
    assert EntriesOk(101, Row101, k, 8); assert EntriesOk(101, Row101, k, 7); assert EntriesOk(101, Row101, k, 6);
    assert EntriesOk(101, Row101, k, 5); assert EntriesOk(101, Row101, k, 4); assert EntriesOk(101, Row101, k, 3);
    assert EntriesOk(101, Row101, k, 2); assert EntriesOk(101, Row101, k, 1); assert EntriesOk(101, Row101, k, 0);
  }

  lemma Row102Ok()
    ensures forall c | c == 102 :: CaseRowOk(c, Row102)
  {
    var k := EdgeCount(Row102);
    assert EntriesOk(102, Row102, k, 14); assert EntriesOk(102, Row102, k, 13); assert EntriesOk(102, Row102, k, 12);
    assert EntriesOk(102, Row102, k, 11); assert EntriesOk(102, Row102, k, 10); assert EntriesOk(102, Row102, k, 9);
    assert EntriesOk(102, Row102, k, 8); assert EntriesOk(102, Row102, k, 7); assert EntriesOk(102, Row102, k, 6);
    assert EntriesOk(102, Row102, k, 5); assert EntriesOk(102, Row102, k, 4); assert EntriesOk(102, Row102, k, 3);
    assert EntriesOk(102, Row102, k, 2); assert EntriesOk(102, Row102, k, 1); assert EntriesOk(102, Row102, k, 0);
  }

  lemma Row103Ok()
    ensures forall c | c == 103 :: CaseRowOk(c, Row103)
  {
    var k := EdgeCount(Row103);
    assert EntriesOk(103, Row103, k, 14); assert EntriesOk(103, Row103, k, 13); assert EntriesOk(103, Row103, k, 12);
    assert EntriesOk(103, Row103, k, 11); assert EntriesOk(103, Row103, k, 10); assert EntriesOk(103, Row103, k, 9);
    assert EntriesOk(103, Row103, k, 8); assert EntriesOk(103, Row103, k, 7); assert EntriesOk(103, Row103, k, 6);
    assert EntriesOk(103, Row103, k, 5); assert EntriesOk(103, Row103, k, 4); assert EntriesOk(103, Row103, k, 3);
    assert EntriesOk(103, Row103, k, 2); assert EntriesOk(103, Row103, k, 1); assert EntriesOk(103, Row103, k, 0);
  }

  lemma Row104Ok()
    ensures forall c | c == 104 :: CaseRowOk(c, Row104)
  {
    var k := EdgeCount(Row104);
    assert EntriesOk(104, Row104, k, 14); assert EntriesOk(104, Row104, k, 13); assert EntriesOk(104, Row104, k, 12);
    assert EntriesOk(104, Row104, k, 11); assert EntriesOk(104, Row104, k, 10); assert EntriesOk(104, Row104, k, 9);
    assert EntriesOk(104, Row104, k, 8); assert EntriesOk(104, Row104, k, 7); assert EntriesOk(104, Row104, k, 6);
    assert EntriesOk(104, Row104, k, 5); assert EntriesOk(104, Row104, k, 4); assert EntriesOk(104, Row104, k, 3);
    assert EntriesOk(104, Row104, k, 2); assert EntriesOk(104, Row104, k, 1); assert EntriesOk(104, Row104, k, 0);
  }

  lemma Row105Ok()
    ensures forall c | c == 105 :: CaseRowOk(c, Row105)
  {
    var k := EdgeCount(Row105);
    assert EntriesOk(105, Row105, k, 14); assert EntriesOk(105, Row105, k, 13); assert EntriesOk(105, Row105, k, 12);
    assert EntriesOk(105, Row105, k, 11); assert EntriesOk(105, Row105, k, 10); assert EntriesOk(105, Row105, k, 9);
    assert EntriesOk(105, Row105, k, 8); assert EntriesOk(105, Row105, k, 7); assert EntriesOk(105, Row105, k, 6);
    assert EntriesOk(105, Row105, k, 5); assert EntriesOk(105, Row105, k, 4); assert EntriesOk(105, Row105, k, 3);
    assert EntriesOk(105, Row105, k, 2); assert EntriesOk(105, Row105, k, 1); assert EntriesOk(105, Row105, k, 0);
  }

  lemma Row106Ok()
    ensures forall c | c == 106 :: CaseRowOk(c, Row106)
  {
    var k := EdgeCount(Row106);
    assert EntriesOk(106, Row106, k, 14); assert EntriesOk(106, Row106, k, 13); assert EntriesOk(106, Row106, k, 12);
    assert EntriesOk(106, Row106, k, 11); assert EntriesOk(106, Row106, k, 10); assert EntriesOk(106, Row106, k, 9);
    assert EntriesOk(106, Row106, k, 8); assert EntriesOk(106, Row106, k, 7); assert EntriesOk(106, Row106, k, 6);
    assert EntriesOk(106, Row106, k, 5); assert EntriesOk(106, Row106, k, 4); assert EntriesOk(106, Row106, k, 3);
    assert EntriesOk(106, Row106, k, 2); assert EntriesOk(106, Row106, k, 1); assert EntriesOk(106, Row106, k, 0);
  }

  lemma Row107Ok()
    ensures forall c | c == 107 :: CaseRowOk(c, Row107)
  {
    var k := EdgeCount(Row107);
    assert EntriesOk(107, Row107, k, 14); assert EntriesOk(107, Row107, k, 13); assert EntriesOk(107, Row107, k, 12);
    assert EntriesOk(107, Row107, k, 11); assert EntriesOk(107, Row107, k, 10); assert EntriesOk(107, Row107, k, 9);
    assert EntriesOk(107, Row107, k, 8); assert EntriesOk(107, Row107, k, 7); assert EntriesOk(107, Row107, k, 6);
    assert EntriesOk(107, Row107, k, 5); assert EntriesOk(107, Row107, k, 4); assert EntriesOk(107, Row107, k, 3);
    assert EntriesOk(107, Row107, k, 2); assert EntriesOk(107, Row107, k, 1); assert EntriesOk(107, Row107, k, 0);
  }

  lemma Row108Ok()
    ensures forall c | c == 108 :: CaseRowOk(c, Row108)
  {
    var k := EdgeCount(Row108);
    assert EntriesOk(108, Row108, k, 14); assert EntriesOk(108, Row108, k, 13); assert EntriesOk(108, Row108, k, 12);
    assert EntriesOk(108, Row108, k, 11); assert EntriesOk(108, Row108, k, 10); assert EntriesOk(108, Row108, k, 9);
    assert EntriesOk(108, Row108, k, 8); assert EntriesOk(108, Row108, k, 7); assert EntriesOk(108, Row108, k, 6);
    assert EntriesOk(108, Row108, k, 5); assert EntriesOk(108, Row108, k, 4); assert EntriesOk(108, Row108, k, 3);
    assert EntriesOk(108, Row108, k, 2); assert EntriesOk(108, Row108, k, 1); assert EntriesOk(108, Row108, k, 0);
  }

  lemma Row109Ok()
    ensures forall c | c == 109 :: CaseRowOk(c, Row109)
  {
    var k := EdgeCount(Row109);
    assert EntriesOk(109, Row109, k, 14); assert EntriesOk(109, Row109, k, 13); assert EntriesOk(109, Row109, k, 12);
    assert EntriesOk(109, Row109, k, 11); assert EntriesOk(109, Row109, k, 10); assert EntriesOk(109, Row109, k, 9);
    assert EntriesOk(109, Row109, k, 8); assert EntriesOk(109, Row109, k, 7); assert EntriesOk(109, Row109, k, 6);
    assert EntriesOk(109, Row109, k, 5); assert EntriesOk(109, Row109, k, 4); assert EntriesOk(109, Row109, k, 3);
    assert EntriesOk(109, Row109, k, 2); assert EntriesOk(109, Row109, k, 1); assert EntriesOk(109, Row109, k, 0);
  }

  lemma Row110Ok()
    ensures forall c | c == 110 :: CaseRowOk(c, Row110)
  {
    var k := EdgeCount(Row110);
    assert EntriesOk(110, Row110, k, 14); assert EntriesOk(110, Row110, k, 13); assert EntriesOk(110, Row110, k, 12);
    assert EntriesOk(110, Row110, k, 11); assert EntriesOk(110, Row110, k, 10); assert EntriesOk(110, Row110, k, 9);
    assert EntriesOk(110, Row110, k, 8); assert EntriesOk(110, Row110, k, 7); assert EntriesOk(110, Row110, k, 6);
    assert EntriesOk(110, Row110, k, 5); assert EntriesOk(110, Row110, k, 4); assert EntriesOk(110, Row110, k, 3);
    assert EntriesOk(110, Row110, k, 2); assert EntriesOk(110, Row110, k, 1); assert EntriesOk(110, Row110, k, 0);
  }

  lemma Row111Ok()
    ensures forall c | c == 111 :: CaseRowOk(c, Row111)
  {
    var k := EdgeCount(Row111);
    assert EntriesOk(111, Row111, k, 14); assert EntriesOk(111, Row111, k, 13); assert EntriesOk(111, Row111, k, 12);
    assert EntriesOk(111, Row111, k, 11); assert EntriesOk(111, Row111, k, 10); assert EntriesOk(111, Row111, k, 9);
    assert EntriesOk(111, Row111, k, 8); assert EntriesOk(111, Row111, k, 7); assert EntriesOk(111, Row111, k, 6);
    assert EntriesOk(111, Row111, k, 5); assert EntriesOk(111, Row111, k, 4); assert EntriesOk(111, Row111, k, 3);
    assert EntriesOk(111, Row111, k, 2); assert EntriesOk(111, Row111, k, 1); assert EntriesOk(111, Row111, k, 0);
  }

  lemma Row112Ok()
    ensures forall c | c == 112 :: CaseRowOk(c, Row112)
  {
    var k := EdgeCount(Row112);
    assert EntriesOk(112, Row112, k, 14); assert EntriesOk(112, Row112, k, 13); assert EntriesOk(112, Row112, k, 12);
    assert EntriesOk(112, Row112, k, 11); assert EntriesOk(112, Row112, k, 10); assert EntriesOk(112, Row112, k, 9);
    assert EntriesOk(112, Row112, k, 8); assert EntriesOk(112, Row112, k, 7); assert EntriesOk(112, Row112, k, 6);
    assert EntriesOk(112, Row112, k, 5); assert EntriesOk(112, Row112, k, 4); assert EntriesOk(112, Row112, k, 3);
    assert EntriesOk(112, Row112, k, 2); assert EntriesOk(112, Row112, k, 1); assert EntriesOk(112, Row112, k, 0);
  }

  lemma Row113Ok()
    ensures forall c | c == 113 :: CaseRowOk(c, Row113)
  {
    var k := EdgeCount(Row113);
    assert EntriesOk(113, Row113, k, 14); assert EntriesOk(113, Row113, k, 13); assert EntriesOk(113, Row113, k, 12);
    assert EntriesOk(113, Row113, k, 11); assert EntriesOk(113, Row113, k, 10); assert EntriesOk(113, Row113, k, 9);
    assert EntriesOk(113, Row113, k, 8); assert EntriesOk(113, Row113, k, 7); assert EntriesOk(113, Row113, k, 6);
    assert EntriesOk(113, Row113, k, 5); assert EntriesOk(113, Row113, k, 4); assert EntriesOk(113, Row113, k, 3);
    assert EntriesOk(113, Row113, k, 2); assert EntriesOk(113, Row113, k, 1); assert EntriesOk(113, Row113, k, 0);
  }

  lemma Row114Ok()
    ensures forall c | c == 114 :: CaseRowOk(c, Row114)
  {
    var k := EdgeCount(Row114);
    assert EntriesOk(114, Row114, k, 14); assert EntriesOk(114, Row114, k, 13); assert EntriesOk(114, Row114, k, 12);
    assert EntriesOk(114, Row114, k, 11); assert EntriesOk(114, Row114, k, 10); assert EntriesOk(114, Row114, k, 9);
    assert EntriesOk(114, Row114, k, 8); assert EntriesOk(114, Row114, k, 7); assert EntriesOk(114, Row114, k, 6);
    assert EntriesOk(114, Row114, k, 5); assert EntriesOk(114, Row114, k, 4); assert EntriesOk(114, Row114, k, 3);
    assert EntriesOk(114, Row114, k, 2); assert EntriesOk(114, Row114, k, 1); assert EntriesOk(114, Row114, k, 0);
  }

  lemma Row115Ok()
    ensures forall c | c == 115 :: CaseRowOk(c, Row115)
  {
    var k := EdgeCount(Row115);
    assert EntriesOk(115, Row115, k, 14); assert EntriesOk(115, Row115, k, 13); assert EntriesOk(115, Row115, k, 12);
    assert EntriesOk(115, Row115, k, 11); assert EntriesOk(115, Row115, k, 10); assert EntriesOk(115, Row115, k, 9);
    assert EntriesOk(115, Row115, k, 8); assert EntriesOk(115, Row115, k, 7); assert EntriesOk(115, Row115, k, 6);
    assert EntriesOk(115, Row115, k, 5); assert EntriesOk(115, Row115, k, 4); assert EntriesOk(115, Row115, k, 3);
    assert EntriesOk(115, Row115, k, 2); assert EntriesOk(115, Row115, k, 1); assert EntriesOk(115, Row115, k, 0);
  }

  lemma Row116Ok()
    ensures forall c | c == 116 :: CaseRowOk(c, Row116)
  {
    var k := EdgeCount(Row116);
    assert EntriesOk(116, Row116, k, 14); assert EntriesOk(116, Row116, k, 13); assert EntriesOk(116, Row116, k, 12);
    assert EntriesOk(116, Row116, k, 11); assert EntriesOk(116, Row116, k, 10); assert EntriesOk(116, Row116, k, 9);
    assert EntriesOk(116, Row116, k, 8); assert EntriesOk(116, Row116, k, 7); assert EntriesOk(116, Row116, k, 6);
    assert EntriesOk(116, Row116, k, 5); assert EntriesOk(116, Row116, k, 4); assert EntriesOk(116, Row116, k, 3);
    assert EntriesOk(116, Row116, k, 2); assert EntriesOk(116, Row116, k, 1); assert EntriesOk(116, Row116, k, 0);
  }

  lemma Row117Ok()
    ensures forall c | c == 117 :: CaseRowOk(c, Row117)
  {
    var k := EdgeCount(Row117);
    assert EntriesOk(117, Row117, k, 14); assert EntriesOk(117, Row117, k, 13); assert EntriesOk(117, Row117, k, 12);
    assert EntriesOk(117, Row117, k, 11); assert EntriesOk(117, Row117, k, 10); assert EntriesOk(117, Row117, k, 9);
    assert EntriesOk(117, Row117, k, 8); assert EntriesOk(117, Row117, k, 7); assert EntriesOk(117, Row117, k, 6);
    assert EntriesOk(117, Row117, k, 5); assert EntriesOk(117, Row117, k, 4); assert EntriesOk(117, Row117, k, 3);
    assert EntriesOk(117, Row117, k, 2); assert EntriesOk(117, Row117, k, 1); assert EntriesOk(117, Row117, k, 0);
  }

  lemma Row118Ok()
    ensures forall c | c == 118 :: CaseRowOk(c, Row118)
  {
    var k := EdgeCount(Row118);
    assert EntriesOk(118, Row118, k, 14); assert EntriesOk(118, Row118, k, 13); assert EntriesOk(118, Row118, k, 12);
    assert EntriesOk(118, Row118, k, 11); assert EntriesOk(118, Row118, k, 10); assert EntriesOk(118, Row118, k, 9);
    assert EntriesOk(118, Row118, k, 8); assert EntriesOk(118, Row118, k, 7); assert EntriesOk(118, Row118, k, 6);
    assert EntriesOk(118, Row118, k, 5); assert EntriesOk(118, Row118, k, 4); assert EntriesOk(118, Row118, k, 3);
    assert EntriesOk(118, Row118, k, 2); assert EntriesOk(118, Row118, k, 1); assert EntriesOk(118, Row118, k, 0);
  }

  lemma Row119Ok()
    ensures forall c | c == 119 :: CaseRowOk(c, Row119)
  {
    var k := EdgeCount(Row119);
    assert EntriesOk(119, Row119, k, 14); assert EntriesOk(119, Row119, k, 13); assert EntriesOk(119, Row119, k, 12);
    assert EntriesOk(119, Row119, k, 11); assert EntriesOk(119, Row119, k, 10); assert EntriesOk(119, Row119, k, 9);
    assert EntriesOk(119, Row119, k, 8); assert EntriesOk(119, Row119, k, 7); assert EntriesOk(119, Row119, k, 6);
    assert EntriesOk(119, Row119, k, 5); assert EntriesOk(119, Row119, k, 4); assert EntriesOk(119, Row119, k, 3);
    assert EntriesOk(119, Row119, k, 2); assert EntriesOk(119, Row119, k, 1); assert EntriesOk(119, Row119, k, 0);
  }

  lemma Row120Ok()
    ensures forall c | c == 120 :: CaseRowOk(c, Row120)
  {
    var k := EdgeCount(Row120);
    assert EntriesOk(120, Row120, k, 14); assert EntriesOk(120, Row120, k, 13); assert EntriesOk(120, Row120, k, 12);
    assert EntriesOk(120, Row120, k, 11); assert EntriesOk(120, Row120, k, 10); assert EntriesOk(120, Row120, k, 9);
    assert EntriesOk(120, Row120, k, 8); assert EntriesOk(120, Row120, k, 7); assert EntriesOk(120, Row120, k, 6);
    assert EntriesOk(120, Row120, k, 5); assert EntriesOk(120, Row120, k, 4); assert EntriesOk(120, Row120, k, 3);
    assert EntriesOk(120, Row120, k, 2); assert EntriesOk(120, Row120, k, 1); assert EntriesOk(120, Row120, k, 0);
  }

  lemma Row121Ok()
    ensures forall c | c == 121 :: CaseRowOk(c, Row121)
  {
    var k := EdgeCount(Row121);
    assert EntriesOk(121, Row121, k, 14); assert EntriesOk(121, Row121, k, 13); assert EntriesOk(121, Row121, k, 12);
    assert EntriesOk(121, Row121, k, 11); assert EntriesOk(121, Row121, k, 10); assert EntriesOk(121, Row121, k, 9);
    assert EntriesOk(121, Row121, k, 8); assert EntriesOk(121, Row121, k, 7); assert EntriesOk(121, Row121, k, 6);
    assert EntriesOk(121, Row121, k, 5); assert EntriesOk(121, Row121, k, 4); assert EntriesOk(121, Row121, k, 3);
    assert EntriesOk(121, Row121, k, 2); assert EntriesOk(121, Row121, k, 1); assert EntriesOk(121, Row121, k, 0);
  }

  lemma Row122Ok()
    ensures forall c | c == 122 :: CaseRowOk(c, Row122)
  {
    var k := EdgeCount(Row122);
    assert EntriesOk(122, Row122, k, 14); assert EntriesOk(122, Row122, k, 13); assert EntriesOk(122, Row122, k, 12);
    assert EntriesOk(122, Row122, k, 11); assert EntriesOk(122, Row122, k, 10); assert EntriesOk(122, Row122, k, 9);
    assert EntriesOk(122, Row122, k, 8); assert EntriesOk(122, Row122, k, 7); assert EntriesOk(122, Row122, k, 6);
    assert EntriesOk(122, Row122, k, 5); assert EntriesOk(122, Row122, k, 4); assert EntriesOk(122, Row122, k, 3);
    assert EntriesOk(122, Row122, k, 2); assert EntriesOk(122, Row122, k, 1); assert EntriesOk(122, Row122, k, 0);
  }

  lemma Row123Ok()
    ensures forall c | c == 123 :: CaseRowOk(c, Row123)
  {
    var k := EdgeCount(Row123);
    assert EntriesOk(123, Row123, k, 14); assert EntriesOk(123, Row123, k, 13); assert EntriesOk(123, Row123, k, 12);
    assert EntriesOk(123, Row123, k, 11); assert EntriesOk(123, Row123, k, 10); assert EntriesOk(123, Row123, k, 9);
    assert EntriesOk(123, Row123, k, 8); assert EntriesOk(123, Row123, k, 7); assert EntriesOk(123, Row123, k, 6);
    assert EntriesOk(123, Row123, k, 5); assert EntriesOk(123, Row123, k, 4); assert EntriesOk(123, Row123, k, 3);
    assert EntriesOk(123, Row123, k, 2); assert EntriesOk(123, Row123, k, 1); assert EntriesOk(123, Row123, k, 0);
  }

  lemma Row124Ok()
    ensures forall c | c == 124 :: CaseRowOk(c, Row124)
  {
    var k := EdgeCount(Row124);
    assert EntriesOk(124, Row124, k, 14); assert EntriesOk(124, Row124, k, 13); assert EntriesOk(124, Row124, k, 12);
    assert EntriesOk(124, Row124, k, 11); assert EntriesOk(124, Row124, k, 10); assert EntriesOk(124, Row124, k, 9);
    assert EntriesOk(124, Row124, k, 8); assert EntriesOk(124, Row124, k, 7); assert EntriesOk(124, Row124, k, 6);
    assert EntriesOk(124, Row124, k, 5); assert EntriesOk(124, Row124, k, 4); assert EntriesOk(124, Row124, k, 3);
    assert EntriesOk(124, Row124, k, 2); assert EntriesOk(124, Row124, k, 1); assert EntriesOk(124, Row124, k, 0);
  }

  lemma Row125Ok()
    ensures forall c | c == 125 :: CaseRowOk(c, Row125)
  {
    var k := EdgeCount(Row125);
    assert EntriesOk(125, Row125, k, 14); assert EntriesOk(125, Row125, k, 13); assert EntriesOk(125, Row125, k, 12);
    assert EntriesOk(125, Row125, k, 11); assert EntriesOk(125, Row125, k, 10); assert EntriesOk(125, Row125, k, 9);
    assert EntriesOk(125, Row125, k, 8); assert EntriesOk(125, Row125, k, 7); assert EntriesOk(125, Row125, k, 6);
    assert EntriesOk(125, Row125, k, 5); assert EntriesOk(125, Row125, k, 4); assert EntriesOk(125, Row125, k, 3);
    assert EntriesOk(125, Row125, k, 2); assert EntriesOk(125, Row125, k, 1); assert EntriesOk(125, Row125, k, 0);
  }

  lemma Row126Ok()
    ensures forall c | c == 126 :: CaseRowOk(c, Row126)
  {
    var k := EdgeCount(Row126);
    assert EntriesOk(126, Row126, k, 14); assert EntriesOk(126, Row126, k, 13); assert EntriesOk(126, Row126, k, 12);
    assert EntriesOk(126, Row126, k, 11); assert EntriesOk(126, Row126, k, 10); assert EntriesOk(126, Row126, k, 9);
    assert EntriesOk(126, Row126, k, 8); assert EntriesOk(126, Row126, k, 7); assert EntriesOk(126, Row126, k, 6);
    assert EntriesOk(126, Row126, k, 5); assert EntriesOk(126, Row126, k, 4); assert EntriesOk(126, Row126, k, 3);
    assert EntriesOk(126, Row126, k, 2); assert EntriesOk(126, Row126, k, 1); assert EntriesOk(126, Row126, k, 0);
  }

  lemma Row127Ok()
    ensures forall c | c == 127 :: CaseRowOk(c, Row127)
  {
    var k := EdgeCount(Row127);
    assert EntriesOk(127, Row127, k, 14); assert EntriesOk(127, Row127, k, 13); assert EntriesOk(127, Row127, k, 12);
    assert EntriesOk(127, Row127, k, 11); assert EntriesOk(127, Row127, k, 10); assert EntriesOk(127, Row127, k, 9);
    assert EntriesOk(127, Row127, k, 8); assert EntriesOk(127, Row127, k, 7); assert EntriesOk(127, Row127, k, 6);
    assert EntriesOk(127, Row127, k, 5); assert EntriesOk(127, Row127, k, 4); assert EntriesOk(127, Row127, k, 3);
    assert EntriesOk(127, Row127, k, 2); assert EntriesOk(127, Row127, k, 1); assert EntriesOk(127, Row127, k, 0);
  }

  lemma Row128Ok()
    ensures forall c | c == 128 :: CaseRowOk(c, Row128)
  {
    var k := EdgeCount(Row128);
    assert EntriesOk(128, Row128, k, 14); assert EntriesOk(128, Row128, k, 13); assert EntriesOk(128, Row128, k, 12);
    assert EntriesOk(128, Row128, k, 11); assert EntriesOk(128, Row128, k, 10); assert EntriesOk(128, Row128, k, 9);
    assert EntriesOk(128, Row128, k, 8); assert EntriesOk(128, Row128, k, 7); assert EntriesOk(128, Row128, k, 6);
    assert EntriesOk(128, Row128, k, 5); assert EntriesOk(128, Row128, k, 4); assert EntriesOk(128, Row128, k, 3);
    assert EntriesOk(128, Row128, k, 2); assert EntriesOk(128, Row128, k, 1); assert EntriesOk(128, Row128, k, 0);
  }

  lemma Row129Ok()
    ensures forall c | c == 129 :: CaseRowOk(c, Row129)
  {
    var k := EdgeCount(Row129);
    assert EntriesOk(129, Row129, k, 14); assert EntriesOk(129, Row129, k, 13); assert EntriesOk(129, Row129, k, 12);
    assert EntriesOk(129, Row129, k, 11); assert EntriesOk(129, Row129, k, 10); assert EntriesOk(129, Row129, k, 9);
    assert EntriesOk(129, Row129, k, 8); assert EntriesOk(129, Row129, k, 7); assert EntriesOk(129, Row129, k, 6);
    assert EntriesOk(129, Row129, k, 5); assert EntriesOk(129, Row129, k, 4); assert EntriesOk(129, Row129, k, 3);
    assert EntriesOk(129, Row129, k, 2); assert EntriesOk(129, Row129, k, 1); assert EntriesOk(129, Row129, k, 0);
  }

  lemma Row130Ok()
    ensures forall c | c == 130 :: CaseRowOk(c, Row130)
  {
    var k := EdgeCount(Row130);
    assert EntriesOk(130, Row130, k, 14); assert EntriesOk(130, Row130, k, 13); assert EntriesOk(130, Row130, k, 12);
    assert EntriesOk(130, Row130, k, 11); assert EntriesOk(130, Row130, k, 10); assert EntriesOk(130, Row130, k, 9);
    assert EntriesOk(130, Row130, k, 8); assert EntriesOk(130, Row130, k, 7); assert EntriesOk(130, Row130, k, 6);
    assert EntriesOk(130, Row130, k, 5); assert EntriesOk(130, Row130, k, 4); assert EntriesOk(130, Row130, k, 3);
    assert EntriesOk(130, Row130, k, 2); assert EntriesOk(130, Row130, k, 1); assert EntriesOk(130, Row130, k, 0);
  }

  lemma Row131Ok()
    ensures forall c | c == 131 :: CaseRowOk(c, Row131)
  {
    var k := EdgeCount(Row131);
    assert EntriesOk(131, Row131, k, 14); assert EntriesOk(131, Row131, k, 13); assert EntriesOk(131, Row131, k, 12);
    assert EntriesOk(131, Row131, k, 11); assert EntriesOk(131, Row131, k, 10); assert EntriesOk(131, Row131, k, 9);
    assert EntriesOk(131, Row131, k, 8); assert EntriesOk(131, Row131, k, 7); assert EntriesOk(131, Row131, k, 6);
    assert EntriesOk(131, Row131, k, 5); assert EntriesOk(131, Row131, k, 4); assert EntriesOk(131, Row131, k, 3);
    assert EntriesOk(131, Row131, k, 2); assert EntriesOk(131, Row131, k, 1); assert EntriesOk(131, Row131, k, 0);
  }

  lemma Row132Ok()
    ensures forall c | c == 132 :: CaseRowOk(c, Row132)
  {
    var k := EdgeCount(Row132);
    assert EntriesOk(132, Row132, k, 14); assert EntriesOk(132, Row132, k, 13); assert EntriesOk(132, Row132, k, 12);
    assert EntriesOk(132, Row132, k, 11); assert EntriesOk(132, Row132, k, 10); assert EntriesOk(132, Row132, k, 9);
    assert EntriesOk(132, Row132, k, 8); assert EntriesOk(132, Row132, k, 7); assert EntriesOk(132, Row132, k, 6);
    assert EntriesOk(132, Row132, k, 5); assert EntriesOk(132, Row132, k, 4); assert EntriesOk(132, Row132, k, 3);
    assert EntriesOk(132, Row132, k, 2); assert EntriesOk(132, Row132, k, 1); assert EntriesOk(132, Row132, k, 0);
  }

  lemma Row133Ok()
    ensures forall c | c == 133 :: CaseRowOk(c, Row133)
  {
    var k := EdgeCount(Row133);
    assert EntriesOk(133, Row133, k, 14); assert EntriesOk(133, Row133, k, 13); assert EntriesOk(133, Row133, k, 12);
    assert EntriesOk(133, Row133, k, 11); assert EntriesOk(133, Row133, k, 10); assert EntriesOk(133, Row133, k, 9);
    assert EntriesOk(133, Row133, k, 8); assert EntriesOk(133, Row133, k, 7); assert EntriesOk(133, Row133, k, 6);
    assert EntriesOk(133, Row133, k, 5); assert EntriesOk(133, Row133, k, 4); assert EntriesOk(133, Row133, k, 3);
    assert EntriesOk(133, Row133, k, 2); assert EntriesOk(133, Row133, k, 1); assert EntriesOk(133, Row133, k, 0);
  }

  lemma Row134Ok()
    ensures forall c | c == 134 :: CaseRowOk(c, Row134)
  {
    var k := EdgeCount(Row134);
    assert EntriesOk(134, Row134, k, 14); assert EntriesOk(134, Row134, k, 13); assert EntriesOk(134, Row134, k, 12);
    assert EntriesOk(134, Row134, k, 11); assert EntriesOk(134, Row134, k, 10); assert EntriesOk(134, Row134, k, 9);
    assert EntriesOk(134, Row134, k, 8); assert EntriesOk(134, Row134, k, 7); assert EntriesOk(134, Row134, k, 6);
    assert EntriesOk(134, Row134, k, 5); assert EntriesOk(134, Row134, k, 4); assert EntriesOk(134, Row134, k, 3);
    assert EntriesOk(134, Row134, k, 2); assert EntriesOk(134, Row134, k, 1); assert EntriesOk(134, Row134, k, 0);
  }

  lemma Row135Ok()
    ensures forall c | c == 135 :: CaseRowOk(c, Row135)
  {
    var k := EdgeCount(Row135);
    assert EntriesOk(135, Row135, k, 14); assert EntriesOk(135, Row135, k, 13); assert EntriesOk(135, Row135, k, 12);
    assert EntriesOk(135, Row135, k, 11); assert EntriesOk(135, Row135, k, 10); assert EntriesOk(135, Row135, k, 9);
    assert EntriesOk(135, Row135, k, 8); assert EntriesOk(135, Row135, k, 7); assert EntriesOk(135, Row135, k, 6);
    assert EntriesOk(135, Row135, k, 5); assert EntriesOk(135, Row135, k, 4); assert EntriesOk(135, Row135, k, 3);
    assert EntriesOk(135, Row135, k, 2); assert EntriesOk(135, Row135, k, 1); assert EntriesOk(135, Row135, k, 0);
  }

  lemma Row136Ok()
    ensures forall c | c == 136 :: CaseRowOk(c, Row136)
  {
    var k := EdgeCount(Row136);
    assert EntriesOk(136, Row136, k, 14); assert EntriesOk(136, Row136, k, 13); assert EntriesOk(136, Row136, k, 12);
    assert EntriesOk(136, Row136, k, 11); assert EntriesOk(136, Row136, k, 10); assert EntriesOk(136, Row136, k, 9);
    assert EntriesOk(136, Row136, k, 8); assert EntriesOk(136, Row136, k, 7); assert EntriesOk(136, Row136, k, 6);
    assert EntriesOk(136, Row136, k, 5); assert EntriesOk(136, Row136, k, 4); assert EntriesOk(136, Row136, k, 3);
    assert EntriesOk(136, Row136, k, 2); assert EntriesOk(136, Row136, k, 1); assert EntriesOk(136, Row136, k, 0);
  }

  lemma Row137Ok()
    ensures forall c | c == 137 :: CaseRowOk(c, Row137)
  {
    var k := EdgeCount(Row137);
    assert EntriesOk(137, Row137, k, 14); assert EntriesOk(137, Row137, k, 13); assert EntriesOk(137, Row137, k, 12);
    assert EntriesOk(137, Row137, k, 11); assert EntriesOk(137, Row137, k, 10); assert EntriesOk(137, Row137, k, 9);
    assert EntriesOk(137, Row137, k, 8); assert EntriesOk(137, Row137, k, 7); assert EntriesOk(137, Row137, k, 6);
    assert EntriesOk(137, Row137, k, 5); assert EntriesOk(137, Row137, k, 4); assert EntriesOk(137, Row137, k, 3);
    assert EntriesOk(137, Row137, k, 2); assert EntriesOk(137, Row137, k, 1); assert EntriesOk(137, Row137, k, 0);
  }

  lemma Row138Ok()
    ensures forall c | c == 138 :: CaseRowOk(c, Row138)
  {
    var k := EdgeCount(Row138);
    assert EntriesOk(138, Row138, k, 14); assert EntriesOk(138, Row138, k, 13); assert EntriesOk(138, Row138, k, 12);
    assert EntriesOk(138, Row138, k, 11); assert EntriesOk(138, Row138, k, 10); assert EntriesOk(138, Row138, k, 9);
    assert EntriesOk(138, Row138, k, 8); assert EntriesOk(138, Row138, k, 7); assert EntriesOk(138, Row138, k, 6);
    assert EntriesOk(138, Row138, k, 5); assert EntriesOk(138, Row138, k, 4); assert EntriesOk(138, Row138, k, 3);
    assert EntriesOk(138, Row138, k, 2); assert EntriesOk(138, Row138, k, 1); assert EntriesOk(138, Row138, k, 0);
  }

  lemma Row139Ok()
    ensures forall c | c == 139 :: CaseRowOk(c, Row139)
  {
    var k := EdgeCount(Row139);
    assert EntriesOk(139, Row139, k, 14); assert EntriesOk(139, Row139, k, 13); assert EntriesOk(139, Row139, k, 12);
    assert EntriesOk(139, Row139, k, 11); assert EntriesOk(139, Row139, k, 10); assert EntriesOk(139, Row139, k, 9);
    assert EntriesOk(139, Row139, k, 8); assert EntriesOk(139, Row139, k, 7); assert EntriesOk(139, Row139, k, 6);
    assert EntriesOk(139, Row139, k, 5); assert EntriesOk(139, Row139, k, 4); assert EntriesOk(139, Row139, k, 3);
    assert EntriesOk(139, Row139, k, 2); assert EntriesOk(139, Row139, k, 1); assert EntriesOk(139, Row139, k, 0);
  }

  lemma Row140Ok()
    ensures forall c | c == 140 :: CaseRowOk(c, Row140)
  {
    var k := EdgeCount(Row140);
    assert EntriesOk(140, Row140, k, 14); assert EntriesOk(140, Row140, k, 13); assert EntriesOk(140, Row140, k, 12);
    assert EntriesOk(140, Row140, k, 11); assert EntriesOk(140, Row140, k, 10); assert EntriesOk(140, Row140, k, 9);
    assert EntriesOk(140, Row140, k, 8); assert EntriesOk(140, Row140, k, 7); assert EntriesOk(140, Row140, k, 6);
    assert EntriesOk(140, Row140, k, 5); assert EntriesOk(140, Row140, k, 4); assert EntriesOk(140, Row140, k, 3);
    assert EntriesOk(140, Row140, k, 2); assert EntriesOk(140, Row140, k, 1); assert EntriesOk(140, Row140, k, 0);
  }

  lemma Row141Ok()
    ensures forall c | c == 141 :: CaseRowOk(c, Row141)
  {
    var k := EdgeCount(Row141);
    assert EntriesOk(141, Row141, k, 14); assert EntriesOk(141, Row141, k, 13); assert EntriesOk(141, Row141, k, 12);
    assert EntriesOk(141, Row141, k, 11); assert EntriesOk(141, Row141, k, 10); assert EntriesOk(141, Row141, k, 9);
    assert EntriesOk(141, Row141, k, 8); assert EntriesOk(141, Row141, k, 7); assert EntriesOk(141, Row141, k, 6);
    assert EntriesOk(141, Row141, k, 5); assert EntriesOk(141, Row141, k, 4); assert EntriesOk(141, Row141, k, 3);
    assert EntriesOk(141, Row141, k, 2); assert EntriesOk(141, Row141, k, 1); assert EntriesOk(141, Row141, k, 0);
  }

  lemma Row142Ok()
    ensures forall c | c == 142 :: CaseRowOk(c, Row142)
  {
    var k := EdgeCount(Row142);
    assert EntriesOk(142, Row142, k, 14); assert EntriesOk(142, Row142, k, 13); assert EntriesOk(142, Row142, k, 12);
    assert EntriesOk(142, Row142, k, 11); assert EntriesOk(142, Row142, k, 10); assert EntriesOk(142, Row142, k, 9);
    assert EntriesOk(142, Row142, k, 8); assert EntriesOk(142, Row142, k, 7); assert EntriesOk(142, Row142, k, 6);
    assert EntriesOk(142, Row142, k, 5); assert EntriesOk(142, Row142, k, 4); assert EntriesOk(142, Row142, k, 3);
    assert EntriesOk(142, Row142, k, 2); assert EntriesOk(142, Row142, k, 1); assert EntriesOk(142, Row142, k, 0);
  }

  lemma Row143Ok()
    ensures forall c | c == 143 :: CaseRowOk(c, Row143)
  {
    var k := EdgeCount(Row143);
    assert EntriesOk(143, Row143, k, 14); assert EntriesOk(143, Row143, k, 13); assert EntriesOk(143, Row143, k, 12);
    assert EntriesOk(143, Row143, k, 11); assert EntriesOk(143, Row143, k, 10); assert EntriesOk(143, Row143, k, 9);
    assert EntriesOk(143, Row143, k, 8); assert EntriesOk(143, Row143, k, 7); assert EntriesOk(143, Row143, k, 6);
    assert EntriesOk(143, Row143, k, 5); assert EntriesOk(143, Row143, k, 4); assert EntriesOk(143, Row143, k, 3);
    assert EntriesOk(143, Row143, k, 2); assert EntriesOk(143, Row143, k, 1); assert EntriesOk(143, Row143, k, 0);
  }

  lemma Row144Ok()
    ensures forall c | c == 144 :: CaseRowOk(c, Row144)
  {
    var k := EdgeCount(Row144);
    assert EntriesOk(144, Row144, k, 14); assert EntriesOk(144, Row144, k, 13); assert EntriesOk(144, Row144, k, 12);
    assert EntriesOk(144, Row144, k, 11); assert EntriesOk(144, Row144, k, 10); assert EntriesOk(144, Row144, k, 9);
    assert EntriesOk(144, Row144, k, 8); assert EntriesOk(144, Row144, k, 7); assert EntriesOk(144, Row144, k, 6);
    assert EntriesOk(144, Row144, k, 5); assert EntriesOk(144, Row144, k, 4); assert EntriesOk(144, Row144, k, 3);
    assert EntriesOk(144, Row144, k, 2); assert EntriesOk(144, Row144, k, 1); assert EntriesOk(144, Row144, k, 0);
  }

  lemma Row145Ok()
    ensures forall c | c == 145 :: CaseRowOk(c, Row145)
  {
    var k := EdgeCount(Row145);
    assert EntriesOk(145, Row145, k, 14); assert EntriesOk(145, Row145, k, 13); assert EntriesOk(145, Row145, k, 12);
    assert EntriesOk(145, Row145, k, 11); assert EntriesOk(145, Row145, k, 10); assert EntriesOk(145, Row145, k, 9);
    assert EntriesOk(145, Row145, k, 8); assert EntriesOk(145, Row145, k, 7); assert EntriesOk(145, Row145, k, 6);
    assert EntriesOk(145, Row145, k, 5); assert EntriesOk(145, Row145, k, 4); assert EntriesOk(145, Row145, k, 3);
    assert EntriesOk(145, Row145, k, 2); assert EntriesOk(145, Row145, k, 1); assert EntriesOk(145, Row145, k, 0);
  }

  lemma Row146Ok()
    ensures forall c | c == 146 :: CaseRowOk(c, Row146)
  {
    var k := EdgeCount(Row146);
    assert EntriesOk(146, Row146, k, 14); assert EntriesOk(146, Row146, k, 13); assert EntriesOk(146, Row146, k, 12);
    assert EntriesOk(146, Row146, k, 11); assert EntriesOk(146, Row146, k, 10); assert EntriesOk(146, Row146, k, 9);
    assert EntriesOk(146, Row146, k, 8); assert EntriesOk(146, Row146, k, 7); assert EntriesOk(146, Row146, k, 6);
    assert EntriesOk(146, Row146, k, 5); assert EntriesOk(146, Row146, k, 4); assert EntriesOk(146, Row146, k, 3);
    assert EntriesOk(146, Row146, k, 2); assert EntriesOk(146, Row146, k, 1); assert EntriesOk(146, Row146, k, 0);
  }

  lemma Row147Ok()
    ensures forall c | c == 147 :: CaseRowOk(c, Row147)
  {
    var k := EdgeCount(Row147);
    assert EntriesOk(147, Row147, k, 14); assert EntriesOk(147, Row147, k, 13); assert EntriesOk(147, Row147, k, 12);
    assert EntriesOk(147, Row147, k, 11); assert EntriesOk(147, Row147, k, 10); assert EntriesOk(147, Row147, k, 9);
    assert EntriesOk(147, Row147, k, 8); assert EntriesOk(147, Row147, k, 7); assert EntriesOk(147, Row147, k, 6);
    assert EntriesOk(147, Row147, k, 5); assert EntriesOk(147, Row147, k, 4); assert EntriesOk(147, Row147, k, 3);
    assert EntriesOk(147, Row147, k, 2); assert EntriesOk(147, Row147, k, 1); assert EntriesOk(147, Row147, k, 0);
  }

  lemma Row148Ok()
    ensures forall c | c == 148 :: CaseRowOk(c, Row148)
  {
    var k := EdgeCount(Row148);
    assert EntriesOk(148, Row148, k, 14); assert EntriesOk(148, Row148, k, 13); assert EntriesOk(148, Row148, k, 12);
    assert EntriesOk(148, Row148, k, 11); assert EntriesOk(148, Row148, k, 10); assert EntriesOk(148, Row148, k, 9);
    assert EntriesOk(148, Row148, k, 8); assert EntriesOk(148, Row148, k, 7); assert EntriesOk(148, Row148, k, 6);
    assert EntriesOk(148, Row148, k, 5); assert EntriesOk(148, Row148, k, 4); assert EntriesOk(148, Row148, k, 3);
    assert EntriesOk(148, Row148, k, 2); assert EntriesOk(148, Row148, k, 1); assert EntriesOk(148, Row148, k, 0);
  }

  lemma Row149Ok()
    ensures forall c | c == 149 :: CaseRowOk(c, Row149)
  {
    var k := EdgeCount(Row149);
    assert EntriesOk(149, Row149, k, 14); assert EntriesOk(149, Row149, k, 13); assert EntriesOk(149, Row149, k, 12);
    assert EntriesOk(149, Row149, k, 11); assert EntriesOk(149, Row149, k, 10); assert EntriesOk(149, Row149, k, 9);
    assert EntriesOk(149, Row149, k, 8); assert EntriesOk(149, Row149, k, 7); assert EntriesOk(149, Row149, k, 6);
    assert EntriesOk(149, Row149, k, 5); assert EntriesOk(149, Row149, k, 4); assert EntriesOk(149, Row149, k, 3);
    assert EntriesOk(149, Row149, k, 2); assert EntriesOk(149, Row149, k, 1); assert EntriesOk(149, Row149, k, 0);
  }

  lemma Row150Ok()
    ensures forall c | c == 150 :: CaseRowOk(c, Row150)
  {
    var k := EdgeCount(Row150);
    assert EntriesOk(150, Row150, k, 14); assert EntriesOk(150, Row150, k, 13); assert EntriesOk(150, Row150, k, 12);
    assert EntriesOk(150, Row150, k, 11); assert EntriesOk(150, Row150, k, 10); assert EntriesOk(150, Row150, k, 9);
    assert EntriesOk(150, Row150, k, 8); assert EntriesOk(150, Row150, k, 7); assert EntriesOk(150, Row150, k, 6);
    assert EntriesOk(150, Row150, k, 5); assert EntriesOk(150, Row150, k, 4); assert EntriesOk(150, Row150, k, 3);
    assert EntriesOk(150, Row150, k, 2); assert EntriesOk(150, Row150, k, 1); assert EntriesOk(150, Row150, k, 0);
  }

  lemma Row151Ok()
    ensures forall c | c == 151 :: CaseRowOk(c, Row151)
  {
    var k := EdgeCount(Row151);
    assert EntriesOk(151, Row151, k, 14); assert EntriesOk(151, Row151, k, 13); assert EntriesOk(151, Row151, k, 12);
    assert EntriesOk(151, Row151, k, 11); assert EntriesOk(151, Row151, k, 10); assert EntriesOk(151, Row151, k, 9);
    assert EntriesOk(151, Row151, k, 8); assert EntriesOk(151, Row151, k, 7); assert EntriesOk(151, Row151, k, 6);
    assert EntriesOk(151, Row151, k, 5); assert EntriesOk(151, Row151, k, 4); assert EntriesOk(151, Row151, k, 3);
    assert EntriesOk(151, Row151, k, 2); assert EntriesOk(151, Row151, k, 1); assert EntriesOk(151, Row151, k, 0);
  }

  lemma Row152Ok()
    ensures forall c | c == 152 :: CaseRowOk(c, Row152)
  {
    var k := EdgeCount(Row152);
    assert EntriesOk(152, Row152, k, 14); assert EntriesOk(152, Row152, k, 13); assert EntriesOk(152, Row152, k, 12);
    assert EntriesOk(152, Row152, k, 11); assert EntriesOk(152, Row152, k, 10); assert EntriesOk(152, Row152, k, 9);
    assert EntriesOk(152, Row152, k, 8); assert EntriesOk(152, Row152, k, 7); assert EntriesOk(152, Row152, k, 6);
    assert EntriesOk(152, Row152, k, 5); assert EntriesOk(152, Row152, k, 4); assert EntriesOk(152, Row152, k, 3);
    assert EntriesOk(152, Row152, k, 2); assert EntriesOk(152, Row152, k, 1); assert EntriesOk(152, Row152, k, 0);
  }

  lemma Row153Ok()
    ensures forall c | c == 153 :: CaseRowOk(c, Row153)
  {
    var k := EdgeCount(Row153);
    assert EntriesOk(153, Row153, k, 14); assert EntriesOk(153, Row153, k, 13); assert EntriesOk(153, Row153, k, 12);
    assert EntriesOk(153, Row153, k, 11); assert EntriesOk(153, Row153, k, 10); assert EntriesOk(153, Row153, k, 9);
    assert EntriesOk(153, Row153, k, 8); assert EntriesOk(153, Row153, k, 7); assert EntriesOk(153, Row153, k, 6);
    assert EntriesOk(153, Row153, k, 5); assert EntriesOk(153, Row153, k, 4); assert EntriesOk(153, Row153, k, 3);
    assert EntriesOk(153, Row153, k, 2); assert EntriesOk(153, Row153, k, 1); assert EntriesOk(153, Row153, k, 0);
  }

  lemma Row154Ok()
    ensures forall c | c == 154 :: CaseRowOk(c, Row154)
  {
    var k := EdgeCount(Row154);
    assert EntriesOk(154, Row154, k, 14); assert EntriesOk(154, Row154, k, 13); assert EntriesOk(154, Row154, k, 12);
    assert EntriesOk(154, Row154, k, 11); assert EntriesOk(154, Row154, k, 10); assert EntriesOk(154, Row154, k, 9);
    assert EntriesOk(154, Row154, k, 8); assert EntriesOk(154, Row154, k, 7); assert EntriesOk(154, Row154, k, 6);
    assert EntriesOk(154, Row154, k, 5); assert EntriesOk(154, Row154, k, 4); assert EntriesOk(154, Row154, k, 3);
    assert EntriesOk(154, Row154, k, 2); assert EntriesOk(154, Row154, k, 1); assert EntriesOk(154, Row154, k, 0);
  }

  lemma Row155Ok()
    ensures forall c | c == 155 :: CaseRowOk(c, Row155)
  {
    var k := EdgeCount(Row155);
    assert EntriesOk(155, Row155, k, 14); assert EntriesOk(155, Row155, k, 13); assert EntriesOk(155, Row155, k, 12);
    assert EntriesOk(155, Row155, k, 11); assert EntriesOk(155, Row155, k, 10); assert EntriesOk(155, Row155, k, 9);
    assert EntriesOk(155, Row155, k, 8); assert EntriesOk(155, Row155, k, 7); assert EntriesOk(155, Row155, k, 6);
    assert EntriesOk(155, Row155, k, 5); assert EntriesOk(155, Row155, k, 4); assert EntriesOk(155, Row155, k, 3);
    assert EntriesOk(155, Row155, k, 2); assert EntriesOk(155, Row155, k, 1); assert EntriesOk(155, Row155, k, 0);
  }

  lemma Row156Ok()
    ensures forall c | c == 156 :: CaseRowOk(c, Row156)
  {
    var k := EdgeCount(Row156);
    assert EntriesOk(156, Row156, k, 14); assert EntriesOk(156, Row156, k, 13); assert EntriesOk(156, Row156, k, 12);
    assert EntriesOk(156, Row156, k, 11); assert EntriesOk(156, Row156, k, 10); assert EntriesOk(156, Row156, k, 9);
    assert EntriesOk(156, Row156, k, 8); assert EntriesOk(156, Row156, k, 7); assert EntriesOk(156, Row156, k, 6);
    assert EntriesOk(156, Row156, k, 5); assert EntriesOk(156, Row156, k, 4); assert EntriesOk(156, Row156, k, 3);
    assert EntriesOk(156, Row156, k, 2); assert EntriesOk(156, Row156, k, 1); assert EntriesOk(156, Row156, k, 0);
  }

  lemma Row157Ok()
    ensures forall c | c == 157 :: CaseRowOk(c, Row157)
  {
    var k := EdgeCount(Row157);
    assert EntriesOk(157, Row157, k, 14); assert EntriesOk(157, Row157, k, 13); assert EntriesOk(157, Row157, k, 12);
    assert EntriesOk(157, Row157, k, 11); assert EntriesOk(157, Row157, k, 10); assert EntriesOk(157, Row157, k, 9);
    assert EntriesOk(157, Row157, k, 8); assert EntriesOk(157, Row157, k, 7); assert EntriesOk(157, Row157, k, 6);
    assert EntriesOk(157, Row157, k, 5); assert EntriesOk(157, Row157, k, 4); assert EntriesOk(157, Row157, k, 3);
    assert EntriesOk(157, Row157, k, 2); assert EntriesOk(157, Row157, k, 1); assert EntriesOk(157, Row157, k, 0);
  }

  lemma Row158Ok()
    ensures forall c | c == 158 :: CaseRowOk(c, Row158)
  {
    var k := EdgeCount(Row158);
    assert EntriesOk(158, Row158, k, 14); assert EntriesOk(158, Row158, k, 13); assert EntriesOk(158, Row158, k, 12);
    assert EntriesOk(158, Row158, k, 11); assert EntriesOk(158, Row158, k, 10); assert EntriesOk(158, Row158, k, 9);
    assert EntriesOk(158, Row158, k, 8); assert EntriesOk(158, Row158, k, 7); assert EntriesOk(158, Row158, k, 6);
    assert EntriesOk(158, Row158, k, 5); assert EntriesOk(158, Row158, k, 4); assert EntriesOk(158, Row158, k, 3);
    assert EntriesOk(158, Row158, k, 2); assert EntriesOk(158, Row158, k, 1); assert EntriesOk(158, Row158, k, 0);
  }

  lemma Row159Ok()
    ensures forall c | c == 159 :: CaseRowOk(c, Row159)
  {
    var k := EdgeCount(Row159);
    assert EntriesOk(159, Row159, k, 14); assert EntriesOk(159, Row159, k, 13); assert EntriesOk(159, Row159, k, 12);
    assert EntriesOk(159, Row159, k, 11); assert EntriesOk(159, Row159, k, 10); assert EntriesOk(159, Row159, k, 9);
    assert EntriesOk(159, Row159, k, 8); assert EntriesOk(159, Row159, k, 7); assert EntriesOk(159, Row159, k, 6);
    assert EntriesOk(159, Row159, k, 5); assert EntriesOk(159, Row159, k, 4); assert EntriesOk(159, Row159, k, 3);
    assert EntriesOk(159, Row159, k, 2); assert EntriesOk(159, Row159, k, 1); assert EntriesOk(159, Row159, k, 0);
  }

  lemma Row160Ok()
    ensures forall c | c == 160 :: CaseRowOk(c, Row160)
  {
    var k := EdgeCount(Row160);
    assert EntriesOk(160, Row160, k, 14); assert EntriesOk(160, Row160, k, 13); assert EntriesOk(160, Row160, k, 12);
    assert EntriesOk(160, Row160, k, 11); assert EntriesOk(160, Row160, k, 10); assert EntriesOk(160, Row160, k, 9);
    assert EntriesOk(160, Row160, k, 8); assert EntriesOk(160, Row160, k, 7); assert EntriesOk(160, Row160, k, 6);
    assert EntriesOk(160, Row160, k, 5); assert EntriesOk(160, Row160, k, 4); assert EntriesOk(160, Row160, k, 3);
    assert EntriesOk(160, Row160, k, 2); assert EntriesOk(160, Row160, k, 1); assert EntriesOk(160, Row160, k, 0);
  }

  lemma Row161Ok()
    ensures forall c | c == 161 :: CaseRowOk(c, Row161)
  {
    var k := EdgeCount(Row161);
    assert EntriesOk(161, Row161, k, 14); assert EntriesOk(161, Row161, k, 13); assert EntriesOk(161, Row161, k, 12);
    assert EntriesOk(161, Row161, k, 11); assert EntriesOk(161, Row161, k, 10); assert EntriesOk(161, Row161, k, 9);
    assert EntriesOk(161, Row161, k, 8); assert EntriesOk(161, Row161, k, 7); assert EntriesOk(161, Row161, k, 6);
    assert EntriesOk(161, Row161, k, 5); assert EntriesOk(161, Row161, k, 4); assert EntriesOk(161, Row161, k, 3);
    assert EntriesOk(161, Row161, k, 2); assert EntriesOk(161, Row161, k, 1); assert EntriesOk(161, Row161, k, 0);
  }

  lemma Row162Ok()
    ensures forall c | c == 162 :: CaseRowOk(c, Row162)
  {
    var k := EdgeCount(Row162);
    assert EntriesOk(162, Row162, k, 14); assert EntriesOk(162, Row162, k, 13); assert EntriesOk(162, Row162, k, 12);
    assert EntriesOk(162, Row162, k, 11); assert EntriesOk(162, Row162, k, 10); assert EntriesOk(162, Row162, k, 9);
    assert EntriesOk(162, Row162, k, 8); assert EntriesOk(162, Row162, k, 7); assert EntriesOk(162, Row162, k, 6);
    assert EntriesOk(162, Row162, k, 5); assert EntriesOk(162, Row162, k, 4); assert EntriesOk(162, Row162, k, 3);
    assert EntriesOk(162, Row162, k, 2); assert EntriesOk(162, Row162, k, 1); assert EntriesOk(162, Row162, k, 0);
  }

  lemma Row163Ok()
    ensures forall c | c == 163 :: CaseRowOk(c, Row163)
  {
    var k := EdgeCount(Row163);
    assert EntriesOk(163, Row163, k, 14); assert EntriesOk(163, Row163, k, 13); assert EntriesOk(163, Row163, k, 12);
    assert EntriesOk(163, Row163, k, 11); assert EntriesOk(163, Row163, k, 10); assert EntriesOk(163, Row163, k, 9);
    assert EntriesOk(163, Row163, k, 8); assert EntriesOk(163, Row163, k, 7); assert EntriesOk(163, Row163, k, 6);
    assert EntriesOk(163, Row163, k, 5); assert EntriesOk(163, Row163, k, 4); assert EntriesOk(163, Row163, k, 3);
    assert EntriesOk(163, Row163, k, 2); assert EntriesOk(163, Row163, k, 1); assert EntriesOk(163, Row163, k, 0);
  }

  lemma Row164Ok()
    ensures forall c | c == 164 :: CaseRowOk(c, Row164)
  {
    var k := EdgeCount(Row164);
    assert EntriesOk(164, Row164, k, 14); assert EntriesOk(164, Row164, k, 13); assert EntriesOk(164, Row164, k, 12);
    assert EntriesOk(164, Row164, k, 11); assert EntriesOk(164, Row164, k, 10); assert EntriesOk(164, Row164, k, 9);
    assert EntriesOk(164, Row164, k, 8); assert EntriesOk(164, Row164, k, 7); assert EntriesOk(164, Row164, k, 6);
    assert EntriesOk(164, Row164, k, 5); assert EntriesOk(164, Row164, k, 4); assert EntriesOk(164, Row164, k, 3);
    assert EntriesOk(164, Row164, k, 2); assert EntriesOk(164, Row164, k, 1); assert EntriesOk(164, Row164, k, 0);
  }

  lemma Row165Ok()
    ensures forall c | c == 165 :: CaseRowOk(c, Row165)
  {
    var k := EdgeCount(Row165);
    assert EntriesOk(165, Row165, k, 14); assert EntriesOk(165, Row165, k, 13); assert EntriesOk(165, Row165, k, 12);
    assert EntriesOk(165, Row165, k, 11); assert EntriesOk(165, Row165, k, 10); assert EntriesOk(165, Row165, k, 9);
    assert EntriesOk(165, Row165, k, 8); assert EntriesOk(165, Row165, k, 7); assert EntriesOk(165, Row165, k, 6);
    assert EntriesOk(165, Row165, k, 5); assert EntriesOk(165, Row165, k, 4); assert EntriesOk(165, Row165, k, 3);
    assert EntriesOk(165, Row165, k, 2); assert EntriesOk(165, Row165, k, 1); assert EntriesOk(165, Row165, k, 0);
  }

  lemma Row166Ok()
    ensures forall c | c == 166 :: CaseRowOk(c, Row166)
  {
    var k := EdgeCount(Row166);
    assert EntriesOk(166, Row166, k, 14); assert EntriesOk(166, Row166, k, 13); assert EntriesOk(166, Row166, k, 12);
    assert EntriesOk(166, Row166, k, 11); assert EntriesOk(166, Row166, k, 10); assert EntriesOk(166, Row166, k, 9);
    assert EntriesOk(166, Row166, k, 8); assert EntriesOk(166, Row166, k, 7); assert EntriesOk(166, Row166, k, 6);
    assert EntriesOk(166, Row166, k, 5); assert EntriesOk(166, Row166, k, 4); assert EntriesOk(166, Row166, k, 3);
    assert EntriesOk(166, Row166, k, 2); assert EntriesOk(166, Row166, k, 1); assert EntriesOk(166, Row166, k, 0);
  }

  lemma Row167Ok()
    ensures forall c | c == 167 :: CaseRowOk(c, Row167)
  {
    var k := EdgeCount(Row167);
    assert EntriesOk(167, Row167, k, 14); assert EntriesOk(167, Row167, k, 13); assert EntriesOk(167, Row167, k, 12);
    assert EntriesOk(167, Row167, k, 11); assert EntriesOk(167, Row167, k, 10); assert EntriesOk(167, Row167, k, 9);
    assert EntriesOk(167, Row167, k, 8); assert EntriesOk(167, Row167, k, 7); assert EntriesOk(167, Row167, k, 6);
    assert EntriesOk(167, Row167, k, 5); assert EntriesOk(167, Row167, k, 4); assert EntriesOk(167, Row167, k, 3);
    assert EntriesOk(167, Row167, k, 2); assert EntriesOk(167, Row167, k, 1); assert EntriesOk(167, Row167, k, 0);
  }

  lemma Row168Ok()
    ensures forall c | c == 168 :: CaseRowOk(c, Row168)
  {
    var k := EdgeCount(Row168);
    assert EntriesOk(168, Row168, k, 14); assert EntriesOk(168, Row168, k, 13); assert EntriesOk(168, Row168, k, 12);
    assert EntriesOk(168, Row168, k, 11); assert EntriesOk(168, Row168, k, 10); assert EntriesOk(168, Row168, k, 9);
    assert EntriesOk(168, Row168, k, 8); assert EntriesOk(168, Row168, k, 7); assert EntriesOk(168, Row168, k, 6);
    assert EntriesOk(168, Row168, k, 5); assert EntriesOk(168, Row168, k, 4); assert EntriesOk(168, Row168, k, 3);
    assert EntriesOk(168, Row168, k, 2); assert EntriesOk(168, Row168, k, 1); assert EntriesOk(168, Row168, k, 0);
  }

  lemma Row169Ok()
    ensures forall c | c == 169 :: CaseRowOk(c, Row169)
  {
    var k := EdgeCount(Row169);
    assert EntriesOk(169, Row169, k, 14); assert EntriesOk(169, Row169, k, 13); assert EntriesOk(169, Row169, k, 12);
    assert EntriesOk(169, Row169, k, 11); assert EntriesOk(169, Row169, k, 10); assert EntriesOk(169, Row169, k, 9);
    assert EntriesOk(169, Row169, k, 8); assert EntriesOk(169, Row169, k, 7); assert EntriesOk(169, Row169, k, 6);
    assert EntriesOk(169, Row169, k, 5); assert EntriesOk(169, Row169, k, 4); assert EntriesOk(169, Row169, k, 3);
    assert EntriesOk(169, Row169, k, 2); assert EntriesOk(169, Row169, k, 1); assert EntriesOk(169, Row169, k, 0);
  }

  lemma Row170Ok()
    ensures forall c | c == 170 :: CaseRowOk(c, Row170)
  {
    var k := EdgeCount(Row170);
    assert EntriesOk(170, Row170, k, 14); assert EntriesOk(170, Row170, k, 13); assert EntriesOk(170, Row170, k, 12);
    assert EntriesOk(170, Row170, k, 11); assert EntriesOk(170, Row170, k, 10); assert EntriesOk(170, Row170, k, 9);
    assert EntriesOk(170, Row170, k, 8); assert EntriesOk(170, Row170, k, 7); assert EntriesOk(170, Row170, k, 6);
    assert EntriesOk(170, Row170, k, 5); assert EntriesOk(170, Row170, k, 4); assert EntriesOk(170, Row170, k, 3);
    assert EntriesOk(170, Row170, k, 2); assert EntriesOk(170, Row170, k, 1); assert EntriesOk(170, Row170, k, 0);
  }

  lemma Row171Ok()
    ensures forall c | c == 171 :: CaseRowOk(c, Row171)
  {
    var k := EdgeCount(Row171);
    assert EntriesOk(171, Row171, k, 14); assert EntriesOk(171, Row171, k, 13); assert EntriesOk(171, Row171, k, 12);
    assert EntriesOk(171, Row171, k, 11); assert EntriesOk(171, Row171, k, 10); assert EntriesOk(171, Row171, k, 9);
    assert EntriesOk(171, Row171, k, 8); assert EntriesOk(171, Row171, k, 7); assert EntriesOk(171, Row171, k, 6);
    assert EntriesOk(171, Row171, k, 5); assert EntriesOk(171, Row171, k, 4); assert EntriesOk(171, Row171, k, 3);
    assert EntriesOk(171, Row171, k, 2); assert EntriesOk(171, Row171, k, 1); assert EntriesOk(171, Row171, k, 0);
  }

  lemma Row172Ok()
    ensures forall c | c == 172 :: CaseRowOk(c, Row172)
  {
    var k := EdgeCount(Row172);
    assert EntriesOk(172, Row172, k, 14); assert EntriesOk(172, Row172, k, 13); assert EntriesOk(172, Row172, k, 12);
    assert EntriesOk(172, Row172, k, 11); assert EntriesOk(172, Row172, k, 10); assert EntriesOk(172, Row172, k, 9);
    assert EntriesOk(172, Row172, k, 8); assert EntriesOk(172, Row172, k, 7); assert EntriesOk(172, Row172, k, 6);
    assert EntriesOk(172, Row172, k, 5); assert EntriesOk(172, Row172, k, 4); assert EntriesOk(172, Row172, k, 3);
    assert EntriesOk(172, Row172, k, 2); assert EntriesOk(172, Row172, k, 1); assert EntriesOk(172, Row172, k, 0);
  }

  lemma Row173Ok()
    ensures forall c | c == 173 :: CaseRowOk(c, Row173)
  {
    var k := EdgeCount(Row173);
    assert EntriesOk(173, Row173, k, 14); assert EntriesOk(173, Row173, k, 13); assert EntriesOk(173, Row173, k, 12);
    assert EntriesOk(173, Row173, k, 11); assert EntriesOk(173, Row173, k, 10); assert EntriesOk(173, Row173, k, 9);
    assert EntriesOk(173, Row173, k, 8); assert EntriesOk(173, Row173, k, 7); assert EntriesOk(173, Row173, k, 6);
    assert EntriesOk(173, Row173, k, 5); assert EntriesOk(173, Row173, k, 4); assert EntriesOk(173, Row173, k, 3);
    assert EntriesOk(173, Row173, k, 2); assert EntriesOk(173, Row173, k, 1); assert EntriesOk(173, Row173, k, 0);
  }

  lemma Row174Ok()
    ensures forall c | c == 174 :: CaseRowOk(c, Row174)
  {
    var k := EdgeCount(Row174);
    assert EntriesOk(174, Row174, k, 14); assert EntriesOk(174, Row174, k, 13); assert EntriesOk(174, Row174, k, 12);
    assert EntriesOk(174, Row174, k, 11); assert EntriesOk(174, Row174, k, 10); assert EntriesOk(174, Row174, k, 9);
    assert EntriesOk(174, Row174, k, 8); assert EntriesOk(174, Row174, k, 7); assert EntriesOk(174, Row174, k, 6);
    assert EntriesOk(174, Row174, k, 5); assert EntriesOk(174, Row174, k, 4); assert EntriesOk(174, Row174, k, 3);
    assert EntriesOk(174, Row174, k, 2); assert EntriesOk(174, Row174, k, 1); assert EntriesOk(174, Row174, k, 0);
  }

  lemma Row175Ok()
    ensures forall c | c == 175 :: CaseRowOk(c, Row175)
  {
    var k := EdgeCount(Row175);
    assert EntriesOk(175, Row175, k, 14); assert EntriesOk(175, Row175, k, 13); assert EntriesOk(175, Row175, k, 12);
    assert EntriesOk(175, Row175, k, 11); assert EntriesOk(175, Row175, k, 10); assert EntriesOk(175, Row175, k, 9);
    assert EntriesOk(175, Row175, k, 8); assert EntriesOk(175, Row175, k, 7); assert EntriesOk(175, Row175, k, 6);
    assert EntriesOk(175, Row175, k, 5); assert EntriesOk(175, Row175, k, 4); assert EntriesOk(175, Row175, k, 3);
    assert EntriesOk(175, Row175, k, 2); assert EntriesOk(175, Row175, k, 1); assert EntriesOk(175, Row175, k, 0);
  }

  lemma Row176Ok()
    ensures forall c | c == 176 :: CaseRowOk(c, Row176)
  {
    var k := EdgeCount(Row176);
    assert EntriesOk(176, Row176, k, 14); assert EntriesOk(176, Row176, k, 13); assert EntriesOk(176, Row176, k, 12);
    assert EntriesOk(176, Row176, k, 11); assert EntriesOk(176, Row176, k, 10); assert EntriesOk(176, Row176, k, 9);
    assert EntriesOk(176, Row176, k, 8); assert EntriesOk(176, Row176, k, 7); assert EntriesOk(176, Row176, k, 6);
    assert EntriesOk(176, Row176, k, 5); assert EntriesOk(176, Row176, k, 4); assert EntriesOk(176, Row176, k, 3);
    assert EntriesOk(176, Row176, k, 2); assert EntriesOk(176, Row176, k, 1); assert EntriesOk(176, Row176, k, 0);
  }

  lemma Row177Ok()
    ensures forall c | c == 177 :: CaseRowOk(c, Row177)
  {
    var k := EdgeCount(Row177);
    assert EntriesOk(177, Row177, k, 14); assert EntriesOk(177, Row177, k, 13); assert EntriesOk(177, Row177, k, 12);
    assert EntriesOk(177, Row177, k, 11); assert EntriesOk(177, Row177, k, 10); assert EntriesOk(177, Row177, k, 9);
    assert EntriesOk(177, Row177, k, 8); assert EntriesOk(177, Row177, k, 7); assert EntriesOk(177, Row177, k, 6);
    assert EntriesOk(177, Row177, k, 5); assert EntriesOk(177, Row177, k, 4); assert EntriesOk(177, Row177, k, 3);
    assert EntriesOk(177, Row177, k, 2); assert EntriesOk(177, Row177, k, 1); assert EntriesOk(177, Row177, k, 0);
  }

  lemma Row178Ok()
    ensures forall c | c == 178 :: CaseRowOk(c, Row178)
  {
    var k := EdgeCount(Row178);
    assert EntriesOk(178, Row178, k, 14); assert EntriesOk(178, Row178, k, 13); assert EntriesOk(178, Row178, k, 12);
    assert EntriesOk(178, Row178, k, 11); assert EntriesOk(178, Row178, k, 10); assert EntriesOk(178, Row178, k, 9);
    assert EntriesOk(178, Row178, k, 8); assert EntriesOk(178, Row178, k, 7); assert EntriesOk(178, Row178, k, 6);
    assert EntriesOk(178, Row178, k, 5); assert EntriesOk(178, Row178, k, 4); assert EntriesOk(178, Row178, k, 3);
    assert EntriesOk(178, Row178, k, 2); assert EntriesOk(178, Row178, k, 1); assert EntriesOk(178, Row178, k, 0);
  }

  lemma Row179Ok()
    ensures forall c | c == 179 :: CaseRowOk(c, Row179)
  {
    var k := EdgeCount(Row179);
    assert EntriesOk(179, Row179, k, 14); assert EntriesOk(179, Row179, k, 13); assert EntriesOk(179, Row179, k, 12);
    assert EntriesOk(179, Row179, k, 11); assert EntriesOk(179, Row179, k, 10); assert EntriesOk(179, Row179, k, 9);
    assert EntriesOk(179, Row179, k, 8); assert EntriesOk(179, Row179, k, 7); assert EntriesOk(179, Row179, k, 6);
    assert EntriesOk(179, Row179, k, 5); assert EntriesOk(179, Row179, k, 4); assert EntriesOk(179, Row179, k, 3);
    assert EntriesOk(179, Row179, k, 2); assert EntriesOk(179, Row179, k, 1); assert EntriesOk(179, Row179, k, 0);
  }

  lemma Row180Ok()
    ensures forall c | c == 180 :: CaseRowOk(c, Row180)
  {
    var k := EdgeCount(Row180);
    assert EntriesOk(180, Row180, k, 14); assert EntriesOk(180, Row180, k, 13); assert EntriesOk(180, Row180, k, 12);
    assert EntriesOk(180, Row180, k, 11); assert EntriesOk(180, Row180, k, 10); assert EntriesOk(180, Row180, k, 9);
    assert EntriesOk(180, Row180, k, 8); assert EntriesOk(180, Row180, k, 7); assert EntriesOk(180, Row180, k, 6);
    assert EntriesOk(180, Row180, k, 5); assert EntriesOk(180, Row180, k, 4); assert EntriesOk(180, Row180, k, 3);
    assert EntriesOk(180, Row180, k, 2); assert EntriesOk(180, Row180, k, 1); assert EntriesOk(180, Row180, k, 0);
  }

  lemma Row181Ok()
    ensures forall c | c == 181 :: CaseRowOk(c, Row181)
  {
    var k := EdgeCount(Row181);
    assert EntriesOk(181, Row181, k, 14); assert EntriesOk(181, Row181, k, 13); assert EntriesOk(181, Row181, k, 12);
    assert EntriesOk(181, Row181, k, 11); assert EntriesOk(181, Row181, k, 10); assert EntriesOk(181, Row181, k, 9);
    assert EntriesOk(181, Row181, k, 8); assert EntriesOk(181, Row181, k, 7); assert EntriesOk(181, Row181, k, 6);
    assert EntriesOk(181, Row181, k, 5); assert EntriesOk(181, Row181, k, 4); assert EntriesOk(181, Row181, k, 3);
    assert EntriesOk(181, Row181, k, 2); assert EntriesOk(181, Row181, k, 1); assert EntriesOk(181, Row181, k, 0);
  }

  lemma Row182Ok()
    ensures forall c | c == 182 :: CaseRowOk(c, Row182)
  {
    var k := EdgeCount(Row182);
    assert EntriesOk(182, Row182, k, 14); assert EntriesOk(182, Row182, k, 13); assert EntriesOk(182, Row182, k, 12);
    assert EntriesOk(182, Row182, k, 11); assert EntriesOk(182, Row182, k, 10); assert EntriesOk(182, Row182, k, 9);
    assert EntriesOk(182, Row182, k, 8); assert EntriesOk(182, Row182, k, 7); assert EntriesOk(182, Row182, k, 6);
    assert EntriesOk(182, Row182, k, 5); assert EntriesOk(182, Row182, k, 4); assert EntriesOk(182, Row182, k, 3);
    assert EntriesOk(182, Row182, k, 2); assert EntriesOk(182, Row182, k, 1); assert EntriesOk(182, Row182, k, 0);
  }

  lemma Row183Ok()
    ensures forall c | c == 183 :: CaseRowOk(c, Row183)
  {
    var k := EdgeCount(Row183);
    assert EntriesOk(183, Row183, k, 14); assert EntriesOk(183, Row183, k, 13); assert EntriesOk(183, Row183, k, 12);
    assert EntriesOk(183, Row183, k, 11); assert EntriesOk(183, Row183, k, 10); assert EntriesOk(183, Row183, k, 9);
    assert EntriesOk(183, Row183, k, 8); assert EntriesOk(183, Row183, k, 7); assert EntriesOk(183, Row183, k, 6);
    assert EntriesOk(183, Row183, k, 5); assert EntriesOk(183, Row183, k, 4); assert EntriesOk(183, Row183, k, 3);
    assert EntriesOk(183, Row183, k, 2); assert EntriesOk(183, Row183, k, 1); assert EntriesOk(183, Row183, k, 0);
  }

  lemma Row184Ok()
    ensures forall c | c == 184 :: CaseRowOk(c, Row184)
  {
    var k := EdgeCount(Row184);
    assert EntriesOk(184, Row184, k, 14); assert EntriesOk(184, Row184, k, 13); assert EntriesOk(184, Row184, k, 12);
    assert EntriesOk(184, Row184, k, 11); assert EntriesOk(184, Row184, k, 10); assert EntriesOk(184, Row184, k, 9);
    assert EntriesOk(184, Row184, k, 8); assert EntriesOk(184, Row184, k, 7); assert EntriesOk(184, Row184, k, 6);
    assert EntriesOk(184, Row184, k, 5); assert EntriesOk(184, Row184, k, 4); assert EntriesOk(184, Row184, k, 3);
    assert EntriesOk(184, Row184, k, 2); assert EntriesOk(184, Row184, k, 1); assert EntriesOk(184, Row184, k, 0);
  }

  lemma Row185Ok()
    ensures forall c | c == 185 :: CaseRowOk(c, Row185)
  {
    var k := EdgeCount(Row185);
    assert EntriesOk(185, Row185, k, 14); assert EntriesOk(185, Row185, k, 13); assert EntriesOk(185, Row185, k, 12);
    assert EntriesOk(185, Row185, k, 11); assert EntriesOk(185, Row185, k, 10); assert EntriesOk(185, Row185, k, 9);
    assert EntriesOk(185, Row185, k, 8); assert EntriesOk(185, Row185, k, 7); assert EntriesOk(185, Row185, k, 6);
    assert EntriesOk(185, Row185, k, 5); assert EntriesOk(185, Row185, k, 4); assert EntriesOk(185, Row185, k, 3);
    assert EntriesOk(185, Row185, k, 2); assert EntriesOk(185, Row185, k, 1); assert EntriesOk(185, Row185, k, 0);
  }

  lemma Row186Ok()
    ensures forall c | c == 186 :: CaseRowOk(c, Row186)
  {
    var k := EdgeCount(Row186);
    assert EntriesOk(186, Row186, k, 14); assert EntriesOk(186, Row186, k, 13); assert EntriesOk(186, Row186, k, 12);
    assert EntriesOk(186, Row186, k, 11); assert EntriesOk(186, Row186, k, 10); assert EntriesOk(186, Row186, k, 9);
    assert EntriesOk(186, Row186, k, 8); assert EntriesOk(186, Row186, k, 7); assert EntriesOk(186, Row186, k, 6);
    assert EntriesOk(186, Row186, k, 5); assert EntriesOk(186, Row186, k, 4); assert EntriesOk(186, Row186, k, 3);
    assert EntriesOk(186, Row186, k, 2); assert EntriesOk(186, Row186, k, 1); assert EntriesOk(186, Row186, k, 0);
  }

  lemma Row187Ok()
    ensures forall c | c == 187 :: CaseRowOk(c, Row187)
  {
    var k := EdgeCount(Row187);
    assert EntriesOk(187, Row187, k, 14); assert EntriesOk(187, Row187, k, 13); assert EntriesOk(187, Row187, k, 12);
    assert EntriesOk(187, Row187, k, 11); assert EntriesOk(187, Row187, k, 10); assert EntriesOk(187, Row187, k, 9);
    assert EntriesOk(187, Row187, k, 8); assert EntriesOk(187, Row187, k, 7); assert EntriesOk(187, Row187, k, 6);
    assert EntriesOk(187, Row187, k, 5); assert EntriesOk(187, Row187, k, 4); assert EntriesOk(187, Row187, k, 3);
    assert EntriesOk(187, Row187, k, 2); assert EntriesOk(187, Row187, k, 1); assert EntriesOk(187, Row187, k, 0);
  }

  lemma Row188Ok()
    ensures forall c | c == 188 :: CaseRowOk(c, Row188)
  {
    var k := EdgeCount(Row188);
    assert EntriesOk(188, Row188, k, 14); assert EntriesOk(188, Row188, k, 13); assert EntriesOk(188, Row188, k, 12);
    assert EntriesOk(188, Row188, k, 11); assert EntriesOk(188, Row188, k, 10); assert EntriesOk(188, Row188, k, 9);
    assert EntriesOk(188, Row188, k, 8); assert EntriesOk(188, Row188, k, 7); assert EntriesOk(188, Row188, k, 6);
    assert EntriesOk(188, Row188, k, 5); assert EntriesOk(188, Row188, k, 4); assert EntriesOk(188, Row188, k, 3);
    assert EntriesOk(188, Row188, k, 2); assert EntriesOk(188, Row188, k, 1); assert EntriesOk(188, Row188, k, 0);
  }

  lemma Row189Ok()
    ensures forall c | c == 189 :: CaseRowOk(c, Row189)
  {
    var k := EdgeCount(Row189);
    assert EntriesOk(189, Row189, k, 14); assert EntriesOk(189, Row189, k, 13); assert EntriesOk(189, Row189, k, 12);
    assert EntriesOk(189, Row189, k, 11); assert EntriesOk(189, Row189, k, 10); assert EntriesOk(189, Row189, k, 9);
    assert EntriesOk(189, Row189, k, 8); assert EntriesOk(189, Row189, k, 7); assert EntriesOk(189, Row189, k, 6);
    assert EntriesOk(189, Row189, k, 5); assert EntriesOk(189, Row189, k, 4); assert EntriesOk(189, Row189, k, 3);
    assert EntriesOk(189, Row189, k, 2); assert EntriesOk(189, Row189, k, 1); assert EntriesOk(189, Row189, k, 0);
  }

  lemma Row190Ok()
    ensures forall c | c == 190 :: CaseRowOk(c, Row190)
  {
    var k := EdgeCount(Row190);
    assert EntriesOk(190, Row190, k, 14); assert EntriesOk(190, Row190, k, 13); assert EntriesOk(190, Row190, k, 12);
    assert EntriesOk(190, Row190, k, 11); assert EntriesOk(190, Row190, k, 10); assert EntriesOk(190, Row190, k, 9);
    assert EntriesOk(190, Row190, k, 8); assert EntriesOk(190, Row190, k, 7); assert EntriesOk(190, Row190, k, 6);
    assert EntriesOk(190, Row190, k, 5); assert EntriesOk(190, Row190, k, 4); assert EntriesOk(190, Row190, k, 3);
    assert EntriesOk(190, Row190, k, 2); assert EntriesOk(190, Row190, k, 1); assert EntriesOk(190, Row190, k, 0);
  }

  lemma Row191Ok()
    ensures forall c | c == 191 :: CaseRowOk(c, Row191)
  {
    var k := EdgeCount(Row191);
    assert EntriesOk(191, Row191, k, 14); assert EntriesOk(191, Row191, k, 13); assert EntriesOk(191, Row191, k, 12);
    assert EntriesOk(191, Row191, k, 11); assert EntriesOk(191, Row191, k, 10); assert EntriesOk(191, Row191, k, 9);
    assert EntriesOk(191, Row191, k, 8); assert EntriesOk(191, Row191, k, 7); assert EntriesOk(191, Row191, k, 6);
    assert EntriesOk(191, Row191, k, 5); assert EntriesOk(191, Row191, k, 4); assert EntriesOk(191, Row191, k, 3);
    assert EntriesOk(191, Row191, k, 2); assert EntriesOk(191, Row191, k, 1); assert EntriesOk(191, Row191, k, 0);
  }

  lemma Row192Ok()
    ensures forall c | c == 192 :: CaseRowOk(c, Row192)
  {
    var k := EdgeCount(Row192);
    assert EntriesOk(192, Row192, k, 14); assert EntriesOk(192, Row192, k, 13); assert EntriesOk(192, Row192, k, 12);
    assert EntriesOk(192, Row192, k, 11); assert EntriesOk(192, Row192, k, 10); assert EntriesOk(192, Row192, k, 9);
    assert EntriesOk(192, Row192, k, 8); assert EntriesOk(192, Row192, k, 7); assert EntriesOk(192, Row192, k, 6);
    assert EntriesOk(192, Row192, k, 5); assert EntriesOk(192, Row192, k, 4); assert EntriesOk(192, Row192, k, 3);
    assert EntriesOk(192, Row192, k, 2); assert EntriesOk(192, Row192, k, 1); assert EntriesOk(192, Row192, k, 0);
  }

  lemma Row193Ok()
    ensures forall c | c == 193 :: CaseRowOk(c, Row193)
  {
    var k := EdgeCount(Row193);
    assert EntriesOk(193, Row193, k, 14); assert EntriesOk(193, Row193, k, 13); assert EntriesOk(193, Row193, k, 12);
    assert EntriesOk(193, Row193, k, 11); assert EntriesOk(193, Row193, k, 10); assert EntriesOk(193, Row193, k, 9);
    assert EntriesOk(193, Row193, k, 8); assert EntriesOk(193, Row193, k, 7); assert EntriesOk(193, Row193, k, 6);
    assert EntriesOk(193, Row193, k, 5); assert EntriesOk(193, Row193, k, 4); assert EntriesOk(193, Row193, k, 3);
    assert EntriesOk(193, Row193, k, 2); assert EntriesOk(193, Row193, k, 1); assert EntriesOk(193, Row193, k, 0);
  }

  lemma Row194Ok()
    ensures forall c | c == 194 :: CaseRowOk(c, Row194)
  {
    var k := EdgeCount(Row194);
    assert EntriesOk(194, Row194, k, 14); assert EntriesOk(194, Row194, k, 13); assert EntriesOk(194, Row194, k, 12);
    assert EntriesOk(194, Row194, k, 11); assert EntriesOk(194, Row194, k, 10); assert EntriesOk(194, Row194, k, 9);
    assert EntriesOk(194, Row194, k, 8); assert EntriesOk(194, Row194, k, 7); assert EntriesOk(194, Row194, k, 6);
    assert EntriesOk(194, Row194, k, 5); assert EntriesOk(194, Row194, k, 4); assert EntriesOk(194, Row194, k, 3);
    assert EntriesOk(194, Row194, k, 2); assert EntriesOk(194, Row194, k, 1); assert EntriesOk(194, Row194, k, 0);
  }

  lemma Row195Ok()
    ensures forall c | c == 195 :: CaseRowOk(c, Row195)
  {
    var k := EdgeCount(Row195);
    assert EntriesOk(195, Row195, k, 14); assert EntriesOk(195, Row195, k, 13); assert EntriesOk(195, Row195, k, 12);
    assert EntriesOk(195, Row195, k, 11); assert EntriesOk(195, Row195, k, 10); assert EntriesOk(195, Row195, k, 9);
    assert EntriesOk(195, Row195, k, 8); assert EntriesOk(195, Row195, k, 7); assert EntriesOk(195, Row195, k, 6);
    assert EntriesOk(195, Row195, k, 5); assert EntriesOk(195, Row195, k, 4); assert EntriesOk(195, Row195, k, 3);
    assert EntriesOk(195, Row195, k, 2); assert EntriesOk(195, Row195, k, 1); assert EntriesOk(195, Row195, k, 0);
  }

  lemma Row196Ok()
    ensures forall c | c == 196 :: CaseRowOk(c, Row196)
  {
    var k := EdgeCount(Row196);
    assert EntriesOk(196, Row196, k, 14); assert EntriesOk(196, Row196, k, 13); assert EntriesOk(196, Row196, k, 12);
    assert EntriesOk(196, Row196, k, 11); assert EntriesOk(196, Row196, k, 10); assert EntriesOk(196, Row196, k, 9);
    assert EntriesOk(196, Row196, k, 8); assert EntriesOk(196, Row196, k, 7); assert EntriesOk(196, Row196, k, 6);
    assert EntriesOk(196, Row196, k, 5); assert EntriesOk(196, Row196, k, 4); assert EntriesOk(196, Row196, k, 3);
    assert EntriesOk(196, Row196, k, 2); assert EntriesOk(196, Row196, k, 1); assert EntriesOk(196, Row196, k, 0);
  }

  lemma Row197Ok()
    ensures forall c | c == 197 :: CaseRowOk(c, Row197)
  {
    var k := EdgeCount(Row197);
    assert EntriesOk(197, Row197, k, 14); assert EntriesOk(197, Row197, k, 13); assert EntriesOk(197, Row197, k, 12);
    assert EntriesOk(197, Row197, k, 11); assert EntriesOk(197, Row197, k, 10); assert EntriesOk(197, Row197, k, 9);
    assert EntriesOk(197, Row197, k, 8); assert EntriesOk(197, Row197, k, 7); assert EntriesOk(197, Row197, k, 6);
    assert EntriesOk(197, Row197, k, 5); assert EntriesOk(197, Row197, k, 4); assert EntriesOk(197, Row197, k, 3);
    assert EntriesOk(197, Row197, k, 2); assert EntriesOk(197, Row197, k, 1); assert EntriesOk(197, Row197, k, 0);
  }

  lemma Row198Ok()
    ensures forall c | c == 198 :: CaseRowOk(c, Row198)
  {
    var k := EdgeCount(Row198);
    assert EntriesOk(198, Row198, k, 14); assert EntriesOk(198, Row198, k, 13); assert EntriesOk(198, Row198, k, 12);
    assert EntriesOk(198, Row198, k, 11); assert EntriesOk(198, Row198, k, 10); assert EntriesOk(198, Row198, k, 9);
    assert EntriesOk(198, Row198, k, 8); assert EntriesOk(198, Row198, k, 7); assert EntriesOk(198, Row198, k, 6);
    assert EntriesOk(198, Row198, k, 5); assert EntriesOk(198, Row198, k, 4); assert EntriesOk(198, Row198, k, 3);
    assert EntriesOk(198, Row198, k, 2); assert EntriesOk(198, Row198, k, 1); assert EntriesOk(198, Row198, k, 0);
  }

  lemma Row199Ok()
    ensures forall c | c == 199 :: CaseRowOk(c, Row199)
  {
    var k := EdgeCount(Row199);
    assert EntriesOk(199, Row199, k, 14); assert EntriesOk(199, Row199, k, 13); assert EntriesOk(199, Row199, k, 12);
    assert EntriesOk(199, Row199, k, 11); assert EntriesOk(199, Row199, k, 10); assert EntriesOk(199, Row199, k, 9);
    assert EntriesOk(199, Row199, k, 8); assert EntriesOk(199, Row199, k, 7); assert EntriesOk(199, Row199, k, 6);
    assert EntriesOk(199, Row199, k, 5); assert EntriesOk(199, Row199, k, 4); assert EntriesOk(199, Row199, k, 3);
    assert EntriesOk(199, Row199, k, 2); assert EntriesOk(199, Row199, k, 1); assert EntriesOk(199, Row199, k, 0);
  }

  lemma Row200Ok()
    ensures forall c | c == 200 :: CaseRowOk(c, Row200)
  {
    var k := EdgeCount(Row200);
    assert EntriesOk(200, Row200, k, 14); assert EntriesOk(200, Row200, k, 13); assert EntriesOk(200, Row200, k, 12);
    assert EntriesOk(200, Row200, k, 11); assert EntriesOk(200, Row200, k, 10); assert EntriesOk(200, Row200, k, 9);
    assert EntriesOk(200, Row200, k, 8); assert EntriesOk(200, Row200, k, 7); assert EntriesOk(200, Row200, k, 6);
    assert EntriesOk(200, Row200, k, 5); assert EntriesOk(200, Row200, k, 4); assert EntriesOk(200, Row200, k, 3);
    assert EntriesOk(200, Row200, k, 2); assert EntriesOk(200, Row200, k, 1); assert EntriesOk(200, Row200, k, 0);
  }

  lemma Row201Ok()
    ensures forall c | c == 201 :: CaseRowOk(c, Row201)
  {
    var k := EdgeCount(Row201);
    assert EntriesOk(201, Row201, k, 14); assert EntriesOk(201, Row201, k, 13); assert EntriesOk(201, Row201, k, 12);
    assert EntriesOk(201, Row201, k, 11); assert EntriesOk(201, Row201, k, 10); assert EntriesOk(201, Row201, k, 9);
    assert EntriesOk(201, Row201, k, 8); assert EntriesOk(201, Row201, k, 7); assert EntriesOk(201, Row201, k, 6);
    assert EntriesOk(201, Row201, k, 5); assert EntriesOk(201, Row201, k, 4); assert EntriesOk(201, Row201, k, 3);
    assert EntriesOk(201, Row201, k, 2); assert EntriesOk(201, Row201, k, 1); assert EntriesOk(201, Row201, k, 0);
  }

  lemma Row202Ok()
    ensures forall c | c == 202 :: CaseRowOk(c, Row202)
  {
    var k := EdgeCount(Row202);
    assert EntriesOk(202, Row202, k, 14); assert EntriesOk(202, Row202, k, 13); assert EntriesOk(202, Row202, k, 12);
    assert EntriesOk(202, Row202, k, 11); assert EntriesOk(202, Row202, k, 10); assert EntriesOk(202, Row202, k, 9);
    assert EntriesOk(202, Row202, k, 8); assert EntriesOk(202, Row202, k, 7); assert EntriesOk(202, Row202, k, 6);
    assert EntriesOk(202, Row202, k, 5); assert EntriesOk(202, Row202, k, 4); assert EntriesOk(202, Row202, k, 3);
    assert EntriesOk(202, Row202, k, 2); assert EntriesOk(202, Row202, k, 1); assert EntriesOk(202, Row202, k, 0);
  }

  lemma Row203Ok()
    ensures forall c | c == 203 :: CaseRowOk(c, Row203)
  {
    var k := EdgeCount(Row203);
    assert EntriesOk(203, Row203, k, 14); assert EntriesOk(203, Row203, k, 13); assert EntriesOk(203, Row203, k, 12);
    assert EntriesOk(203, Row203, k, 11); assert EntriesOk(203, Row203, k, 10); assert EntriesOk(203, Row203, k, 9);
    assert EntriesOk(203, Row203, k, 8); assert EntriesOk(203, Row203, k, 7); assert EntriesOk(203, Row203, k, 6);
    assert EntriesOk(203, Row203, k, 5); assert EntriesOk(203, Row203, k, 4); assert EntriesOk(203, Row203, k, 3);
    assert EntriesOk(203, Row203, k, 2); assert EntriesOk(203, Row203, k, 1); assert EntriesOk(203, Row203, k, 0);
  }

  lemma Row204Ok()
    ensures forall c | c == 204 :: CaseRowOk(c, Row204)
  {
    var k := EdgeCount(Row204);
    assert EntriesOk(204, Row204, k, 14); assert EntriesOk(204, Row204, k, 13); assert EntriesOk(204, Row204, k, 12);
    assert EntriesOk(204, Row204, k, 11); assert EntriesOk(204, Row204, k, 10); assert EntriesOk(204, Row204, k, 9);
    assert EntriesOk(204, Row204, k, 8); assert EntriesOk(204, Row204, k, 7); assert EntriesOk(204, Row204, k, 6);
    assert EntriesOk(204, Row204, k, 5); assert EntriesOk(204, Row204, k, 4); assert EntriesOk(204, Row204, k, 3);
    assert EntriesOk(204, Row204, k, 2); assert EntriesOk(204, Row204, k, 1); assert EntriesOk(204, Row204, k, 0);
  }

  lemma Row205Ok()
    ensures forall c | c == 205 :: CaseRowOk(c, Row205)
  {
    var k := EdgeCount(Row205);
    assert EntriesOk(205, Row205, k, 14); assert EntriesOk(205, Row205, k, 13); assert EntriesOk(205, Row205, k, 12);
    assert EntriesOk(205, Row205, k, 11); assert EntriesOk(205, Row205, k, 10); assert EntriesOk(205, Row205, k, 9);
    assert EntriesOk(205, Row205, k, 8); assert EntriesOk(205, Row205, k, 7); assert EntriesOk(205, Row205, k, 6);
    assert EntriesOk(205, Row205, k, 5); assert EntriesOk(205, Row205, k, 4); assert EntriesOk(205, Row205, k, 3);
    assert EntriesOk(205, Row205, k, 2); assert EntriesOk(205, Row205, k, 1); assert EntriesOk(205, Row205, k, 0);
  }

  lemma Row206Ok()
    ensures forall c | c == 206 :: CaseRowOk(c, Row206)
  {
    var k := EdgeCount(Row206);
    assert EntriesOk(206, Row206, k, 14); assert EntriesOk(206, Row206, k, 13); assert EntriesOk(206, Row206, k, 12);
    assert EntriesOk(206, Row206, k, 11); assert EntriesOk(206, Row206, k, 10); assert EntriesOk(206, Row206, k, 9);
    assert EntriesOk(206, Row206, k, 8); assert EntriesOk(206, Row206, k, 7); assert EntriesOk(206, Row206, k, 6);
    assert EntriesOk(206, Row206, k, 5); assert EntriesOk(206, Row206, k, 4); assert EntriesOk(206, Row206, k, 3);
    assert EntriesOk(206, Row206, k, 2); assert EntriesOk(206, Row206, k, 1); assert EntriesOk(206, Row206, k, 0);
  }

  lemma Row207Ok()
    ensures forall c | c == 207 :: CaseRowOk(c, Row207)
  {
    var k := EdgeCount(Row207);
    assert EntriesOk(207, Row207, k, 14); assert EntriesOk(207, Row207, k, 13); assert EntriesOk(207, Row207, k, 12);
    assert EntriesOk(207, Row207, k, 11); assert EntriesOk(207, Row207, k, 10); assert EntriesOk(207, Row207, k, 9);
    assert EntriesOk(207, Row207, k, 8); assert EntriesOk(207, Row207, k, 7); assert EntriesOk(207, Row207, k, 6);
    assert EntriesOk(207, Row207, k, 5); assert EntriesOk(207, Row207, k, 4); assert EntriesOk(207, Row207, k, 3);
    assert EntriesOk(207, Row207, k, 2); assert EntriesOk(207, Row207, k, 1); assert EntriesOk(207, Row207, k, 0);
  }

  lemma Row208Ok()
    ensures forall c | c == 208 :: CaseRowOk(c, Row208)
  {
    var k := EdgeCount(Row208);
    assert EntriesOk(208, Row208, k, 14); assert EntriesOk(208, Row208, k, 13); assert EntriesOk(208, Row208, k, 12);
    assert EntriesOk(208, Row208, k, 11); assert EntriesOk(208, Row208, k, 10); assert EntriesOk(208, Row208, k, 9);
    assert EntriesOk(208, Row208, k, 8); assert EntriesOk(208, Row208, k, 7); assert EntriesOk(208, Row208, k, 6);
    assert EntriesOk(208, Row208, k, 5); assert EntriesOk(208, Row208, k, 4); assert EntriesOk(208, Row208, k, 3);
    assert EntriesOk(208, Row208, k, 2); assert EntriesOk(208, Row208, k, 1); assert EntriesOk(208, Row208, k, 0);
  }

  lemma Row209Ok()
    ensures forall c | c == 209 :: CaseRowOk(c, Row209)
  {
    var k := EdgeCount(Row209);
    assert EntriesOk(209, Row209, k, 14); assert EntriesOk(209, Row209, k, 13); assert EntriesOk(209, Row209, k, 12);
    assert EntriesOk(209, Row209, k, 11); assert EntriesOk(209, Row209, k, 10); assert EntriesOk(209, Row209, k, 9);
    assert EntriesOk(209, Row209, k, 8); assert EntriesOk(209, Row209, k, 7); assert EntriesOk(209, Row209, k, 6);
    assert EntriesOk(209, Row209, k, 5); assert EntriesOk(209, Row209, k, 4); assert EntriesOk(209, Row209, k, 3);
    assert EntriesOk(209, Row209, k, 2); assert EntriesOk(209, Row209, k, 1); assert EntriesOk(209, Row209, k, 0);
  }

  lemma Row210Ok()
    ensures forall c | c == 210 :: CaseRowOk(c, Row210)
  {
    var k := EdgeCount(Row210);
    assert EntriesOk(210, Row210, k, 14); assert EntriesOk(210, Row210, k, 13); assert EntriesOk(210, Row210, k, 12);
    assert EntriesOk(210, Row210, k, 11); assert EntriesOk(210, Row210, k, 10); assert EntriesOk(210, Row210, k, 9);
    assert EntriesOk(210, Row210, k, 8); assert EntriesOk(210, Row210, k, 7); assert EntriesOk(210, Row210, k, 6);
    assert EntriesOk(210, Row210, k, 5); assert EntriesOk(210, Row210, k, 4); assert EntriesOk(210, Row210, k, 3);
    assert EntriesOk(210, Row210, k, 2); assert EntriesOk(210, Row210, k, 1); assert EntriesOk(210, Row210, k, 0);
  }

  lemma Row211Ok()
    ensures forall c | c == 211 :: CaseRowOk(c, Row211)
  {
    var k := EdgeCount(Row211);
    assert EntriesOk(211, Row211, k, 14); assert EntriesOk(211, Row211, k, 13); assert EntriesOk(211, Row211, k, 12);
    assert EntriesOk(211, Row211, k, 11); assert EntriesOk(211, Row211, k, 10); assert EntriesOk(211, Row211, k, 9);
    assert EntriesOk(211, Row211, k, 8); assert EntriesOk(211, Row211, k, 7); assert EntriesOk(211, Row211, k, 6);
    assert EntriesOk(211, Row211, k, 5); assert EntriesOk(211, Row211, k, 4); assert EntriesOk(211, Row211, k, 3);
    assert EntriesOk(211, Row211, k, 2); assert EntriesOk(211, Row211, k, 1); assert EntriesOk(211, Row211, k, 0);
  }

  lemma Row212Ok()
    ensures forall c | c == 212 :: CaseRowOk(c, Row212)
  {
    var k := EdgeCount(Row212);
    assert EntriesOk(212, Row212, k, 14); assert EntriesOk(212, Row212, k, 13); assert EntriesOk(212, Row212, k, 12);
    assert EntriesOk(212, Row212, k, 11); assert EntriesOk(212, Row212, k, 10); assert EntriesOk(212, Row212, k, 9);
    assert EntriesOk(212, Row212, k, 8); assert EntriesOk(212, Row212, k, 7); assert EntriesOk(212, Row212, k, 6);
    assert EntriesOk(212, Row212, k, 5); assert EntriesOk(212, Row212, k, 4); assert EntriesOk(212, Row212, k, 3);
    assert EntriesOk(212, Row212, k, 2); assert EntriesOk(212, Row212, k, 1); assert EntriesOk(212, Row212, k, 0);
  }

  lemma Row213Ok()
    ensures forall c | c == 213 :: CaseRowOk(c, Row213)
  {
    var k := EdgeCount(Row213);
    assert EntriesOk(213, Row213, k, 14); assert EntriesOk(213, Row213, k, 13); assert EntriesOk(213, Row213, k, 12);
    assert EntriesOk(213, Row213, k, 11); assert EntriesOk(213, Row213, k, 10); assert EntriesOk(213, Row213, k, 9);
    assert EntriesOk(213, Row213, k, 8); assert EntriesOk(213, Row213, k, 7); assert EntriesOk(213, Row213, k, 6);
    assert EntriesOk(213, Row213, k, 5); assert EntriesOk(213, Row213, k, 4); assert EntriesOk(213, Row213, k, 3);
    assert EntriesOk(213, Row213, k, 2); assert EntriesOk(213, Row213, k, 1); assert EntriesOk(213, Row213, k, 0);
  }

  lemma Row214Ok()
    ensures forall c | c == 214 :: CaseRowOk(c, Row214)
  {
    var k := EdgeCount(Row214);
    assert EntriesOk(214, Row214, k, 14); assert EntriesOk(214, Row214, k, 13); assert EntriesOk(214, Row214, k, 12);
    assert EntriesOk(214, Row214, k, 11); assert EntriesOk(214, Row214, k, 10); assert EntriesOk(214, Row214, k, 9);
    assert EntriesOk(214, Row214, k, 8); assert EntriesOk(214, Row214, k, 7); assert EntriesOk(214, Row214, k, 6);
    assert EntriesOk(214, Row214, k, 5); assert EntriesOk(214, Row214, k, 4); assert EntriesOk(214, Row214, k, 3);
    assert EntriesOk(214, Row214, k, 2); assert EntriesOk(214, Row214, k, 1); assert EntriesOk(214, Row214, k, 0);
  }

  lemma Row215Ok()
    ensures forall c | c == 215 :: CaseRowOk(c, Row215)
  {
    var k := EdgeCount(Row215);
    assert EntriesOk(215, Row215, k, 14); assert EntriesOk(215, Row215, k, 13); assert EntriesOk(215, Row215, k, 12);
    assert EntriesOk(215, Row215, k, 11); assert EntriesOk(215, Row215, k, 10); assert EntriesOk(215, Row215, k, 9);
    assert EntriesOk(215, Row215, k, 8); assert EntriesOk(215, Row215, k, 7); assert EntriesOk(215, Row215, k, 6);
    assert EntriesOk(215, Row215, k, 5); assert EntriesOk(215, Row215, k, 4); assert EntriesOk(215, Row215, k, 3);
    assert EntriesOk(215, Row215, k, 2); assert EntriesOk(215, Row215, k, 1); assert EntriesOk(215, Row215, k, 0);
  }

  lemma Row216Ok()
    ensures forall c | c == 216 :: CaseRowOk(c, Row216)
  {
    var k := EdgeCount(Row216);
    assert EntriesOk(216, Row216, k, 14); assert EntriesOk(216, Row216, k, 13); assert EntriesOk(216, Row216, k, 12);
    assert EntriesOk(216, Row216, k, 11); assert EntriesOk(216, Row216, k, 10); assert EntriesOk(216, Row216, k, 9);
    assert EntriesOk(216, Row216, k, 8); assert EntriesOk(216, Row216, k, 7); assert EntriesOk(216, Row216, k, 6);
    assert EntriesOk(216, Row216, k, 5); assert EntriesOk(216, Row216, k, 4); assert EntriesOk(216, Row216, k, 3);
    assert EntriesOk(216, Row216, k, 2); assert EntriesOk(216, Row216, k, 1); assert EntriesOk(216, Row216, k, 0);
  }

  lemma Row217Ok()
    ensures forall c | c == 217 :: CaseRowOk(c, Row217)
  {
    var k := EdgeCount(Row217);
    assert EntriesOk(217, Row217, k, 14); assert EntriesOk(217, Row217, k, 13); assert EntriesOk(217, Row217, k, 12);
    assert EntriesOk(217, Row217, k, 11); assert EntriesOk(217, Row217, k, 10); assert EntriesOk(217, Row217, k, 9);
    assert EntriesOk(217, Row217, k, 8); assert EntriesOk(217, Row217, k, 7); assert EntriesOk(217, Row217, k, 6);
    assert EntriesOk(217, Row217, k, 5); assert EntriesOk(217, Row217, k, 4); assert EntriesOk(217, Row217, k, 3);
    assert EntriesOk(217, Row217, k, 2); assert EntriesOk(217, Row217, k, 1); assert EntriesOk(217, Row217, k, 0);
  }

  lemma Row218Ok()
    ensures forall c | c == 218 :: CaseRowOk(c, Row218)
  {
    var k := EdgeCount(Row218);
    assert EntriesOk(218, Row218, k, 14); assert EntriesOk(218, Row218, k, 13); assert EntriesOk(218, Row218, k, 12);
    assert EntriesOk(218, Row218, k, 11); assert EntriesOk(218, Row218, k, 10); assert EntriesOk(218, Row218, k, 9);
    assert EntriesOk(218, Row218, k, 8); assert EntriesOk(218, Row218, k, 7); assert EntriesOk(218, Row218, k, 6);
    assert EntriesOk(218, Row218, k, 5); assert EntriesOk(218, Row218, k, 4); assert EntriesOk(218, Row218, k, 3);
    assert EntriesOk(218, Row218, k, 2); assert EntriesOk(218, Row218, k, 1); assert EntriesOk(218, Row218, k, 0);
  }

  lemma Row219Ok()
    ensures forall c | c == 219 :: CaseRowOk(c, Row219)
  {
    var k := EdgeCount(Row219);
    assert EntriesOk(219, Row219, k, 14); assert EntriesOk(219, Row219, k, 13); assert EntriesOk(219, Row219, k, 12);
    assert EntriesOk(219, Row219, k, 11); assert EntriesOk(219, Row219, k, 10); assert EntriesOk(219, Row219, k, 9);
    assert EntriesOk(219, Row219, k, 8); assert EntriesOk(219, Row219, k, 7); assert EntriesOk(219, Row219, k, 6);
    assert EntriesOk(219, Row219, k, 5); assert EntriesOk(219, Row219, k, 4); assert EntriesOk(219, Row219, k, 3);
    assert EntriesOk(219, Row219, k, 2); assert EntriesOk(219, Row219, k, 1); assert EntriesOk(219, Row219, k, 0);
  }

  lemma Row220Ok()
    ensures forall c | c == 220 :: CaseRowOk(c, Row220)
  {
    var k := EdgeCount(Row220);
    assert EntriesOk(220, Row220, k, 14); assert EntriesOk(220, Row220, k, 13); assert EntriesOk(220, Row220, k, 12);
    assert EntriesOk(220, Row220, k, 11); assert EntriesOk(220, Row220, k, 10); assert EntriesOk(220, Row220, k, 9);
    assert EntriesOk(220, Row220, k, 8); assert EntriesOk(220, Row220, k, 7); assert EntriesOk(220, Row220, k, 6);
    assert EntriesOk(220, Row220, k, 5); assert EntriesOk(220, Row220, k, 4); assert EntriesOk(220, Row220, k, 3);
    assert EntriesOk(220, Row220, k, 2); assert EntriesOk(220, Row220, k, 1); assert EntriesOk(220, Row220, k, 0);
  }

  lemma Row221Ok()
    ensures forall c | c == 221 :: CaseRowOk(c, Row221)
  {
    var k := EdgeCount(Row221);
    assert EntriesOk(221, Row221, k, 14); assert EntriesOk(221, Row221, k, 13); assert EntriesOk(221, Row221, k, 12);
    assert EntriesOk(221, Row221, k, 11); assert EntriesOk(221, Row221, k, 10); assert EntriesOk(221, Row221, k, 9);
    assert EntriesOk(221, Row221, k, 8); assert EntriesOk(221, Row221, k, 7); assert EntriesOk(221, Row221, k, 6);
    assert EntriesOk(221, Row221, k, 5); assert EntriesOk(221, Row221, k, 4); assert EntriesOk(221, Row221, k, 3);
    assert EntriesOk(221, Row221, k, 2); assert EntriesOk(221, Row221, k, 1); assert EntriesOk(221, Row221, k, 0);
  }

  lemma Row222Ok()
    ensures forall c | c == 222 :: CaseRowOk(c, Row222)
  {
    var k := EdgeCount(Row222);
    assert EntriesOk(222, Row222, k, 14); assert EntriesOk(222, Row222, k, 13); assert EntriesOk(222, Row222, k, 12);
    assert EntriesOk(222, Row222, k, 11); assert EntriesOk(222, Row222, k, 10); assert EntriesOk(222, Row222, k, 9);
    assert EntriesOk(222, Row222, k, 8); assert EntriesOk(222, Row222, k, 7); assert EntriesOk(222, Row222, k, 6);
    assert EntriesOk(222, Row222, k, 5); assert EntriesOk(222, Row222, k, 4); assert EntriesOk(222, Row222, k, 3);
    assert EntriesOk(222, Row222, k, 2); assert EntriesOk(222, Row222, k, 1); assert EntriesOk(222, Row222, k, 0);
  }

  lemma Row223Ok()
    ensures forall c | c == 223 :: CaseRowOk(c, Row223)
  {
    var k := EdgeCount(Row223);
    assert EntriesOk(223, Row223, k, 14); assert EntriesOk(223, Row223, k, 13); assert EntriesOk(223, Row223, k, 12);
    assert EntriesOk(223, Row223, k, 11); assert EntriesOk(223, Row223, k, 10); assert EntriesOk(223, Row223, k, 9);
    assert EntriesOk(223, Row223, k, 8); assert EntriesOk(223, Row223, k, 7); assert EntriesOk(223, Row223, k, 6);
    assert EntriesOk(223, Row223, k, 5); assert EntriesOk(223, Row223, k, 4); assert EntriesOk(223, Row223, k, 3);
    assert EntriesOk(223, Row223, k, 2); assert EntriesOk(223, Row223, k, 1); assert EntriesOk(223, Row223, k, 0);
  }

  lemma Row224Ok()
    ensures forall c | c == 224 :: CaseRowOk(c, Row224)
  {
    var k := EdgeCount(Row224);
    assert EntriesOk(224, Row224, k, 14); assert EntriesOk(224, Row224, k, 13); assert EntriesOk(224, Row224, k, 12);
    assert EntriesOk(224, Row224, k, 11); assert EntriesOk(224, Row224, k, 10); assert EntriesOk(224, Row224, k, 9);
    assert EntriesOk(224, Row224, k, 8); assert EntriesOk(224, Row224, k, 7); assert EntriesOk(224, Row224, k, 6);
    assert EntriesOk(224, Row224, k, 5); assert EntriesOk(224, Row224, k, 4); assert EntriesOk(224, Row224, k, 3);
    assert EntriesOk(224, Row224, k, 2); assert EntriesOk(224, Row224, k, 1); assert EntriesOk(224, Row224, k, 0);
  }

  lemma Row225Ok()
    ensures forall c | c == 225 :: CaseRowOk(c, Row225)
  {
    var k := EdgeCount(Row225);
    assert EntriesOk(225, Row225, k, 14); assert EntriesOk(225, Row225, k, 13); assert EntriesOk(225, Row225, k, 12);
    assert EntriesOk(225, Row225, k, 11); assert EntriesOk(225, Row225, k, 10); assert EntriesOk(225, Row225, k, 9);
    assert EntriesOk(225, Row225, k, 8); assert EntriesOk(225, Row225, k, 7); assert EntriesOk(225, Row225, k, 6);
    assert EntriesOk(225, Row225, k, 5); assert EntriesOk(225, Row225, k, 4); assert EntriesOk(225, Row225, k, 3);
    assert EntriesOk(225, Row225, k, 2); assert EntriesOk(225, Row225, k, 1); assert EntriesOk(225, Row225, k, 0);
  }

  lemma Row226Ok()
    ensures forall c | c == 226 :: CaseRowOk(c, Row226)
  {
    var k := EdgeCount(Row226);
    assert EntriesOk(226, Row226, k, 14); assert EntriesOk(226, Row226, k, 13); assert EntriesOk(226, Row226, k, 12);
    assert EntriesOk(226, Row226, k, 11); assert EntriesOk(226, Row226, k, 10); assert EntriesOk(226, Row226, k, 9);
    assert EntriesOk(226, Row226, k, 8); assert EntriesOk(226, Row226, k, 7); assert EntriesOk(226, Row226, k, 6);
    assert EntriesOk(226, Row226, k, 5); assert EntriesOk(226, Row226, k, 4); assert EntriesOk(226, Row226, k, 3);
    assert EntriesOk(226, Row226, k, 2); assert EntriesOk(226, Row226, k, 1); assert EntriesOk(226, Row226, k, 0);
  }

  lemma Row227Ok()
    ensures forall c | c == 227 :: CaseRowOk(c, Row227)
  {
    var k := EdgeCount(Row227);
    assert EntriesOk(227, Row227, k, 14); assert EntriesOk(227, Row227, k, 13); assert EntriesOk(227, Row227, k, 12);
    assert EntriesOk(227, Row227, k, 11); assert EntriesOk(227, Row227, k, 10); assert EntriesOk(227, Row227, k, 9);
    assert EntriesOk(227, Row227, k, 8); assert EntriesOk(227, Row227, k, 7); assert EntriesOk(227, Row227, k, 6);
    assert EntriesOk(227, Row227, k, 5); assert EntriesOk(227, Row227, k, 4); assert EntriesOk(227, Row227, k, 3);
    assert EntriesOk(227, Row227, k, 2); assert EntriesOk(227, Row227, k, 1); assert EntriesOk(227, Row227, k, 0);
  }

  lemma Row228Ok()
    ensures forall c | c == 228 :: CaseRowOk(c, Row228)
  {
    var k := EdgeCount(Row228);
    assert EntriesOk(228, Row228, k, 14); assert EntriesOk(228, Row228, k, 13); assert EntriesOk(228, Row228, k, 12);
    assert EntriesOk(228, Row228, k, 11); assert EntriesOk(228, Row228, k, 10); assert EntriesOk(228, Row228, k, 9);
    assert EntriesOk(228, Row228, k, 8); assert EntriesOk(228, Row228, k, 7); assert EntriesOk(228, Row228, k, 6);
    assert EntriesOk(228, Row228, k, 5); assert EntriesOk(228, Row228, k, 4); assert EntriesOk(228, Row228, k, 3);
    assert EntriesOk(228, Row228, k, 2); assert EntriesOk(228, Row228, k, 1); assert EntriesOk(228, Row228, k, 0);
  }

  lemma Row229Ok()
    ensures forall c | c == 229 :: CaseRowOk(c, Row229)
  {
    var k := EdgeCount(Row229);
    assert EntriesOk(229, Row229, k, 14); assert EntriesOk(229, Row229, k, 13); assert EntriesOk(229, Row229, k, 12);
    assert EntriesOk(229, Row229, k, 11); assert EntriesOk(229, Row229, k, 10); assert EntriesOk(229, Row229, k, 9);
    assert EntriesOk(229, Row229, k, 8); assert EntriesOk(229, Row229, k, 7); assert EntriesOk(229, Row229, k, 6);
    assert EntriesOk(229, Row229, k, 5); assert EntriesOk(229, Row229, k, 4); assert EntriesOk(229, Row229, k, 3);
    assert EntriesOk(229, Row229, k, 2); assert EntriesOk(229, Row229, k, 1); assert EntriesOk(229, Row229, k, 0);
  }

  lemma Row230Ok()
    ensures forall c | c == 230 :: CaseRowOk(c, Row230)
  {
    var k := EdgeCount(Row230);
    assert EntriesOk(230, Row230, k, 14); assert EntriesOk(230, Row230, k, 13); assert EntriesOk(230, Row230, k, 12);
    assert EntriesOk(230, Row230, k, 11); assert EntriesOk(230, Row230, k, 10); assert EntriesOk(230, Row230, k, 9);
    assert EntriesOk(230, Row230, k, 8); assert EntriesOk(230, Row230, k, 7); assert EntriesOk(230, Row230, k, 6);
    assert EntriesOk(230, Row230, k, 5); assert EntriesOk(230, Row230, k, 4); assert EntriesOk(230, Row230, k, 3);
    assert EntriesOk(230, Row230, k, 2); assert EntriesOk(230, Row230, k, 1); assert EntriesOk(230, Row230, k, 0);
  }

  lemma Row231Ok()
    ensures forall c | c == 231 :: CaseRowOk(c, Row231)
  {
    var k := EdgeCount(Row231);
    assert EntriesOk(231, Row231, k, 14); assert EntriesOk(231, Row231, k, 13); assert EntriesOk(231, Row231, k, 12);
    assert EntriesOk(231, Row231, k, 11); assert EntriesOk(231, Row231, k, 10); assert EntriesOk(231, Row231, k, 9);
    assert EntriesOk(231, Row231, k, 8); assert EntriesOk(231, Row231, k, 7); assert EntriesOk(231, Row231, k, 6);
    assert EntriesOk(231, Row231, k, 5); assert EntriesOk(231, Row231, k, 4); assert EntriesOk(231, Row231, k, 3);
    assert EntriesOk(231, Row231, k, 2); assert EntriesOk(231, Row231, k, 1); assert EntriesOk(231, Row231, k, 0);
  }

  lemma Row232Ok()
    ensures forall c | c == 232 :: CaseRowOk(c, Row232)
  {
    var k := EdgeCount(Row232);
    assert EntriesOk(232, Row232, k, 14); assert EntriesOk(232, Row232, k, 13); assert EntriesOk(232, Row232, k, 12);
    assert EntriesOk(232, Row232, k, 11); assert EntriesOk(232, Row232, k, 10); assert EntriesOk(232, Row232, k, 9);
    assert EntriesOk(232, Row232, k, 8); assert EntriesOk(232, Row232, k, 7); assert EntriesOk(232, Row232, k, 6);
    assert EntriesOk(232, Row232, k, 5); assert EntriesOk(232, Row232, k, 4); assert EntriesOk(232, Row232, k, 3);
    assert EntriesOk(232, Row232, k, 2); assert EntriesOk(232, Row232, k, 1); assert EntriesOk(232, Row232, k, 0);
  }

  lemma Row233Ok()
    ensures forall c | c == 233 :: CaseRowOk(c, Row233)
  {
    var k := EdgeCount(Row233);
    assert EntriesOk(233, Row233, k, 14); assert EntriesOk(233, Row233, k, 13); assert EntriesOk(233, Row233, k, 12);
    assert EntriesOk(233, Row233, k, 11); assert EntriesOk(233, Row233, k, 10); assert EntriesOk(233, Row233, k, 9);
    assert EntriesOk(233, Row233, k, 8); assert EntriesOk(233, Row233, k, 7); assert EntriesOk(233, Row233, k, 6);
    assert EntriesOk(233, Row233, k, 5); assert EntriesOk(233, Row233, k, 4); assert EntriesOk(233, Row233, k, 3);
    assert EntriesOk(233, Row233, k, 2); assert EntriesOk(233, Row233, k, 1); assert EntriesOk(233, Row233, k, 0);
  }

  lemma Row234Ok()
    ensures forall c | c == 234 :: CaseRowOk(c, Row234)
  {
    var k := EdgeCount(Row234);
    assert EntriesOk(234, Row234, k, 14); assert EntriesOk(234, Row234, k, 13); assert EntriesOk(234, Row234, k, 12);
    assert EntriesOk(234, Row234, k, 11); assert EntriesOk(234, Row234, k, 10); assert EntriesOk(234, Row234, k, 9);
    assert EntriesOk(234, Row234, k, 8); assert EntriesOk(234, Row234, k, 7); assert EntriesOk(234, Row234, k, 6);
    assert EntriesOk(234, Row234, k, 5); assert EntriesOk(234, Row234, k, 4); assert EntriesOk(234, Row234, k, 3);
    assert EntriesOk(234, Row234, k, 2); assert EntriesOk(234, Row234, k, 1); assert EntriesOk(234, Row234, k, 0);
  }

  lemma Row235Ok()
    ensures forall c | c == 235 :: CaseRowOk(c, Row235)
  {
    var k := EdgeCount(Row235);
    assert EntriesOk(235, Row235, k, 14); assert EntriesOk(235, Row235, k, 13); assert EntriesOk(235, Row235, k, 12);
    assert EntriesOk(235, Row235, k, 11); assert EntriesOk(235, Row235, k, 10); assert EntriesOk(235, Row235, k, 9);
    assert EntriesOk(235, Row235, k, 8); assert EntriesOk(235, Row235, k, 7); assert EntriesOk(235, Row235, k, 6);
    assert EntriesOk(235, Row235, k, 5); assert EntriesOk(235, Row235, k, 4); assert EntriesOk(235, Row235, k, 3);
    assert EntriesOk(235, Row235, k, 2); assert EntriesOk(235, Row235, k, 1); assert EntriesOk(235, Row235, k, 0);
  }

  lemma Row236Ok()
    ensures forall c | c == 236 :: CaseRowOk(c, Row236)
  {
    var k := EdgeCount(Row236);
    assert EntriesOk(236, Row236, k, 14); assert EntriesOk(236, Row236, k, 13); assert EntriesOk(236, Row236, k, 12);
    assert EntriesOk(236, Row236, k, 11); assert EntriesOk(236, Row236, k, 10); assert EntriesOk(236, Row236, k, 9);
    assert EntriesOk(236, Row236, k, 8); assert EntriesOk(236, Row236, k, 7); assert EntriesOk(236, Row236, k, 6);
    assert EntriesOk(236, Row236, k, 5); assert EntriesOk(236, Row236, k, 4); assert EntriesOk(236, Row236, k, 3);
    assert EntriesOk(236, Row236, k, 2); assert EntriesOk(236, Row236, k, 1); assert EntriesOk(236, Row236, k, 0);
  }

  lemma Row237Ok()
    ensures forall c | c == 237 :: CaseRowOk(c, Row237)
  {
    var k := EdgeCount(Row237);
    assert EntriesOk(237, Row237, k, 14); assert EntriesOk(237, Row237, k, 13); assert EntriesOk(237, Row237, k, 12);
    assert EntriesOk(237, Row237, k, 11); assert EntriesOk(237, Row237, k, 10); assert EntriesOk(237, Row237, k, 9);
    assert EntriesOk(237, Row237, k, 8); assert EntriesOk(237, Row237, k, 7); assert EntriesOk(237, Row237, k, 6);
    assert EntriesOk(237, Row237, k, 5); assert EntriesOk(237, Row237, k, 4); assert EntriesOk(237, Row237, k, 3);
    assert EntriesOk(237, Row237, k, 2); assert EntriesOk(237, Row237, k, 1); assert EntriesOk(237, Row237, k, 0);
  }

  lemma Row238Ok()
    ensures forall c | c == 238 :: CaseRowOk(c, Row238)
  {
    var k := EdgeCount(Row238);
    assert EntriesOk(238, Row238, k, 14); assert EntriesOk(238, Row238, k, 13); assert EntriesOk(238, Row238, k, 12);
    assert EntriesOk(238, Row238, k, 11); assert EntriesOk(238, Row238, k, 10); assert EntriesOk(238, Row238, k, 9);
    assert EntriesOk(238, Row238, k, 8); assert EntriesOk(238, Row238, k, 7); assert EntriesOk(238, Row238, k, 6);
    assert EntriesOk(238, Row238, k, 5); assert EntriesOk(238, Row238, k, 4); assert EntriesOk(238, Row238, k, 3);
    assert EntriesOk(238, Row238, k, 2); assert EntriesOk(238, Row238, k, 1); assert EntriesOk(238, Row238, k, 0);
  }

  lemma Row239Ok()
    ensures forall c | c == 239 :: CaseRowOk(c, Row239)
  {
    var k := EdgeCount(Row239);
    assert EntriesOk(239, Row239, k, 14); assert EntriesOk(239, Row239, k, 13); assert EntriesOk(239, Row239, k, 12);
    assert EntriesOk(239, Row239, k, 11); assert EntriesOk(239, Row239, k, 10); assert EntriesOk(239, Row239, k, 9);
    assert EntriesOk(239, Row239, k, 8); assert EntriesOk(239, Row239, k, 7); assert EntriesOk(239, Row239, k, 6);
    assert EntriesOk(239, Row239, k, 5); assert EntriesOk(239, Row239, k, 4); assert EntriesOk(239, Row239, k, 3);
    assert EntriesOk(239, Row239, k, 2); assert EntriesOk(239, Row239, k, 1); assert EntriesOk(239, Row239, k, 0);
  }

  lemma Row240Ok()
    ensures forall c | c == 240 :: CaseRowOk(c, Row240)
  {
    var k := EdgeCount(Row240);
    assert EntriesOk(240, Row240, k, 14); assert EntriesOk(240, Row240, k, 13); assert EntriesOk(240, Row240, k, 12);
    assert EntriesOk(240, Row240, k, 11); assert EntriesOk(240, Row240, k, 10); assert EntriesOk(240, Row240, k, 9);
    assert EntriesOk(240, Row240, k, 8); assert EntriesOk(240, Row240, k, 7); assert EntriesOk(240, Row240, k, 6);
    assert EntriesOk(240, Row240, k, 5); assert EntriesOk(240, Row240, k, 4); assert EntriesOk(240, Row240, k, 3);
    assert EntriesOk(240, Row240, k, 2); assert EntriesOk(240, Row240, k, 1); assert EntriesOk(240, Row240, k, 0);
  }

  lemma Row241Ok()
    ensures forall c | c == 241 :: CaseRowOk(c, Row241)
  {
    var k := EdgeCount(Row241);
    assert EntriesOk(241, Row241, k, 14); assert EntriesOk(241, Row241, k, 13); assert EntriesOk(241, Row241, k, 12);
    assert EntriesOk(241, Row241, k, 11); assert EntriesOk(241, Row241, k, 10); assert EntriesOk(241, Row241, k, 9);
    assert EntriesOk(241, Row241, k, 8); assert EntriesOk(241, Row241, k, 7); assert EntriesOk(241, Row241, k, 6);
    assert EntriesOk(241, Row241, k, 5); assert EntriesOk(241, Row241, k, 4); assert EntriesOk(241, Row241, k, 3);
    assert EntriesOk(241, Row241, k, 2); assert EntriesOk(241, Row241, k, 1); assert EntriesOk(241, Row241, k, 0);
  }

  lemma Row242Ok()
    ensures forall c | c == 242 :: CaseRowOk(c, Row242)
  {
    var k := EdgeCount(Row242);
    assert EntriesOk(242, Row242, k, 14); assert EntriesOk(242, Row242, k, 13); assert EntriesOk(242, Row242, k, 12);
    assert EntriesOk(242, Row242, k, 11); assert EntriesOk(242, Row242, k, 10); assert EntriesOk(242, Row242, k, 9);
    assert EntriesOk(242, Row242, k, 8); assert EntriesOk(242, Row242, k, 7); assert EntriesOk(242, Row242, k, 6);
    assert EntriesOk(242, Row242, k, 5); assert EntriesOk(242, Row242, k, 4); assert EntriesOk(242, Row242, k, 3);
    assert EntriesOk(242, Row242, k, 2); assert EntriesOk(242, Row242, k, 1); assert EntriesOk(242, Row242, k, 0);
  }

  lemma Row243Ok()
    ensures forall c | c == 243 :: CaseRowOk(c, Row243)
  {
    var k := EdgeCount(Row243);
    assert EntriesOk(243, Row243, k, 14); assert EntriesOk(243, Row243, k, 13); assert EntriesOk(243, Row243, k, 12);
    assert EntriesOk(243, Row243, k, 11); assert EntriesOk(243, Row243, k, 10); assert EntriesOk(243, Row243, k, 9);
    assert EntriesOk(243, Row243, k, 8); assert EntriesOk(243, Row243, k, 7); assert EntriesOk(243, Row243, k, 6);
    assert EntriesOk(243, Row243, k, 5); assert EntriesOk(243, Row243, k, 4); assert EntriesOk(243, Row243, k, 3);
    assert EntriesOk(243, Row243, k, 2); assert EntriesOk(243, Row243, k, 1); assert EntriesOk(243, Row243, k, 0);
  }

  lemma Row244Ok()
    ensures forall c | c == 244 :: CaseRowOk(c, Row244)
  {
    var k := EdgeCount(Row244);
    assert EntriesOk(244, Row244, k, 14); assert EntriesOk(244, Row244, k, 13); assert EntriesOk(244, Row244, k, 12);
    assert EntriesOk(244, Row244, k, 11); assert EntriesOk(244, Row244, k, 10); assert EntriesOk(244, Row244, k, 9);
    assert EntriesOk(244, Row244, k, 8); assert EntriesOk(244, Row244, k, 7); assert EntriesOk(244, Row244, k, 6);
    assert EntriesOk(244, Row244, k, 5); assert EntriesOk(244, Row244, k, 4); assert EntriesOk(244, Row244, k, 3);
    assert EntriesOk(244, Row244, k, 2); assert EntriesOk(244, Row244, k, 1); assert EntriesOk(244, Row244, k, 0);
  }

  lemma Row245Ok()
    ensures forall c | c == 245 :: CaseRowOk(c, Row245)
  {
    var k := EdgeCount(Row245);
    assert EntriesOk(245, Row245, k, 14); assert EntriesOk(245, Row245, k, 13); assert EntriesOk(245, Row245, k, 12);
    assert EntriesOk(245, Row245, k, 11); assert EntriesOk(245, Row245, k, 10); assert EntriesOk(245, Row245, k, 9);
    assert EntriesOk(245, Row245, k, 8); assert EntriesOk(245, Row245, k, 7); assert EntriesOk(245, Row245, k, 6);
    assert EntriesOk(245, Row245, k, 5); assert EntriesOk(245, Row245, k, 4); assert EntriesOk(245, Row245, k, 3);
    assert EntriesOk(245, Row245, k, 2); assert EntriesOk(245, Row245, k, 1); assert EntriesOk(245, Row245, k, 0);
  }

  lemma Row246Ok()
    ensures forall c | c == 246 :: CaseRowOk(c, Row246)
  {
    var k := EdgeCount(Row246);
    assert EntriesOk(246, Row246, k, 14); assert EntriesOk(246, Row246, k, 13); assert EntriesOk(246, Row246, k, 12);
    assert EntriesOk(246, Row246, k, 11); assert EntriesOk(246, Row246, k, 10); assert EntriesOk(246, Row246, k, 9);
    assert EntriesOk(246, Row246, k, 8); assert EntriesOk(246, Row246, k, 7); assert EntriesOk(246, Row246, k, 6);
    assert EntriesOk(246, Row246, k, 5); assert EntriesOk(246, Row246, k, 4); assert EntriesOk(246, Row246, k, 3);
    assert EntriesOk(246, Row246, k, 2); assert EntriesOk(246, Row246, k, 1); assert EntriesOk(246, Row246, k, 0);
  }

  lemma Row247Ok()
    ensures forall c | c == 247 :: CaseRowOk(c, Row247)
  {
    var k := EdgeCount(Row247);
    assert EntriesOk(247, Row247, k, 14); assert EntriesOk(247, Row247, k, 13); assert EntriesOk(247, Row247, k, 12);
    assert EntriesOk(247, Row247, k, 11); assert EntriesOk(247, Row247, k, 10); assert EntriesOk(247, Row247, k, 9);
    assert EntriesOk(247, Row247, k, 8); assert EntriesOk(247, Row247, k, 7); assert EntriesOk(247, Row247, k, 6);
    assert EntriesOk(247, Row247, k, 5); assert EntriesOk(247, Row247, k, 4); assert EntriesOk(247, Row247, k, 3);
    assert EntriesOk(247, Row247, k, 2); assert EntriesOk(247, Row247, k, 1); assert EntriesOk(247, Row247, k, 0);
  }

  lemma Row248Ok()
    ensures forall c | c == 248 :: CaseRowOk(c, Row248)
  {
    var k := EdgeCount(Row248);
    assert EntriesOk(248, Row248, k, 14); assert EntriesOk(248, Row248, k, 13); assert EntriesOk(248, Row248, k, 12);
    assert EntriesOk(248, Row248, k, 11); assert EntriesOk(248, Row248, k, 10); assert EntriesOk(248, Row248, k, 9);
    assert EntriesOk(248, Row248, k, 8); assert EntriesOk(248, Row248, k, 7); assert EntriesOk(248, Row248, k, 6);
    assert EntriesOk(248, Row248, k, 5); assert EntriesOk(248, Row248, k, 4); assert EntriesOk(248, Row248, k, 3);
    assert EntriesOk(248, Row248, k, 2); assert EntriesOk(248, Row248, k, 1); assert EntriesOk(248, Row248, k, 0);
  }

  lemma Row249Ok()
    ensures forall c | c == 249 :: CaseRowOk(c, Row249)
  {
    var k := EdgeCount(Row249);
    assert EntriesOk(249, Row249, k, 14); assert EntriesOk(249, Row249, k, 13); assert EntriesOk(249, Row249, k, 12);
    assert EntriesOk(249, Row249, k, 11); assert EntriesOk(249, Row249, k, 10); assert EntriesOk(249, Row249, k, 9);
    assert EntriesOk(249, Row249, k, 8); assert EntriesOk(249, Row249, k, 7); assert EntriesOk(249, Row249, k, 6);
    assert EntriesOk(249, Row249, k, 5); assert EntriesOk(249, Row249, k, 4); assert EntriesOk(249, Row249, k, 3);
    assert EntriesOk(249, Row249, k, 2); assert EntriesOk(249, Row249, k, 1); assert EntriesOk(249, Row249, k, 0);
  }

  lemma Row250Ok()
    ensures forall c | c == 250 :: CaseRowOk(c, Row250)
  {
    var k := EdgeCount(Row250);
    assert EntriesOk(250, Row250, k, 14); assert EntriesOk(250, Row250, k, 13); assert EntriesOk(250, Row250, k, 12);
    assert EntriesOk(250, Row250, k, 11); assert EntriesOk(250, Row250, k, 10); assert EntriesOk(250, Row250, k, 9);
    assert EntriesOk(250, Row250, k, 8); assert EntriesOk(250, Row250, k, 7); assert EntriesOk(250, Row250, k, 6);
    assert EntriesOk(250, Row250, k, 5); assert EntriesOk(250, Row250, k, 4); assert EntriesOk(250, Row250, k, 3);
    assert EntriesOk(250, Row250, k, 2); assert EntriesOk(250, Row250, k, 1); assert EntriesOk(250, Row250, k, 0);
  }

  lemma Row251Ok()
    ensures forall c | c == 251 :: CaseRowOk(c, Row251)
  {
    var k := EdgeCount(Row251);
    assert EntriesOk(251, Row251, k, 14); assert EntriesOk(251, Row251, k, 13); assert EntriesOk(251, Row251, k, 12);
    assert EntriesOk(251, Row251, k, 11); assert EntriesOk(251, Row251, k, 10); assert EntriesOk(251, Row251, k, 9);
    assert EntriesOk(251, Row251, k, 8); assert EntriesOk(251, Row251, k, 7); assert EntriesOk(251, Row251, k, 6);
    assert EntriesOk(251, Row251, k, 5); assert EntriesOk(251, Row251, k, 4); assert EntriesOk(251, Row251, k, 3);
    assert EntriesOk(251, Row251, k, 2); assert EntriesOk(251, Row251, k, 1); assert EntriesOk(251, Row251, k, 0);
  }

  lemma Row252Ok()
    ensures forall c | c == 252 :: CaseRowOk(c, Row252)
  {
    var k := EdgeCount(Row252);
    assert EntriesOk(252, Row252, k, 14); assert EntriesOk(252, Row252, k, 13); assert EntriesOk(252, Row252, k, 12);
    assert EntriesOk(252, Row252, k, 11); assert EntriesOk(252, Row252, k, 10); assert EntriesOk(252, Row252, k, 9);
    assert EntriesOk(252, Row252, k, 8); assert EntriesOk(252, Row252, k, 7); assert EntriesOk(252, Row252, k, 6);
    assert EntriesOk(252, Row252, k, 5); assert EntriesOk(252, Row252, k, 4); assert EntriesOk(252, Row252, k, 3);
    assert EntriesOk(252, Row252, k, 2); assert EntriesOk(252, Row252, k, 1); assert EntriesOk(252, Row252, k, 0);
  }

  lemma Row253Ok()
    ensures forall c | c == 253 :: CaseRowOk(c, Row253)
  {
    var k := EdgeCount(Row253);
    assert EntriesOk(253, Row253, k, 14); assert EntriesOk(253, Row253, k, 13); assert EntriesOk(253, Row253, k, 12);
    assert EntriesOk(253, Row253, k, 11); assert EntriesOk(253, Row253, k, 10); assert EntriesOk(253, Row253, k, 9);
    assert EntriesOk(253, Row253, k, 8); assert EntriesOk(253, Row253, k, 7); assert EntriesOk(253, Row253, k, 6);
    assert EntriesOk(253, Row253, k, 5); assert EntriesOk(253, Row253, k, 4); assert EntriesOk(253, Row253, k, 3);
    assert EntriesOk(253, Row253, k, 2); assert EntriesOk(253, Row253, k, 1); assert EntriesOk(253, Row253, k, 0);
  }

  lemma Row254Ok()
    ensures forall c | c == 254 :: CaseRowOk(c, Row254)
  {
    var k := EdgeCount(Row254);
    assert EntriesOk(254, Row254, k, 14); assert EntriesOk(254, Row254, k, 13); assert EntriesOk(254, Row254, k, 12);
    assert EntriesOk(254, Row254, k, 11); assert EntriesOk(254, Row254, k, 10); assert EntriesOk(254, Row254, k, 9);
    assert EntriesOk(254, Row254, k, 8); assert EntriesOk(254, Row254, k, 7); assert EntriesOk(254, Row254, k, 6);
    assert EntriesOk(254, Row254, k, 5); assert EntriesOk(254, Row254, k, 4); assert EntriesOk(254, Row254, k, 3);
    assert EntriesOk(254, Row254, k, 2); assert EntriesOk(254, Row254, k, 1); assert EntriesOk(254, Row254, k, 0);
  }

  lemma Row255Ok()
    ensures forall c | c == 255 :: CaseRowOk(c, Row255)
  {
    var k := EdgeCount(Row255);
    assert EntriesOk(255, Row255, k, 14); assert EntriesOk(255, Row255, k, 13); assert EntriesOk(255, Row255, k, 12);
    assert EntriesOk(255, Row255, k, 11); assert EntriesOk(255, Row255, k, 10); assert EntriesOk(255, Row255, k, 9);
    assert EntriesOk(255, Row255, k, 8); assert EntriesOk(255, Row255, k, 7); assert EntriesOk(255, Row255, k, 6);
    assert EntriesOk(255, Row255, k, 5); assert EntriesOk(255, Row255, k, 4); assert EntriesOk(255, Row255, k, 3);
    assert EntriesOk(255, Row255, k, 2); assert EntriesOk(255, Row255, k, 1); assert EntriesOk(255, Row255, k, 0);
  }

  lemma Block0Ok()
    ensures forall r | 0 <= r < 16 :: BlockRowOk(0, r, Block0[r])
  {
    Row0Ok(); Row1Ok(); Row2Ok(); Row3Ok(); Row4Ok(); Row5Ok(); Row6Ok(); Row7Ok();
    Row8Ok(); Row9Ok(); Row10Ok(); Row11Ok(); Row12Ok(); Row13Ok(); Row14Ok(); Row15Ok();
    forall r | 0 <= r < 16
      ensures BlockRowOk(0, r, Block0[r])
    {
      if r == 0 {
        assert Block0[0] == Row0;
      } else if r == 1 {
        assert Block0[1] == Row1;
      } else if r == 2 {
        assert Block0[2] == Row2;
      } else if r == 3 {
        assert Block0[3] == Row3;
      } else if r == 4 {
        assert Block0[4] == Row4;
      } else if r == 5 {
        assert Block0[5] == Row5;
      } else if r == 6 {
        assert Block0[6] == Row6;
      } else if r == 7 {
        assert Block0[7] == Row7;
      } else if r == 8 {
        assert Block0[8] == Row8;
      } else if r == 9 {
        assert Block0[9] == Row9;
      } else if r == 10 {
        assert Block0[10] == Row10;
      } else if r == 11 {
        assert Block0[11] == Row11;
      } else if r == 12 {
        assert Block0[12] == Row12;
      } else if r == 13 {
        assert Block0[13] == Row13;
      } else if r == 14 {
        assert Block0[14] == Row14;
      } else {
        assert Block0[15] == Row15;
      }
    }
  }

  lemma Block1Ok()
    ensures forall r | 0 <= r < 16 :: BlockRowOk(1, r, Block1[r])
  {
    Row16Ok(); Row17Ok(); Row18Ok(); Row19Ok(); Row20Ok(); Row21Ok(); Row22Ok(); Row23Ok();
    Row24Ok(); Row25Ok(); Row26Ok(); Row27Ok(); Row28Ok(); Row29Ok(); Row30Ok(); Row31Ok();
    forall r | 0 <= r < 16
      ensures BlockRowOk(1, r, Block1[r])
    {
      if r == 0 {
        assert Block1[0] == Row16;
      } else if r == 1 {
        assert Block1[1] == Row17;
      } else if r == 2 {
        assert Block1[2] == Row18;
      } else if r == 3 {
        assert Block1[3] == Row19;
      } else if r == 4 {
        assert Block1[4] == Row20;
      } else if r == 5 {
        assert Block1[5] == Row21;
      } else if r == 6 {
        assert Block1[6] == Row22;
      } else if r == 7 {
        assert Block1[7] == Row23;
      } else if r == 8 {
        assert Block1[8] == Row24;
      } else if r == 9 {
        assert Block1[9] == Row25;
      } else if r == 10 {
        assert Block1[10] == Row26;
      } else if r == 11 {
        assert Block1[11] == Row27;
      } else if r == 12 {
        assert Block1[12] == Row28;
      } else if r == 13 {
        assert Block1[13] == Row29;
      } else if r == 14 {
        assert Block1[14] == Row30;
      } else {
        assert Block1[15] == Row31;
      }
    }
  }

  lemma Block2Ok()
    ensures forall r | 0 <= r < 16 :: BlockRowOk(2, r, Block2[r])
  {
    Row32Ok(); Row33Ok(); Row34Ok(); Row35Ok(); Row36Ok(); Row37Ok(); Row38Ok(); Row39Ok();
    Row40Ok(); Row41Ok(); Row42Ok(); Row43Ok(); Row44Ok(); Row45Ok(); Row46Ok(); Row47Ok();
    forall r | 0 <= r < 16
      ensures BlockRowOk(2, r, Block2[r])
    {
      if r == 0 {
        assert Block2[0] == Row32;
      } else if r == 1 {
        assert Block2[1] == Row33;
      } else if r == 2 {
        assert Block2[2] == Row34;
      } else if r == 3 {
        assert Block2[3] == Row35;
      } else if r == 4 {
        assert Block2[4] == Row36;
      } else if r == 5 {
        assert Block2[5] == Row37;
      } else if r == 6 {
        assert Block2[6] == Row38;
      } else if r == 7 {
        assert Block2[7] == Row39;
      } else if r == 8 {
        assert Block2[8] == Row40;
      } else if r == 9 {
        assert Block2[9] == Row41;
      } else if r == 10 {
        assert Block2[10] == Row42;
      } else if r == 11 {
        assert Block2[11] == Row43;
      } else if r == 12 {
        assert Block2[12] == Row44;
      } else if r == 13 {
        assert Block2[13] == Row45;
      } else if r == 14 {
        assert Block2[14] == Row46;
      } else {
        assert Block2[15] == Row47;
      }
    }
  }

  lemma Block3Ok()
    ensures forall r | 0 <= r < 16 :: BlockRowOk(3, r, Block3[r])
  {
    Row48Ok(); Row49Ok(); Row50Ok(); Row51Ok(); Row52Ok(); Row53Ok(); Row54Ok(); Row55Ok();
    Row56Ok(); Row57Ok(); Row58Ok(); Row59Ok(); Row60Ok(); Row61Ok(); Row62Ok(); Row63Ok();
    forall r | 0 <= r < 16
      ensures BlockRowOk(3, r, Block3[r])
    {
      if r == 0 {
        assert Block3[0] == Row48;
      } else if r == 1 {
        assert Block3[1] == Row49;
      } else if r == 2 {
        assert Block3[2] == Row50;
      } else if r == 3 {
        assert Block3[3] == Row51;
      } else if r == 4 {
        assert Block3[4] == Row52;
      } else if r == 5 {
        assert Block3[5] == Row53;
      } else if r == 6 {
        assert Block3[6] == Row54;
      } else if r == 7 {
        assert Block3[7] == Row55;
      } else if r == 8 {
        assert Block3[8] == Row56;
      } else if r == 9 {
        assert Block3[9] == Row57;
      } else if r == 10 {
        assert Block3[10] == Row58;
      } else if r == 11 {
        assert Block3[11] == Row59;
      } else if r == 12 {
        assert Block3[12] == Row60;
      } else if r == 13 {
        assert Block3[13] == Row61;
      } else if r == 14 {
        assert Block3[14] == Row62;
      } else {
        assert Block3[15] == Row63;
      }
    }
  }

  lemma Block4Ok()
    ensures forall r | 0 <= r < 16 :: BlockRowOk(4, r, Block4[r])
  {
    Row64Ok(); Row65Ok(); Row66Ok(); Row67Ok(); Row68Ok(); Row69Ok(); Row70Ok(); Row71Ok();
    Row72Ok(); Row73Ok(); Row74Ok(); Row75Ok(); Row76Ok(); Row77Ok(); Row78Ok(); Row79Ok();
    forall r | 0 <= r < 16
      ensures BlockRowOk(4, r, Block4[r])
    {
      if r == 0 {
        assert Block4[0] == Row64;
      } else if r == 1 {
        assert Block4[1] == Row65;
      } else if r == 2 {
        assert Block4[2] == Row66;
      } else if r == 3 {
        assert Block4[3] == Row67;
      } else if r == 4 {
        assert Block4[4] == Row68;
      } else if r == 5 {
        assert Block4[5] == Row69;
      } else if r == 6 {
        assert Block4[6] == Row70;
      } else if r == 7 {
        assert Block4[7] == Row71;
      } else if r == 8 {
        assert Block4[8] == Row72;
      } else if r == 9 {
        assert Block4[9] == Row73;
      } else if r == 10 {
        assert Block4[10] == Row74;
      } else if r == 11 {
        assert Block4[11] == Row75;
      } else if r == 12 {
        assert Block4[12] == Row76;
      } else if r == 13 {
        assert Block4[13] == Row77;
      } else if r == 14 {
        assert Block4[14] == Row78;
      } else {
        assert Block4[15] == Row79;
      }
    }
  }

  lemma Block5Ok()
    ensures forall r | 0 <= r < 16 :: BlockRowOk(5, r, Block5[r])
  {
    Row80Ok(); Row81Ok(); Row82Ok(); Row83Ok(); Row84Ok(); Row85Ok(); Row86Ok(); Row87Ok();
    Row88Ok(); Row89Ok(); Row90Ok(); Row91Ok(); Row92Ok(); Row93Ok(); Row94Ok(); Row95Ok();
    forall r | 0 <= r < 16
      ensures BlockRowOk(5, r, Block5[r])
    {
      if r == 0 {
        assert Block5[0] == Row80;
      } else if r == 1 {
        assert Block5[1] == Row81;
      } else if r == 2 {
        assert Block5[2] == Row82;
      } else if r == 3 {
        assert Block5[3] == Row83;
      } else if r == 4 {
        assert Block5[4] == Row84;
      } else if r == 5 {
        assert Block5[5] == Row85;
      } else if r == 6 {
        assert Block5[6] == Row86;
      } else if r == 7 {
        assert Block5[7] == Row87;
      } else if r == 8 {
        assert Block5[8] == Row88;
      } else if r == 9 {
        assert Block5[9] == Row89;
      } else if r == 10 {
        assert Block5[10] == Row90;
      } else if r == 11 {
        assert Block5[11] == Row91;
      } else if r == 12 {
        assert Block5[12] == Row92;
      } else if r == 13 {
        assert Block5[13] == Row93;
      } else if r == 14 {
        assert Block5[14] == Row94;
      } else {
        assert Block5[15] == Row95;
      }
    }
  }

  lemma Block6Ok()
    ensures forall r | 0 <= r < 16 :: BlockRowOk(6, r, Block6[r])
  {
    Row96Ok(); Row97Ok(); Row98Ok(); Row99Ok(); Row100Ok(); Row101Ok(); Row102Ok(); Row103Ok();
    Row104Ok(); Row105Ok(); Row106Ok(); Row107Ok(); Row108Ok(); Row109Ok(); Row110Ok(); Row111Ok();
    forall r | 0 <= r < 16
      ensures BlockRowOk(6, r, Block6[r])
    {
      if r == 0 {
        assert Block6[0] == Row96;
      } else if r == 1 {
        assert Block6[1] == Row97;
      } else if r == 2 {
        assert Block6[2] == Row98;
      } else if r == 3 {
        assert Block6[3] == Row99;
      } else if r == 4 {
        assert Block6[4] == Row100;
      } else if r == 5 {
        assert Block6[5] == Row101;
      } else if r == 6 {
        assert Block6[6] == Row102;
      } else if r == 7 {
        assert Block6[7] == Row103;
      } else if r == 8 {
        assert Block6[8] == Row104;
      } else if r == 9 {
        assert Block6[9] == Row105;
      } else if r == 10 {
        assert Block6[10] == Row106;
      } else if r == 11 {
        assert Block6[11] == Row107;
      } else if r == 12 {
        assert Block6[12] == Row108;
      } else if r == 13 {
        assert Block6[13] == Row109;
      } else if r == 14 {
        assert Block6[14] == Row110;
      } else {
        assert Block6[15] == Row111;
      }
    }
  }

  lemma Block7Ok()
    ensures forall r | 0 <= r < 16 :: BlockRowOk(7, r, Block7[r])
  {
    Row112Ok(); Row113Ok(); Row114Ok(); Row115Ok(); Row116Ok(); Row117Ok(); Row118Ok(); Row119Ok();
    Row120Ok(); Row121Ok(); Row122Ok(); Row123Ok(); Row124Ok(); Row125Ok(); Row126Ok(); Row127Ok();
    forall r | 0 <= r < 16
      ensures BlockRowOk(7, r, Block7[r])
    {
      if r == 0 {
        assert Block7[0] == Row112;
      } else if r == 1 {
        assert Block7[1] == Row113;
      } else if r == 2 {
        assert Block7[2] == Row114;
      } else if r == 3 {
        assert Block7[3] == Row115;
      } else if r == 4 {
        assert Block7[4] == Row116;
      } else if r == 5 {
        assert Block7[5] == Row117;
      } else if r == 6 {
        assert Block7[6] == Row118;
      } else if r == 7 {
        assert Block7[7] == Row119;
      } else if r == 8 {
        assert Block7[8] == Row120;
      } else if r == 9 {
        assert Block7[9] == Row121;
      } else if r == 10 {
        assert Block7[10] == Row122;
      } else if r == 11 {
        assert Block7[11] == Row123;
      } else if r == 12 {
        assert Block7[12] == Row124;
      } else if r == 13 {
        assert Block7[13] == Row125;
      } else if r == 14 {
        assert Block7[14] == Row126;
      } else {
        assert Block7[15] == Row127;
      }
    }
  }

  lemma Block8Ok()
    ensures forall r | 0 <= r < 16 :: BlockRowOk(8, r, Block8[r])
  {
    Row128Ok(); Row129Ok(); Row130Ok(); Row131Ok(); Row132Ok(); Row133Ok(); Row134Ok(); Row135Ok();
    Row136Ok(); Row137Ok(); Row138Ok(); Row139Ok(); Row140Ok(); Row141Ok(); Row142Ok(); Row143Ok();
    forall r | 0 <= r < 16
      ensures BlockRowOk(8, r, Block8[r])
    {
      if r == 0 {
        assert Block8[0] == Row128;
      } else if r == 1 {
        assert Block8[1] == Row129;
      } else if r == 2 {
        assert Block8[2] == Row130;
      } else if r == 3 {
        assert Block8[3] == Row131;
      } else if r == 4 {
        assert Block8[4] == Row132;
      } else if r == 5 {
        assert Block8[5] == Row133;
      } else if r == 6 {
        assert Block8[6] == Row134;
      } else if r == 7 {
        assert Block8[7] == Row135;
      } else if r == 8 {
        assert Block8[8] == Row136;
      } else if r == 9 {
        assert Block8[9] == Row137;
      } else if r == 10 {
        assert Block8[10] == Row138;
      } else if r == 11 {
        assert Block8[11] == Row139;
      } else if r == 12 {
        assert Block8[12] == Row140;
      } else if r == 13 {
        assert Block8[13] == Row141;
      } else if r == 14 {
        assert Block8[14] == Row142;
      } else {
        assert Block8[15] == Row143;
      }
    }
  }

  lemma Block9Ok()
    ensures forall r | 0 <= r < 16 :: BlockRowOk(9, r, Block9[r])
  {
    Row144Ok(); Row145Ok(); Row146Ok(); Row147Ok(); Row148Ok(); Row149Ok(); Row150Ok(); Row151Ok();
    Row152Ok(); Row153Ok(); Row154Ok(); Row155Ok(); Row156Ok(); Row157Ok(); Row158Ok(); Row159Ok();
    forall r | 0 <= r < 16
      ensures BlockRowOk(9, r, Block9[r])
    {
      if r == 0 {
        assert Block9[0] == Row144;
      } else if r == 1 {
        assert Block9[1] == Row145;
      } else if r == 2 {
        assert Block9[2] == Row146;
      } else if r == 3 {
        assert Block9[3] == Row147;
      } else if r == 4 {
        assert Block9[4] == Row148;
      } else if r == 5 {
        assert Block9[5] == Row149;
      } else if r == 6 {
        assert Block9[6] == Row150;
      } else if r == 7 {
        assert Block9[7] == Row151;
      } else if r == 8 {
        assert Block9[8] == Row152;
      } else if r == 9 {
        assert Block9[9] == Row153;
      } else if r == 10 {
        assert Block9[10] == Row154;
      } else if r == 11 {
        assert Block9[11] == Row155;
      } else if r == 12 {
        assert Block9[12] == Row156;
      } else if r == 13 {
        assert Block9[13] == Row157;
      } else if r == 14 {
        assert Block9[14] == Row158;
      } else {
        assert Block9[15] == Row159;
      }
    }
  }

  lemma Block10Ok()
    ensures forall r | 0 <= r < 16 :: BlockRowOk(10, r, Block10[r])
  {
    Row160Ok(); Row161Ok(); Row162Ok(); Row163Ok(); Row164Ok(); Row165Ok(); Row166Ok(); Row167Ok();
    Row168Ok(); Row169Ok(); Row170Ok(); Row171Ok(); Row172Ok(); Row173Ok(); Row174Ok(); Row175Ok();
    forall r | 0 <= r < 16
      ensures BlockRowOk(10, r, Block10[r])
    {
      if r == 0 {
        assert Block10[0] == Row160;
      } else if r == 1 {
        assert Block10[1] == Row161;
      } else if r == 2 {
        assert Block10[2] == Row162;
      } else if r == 3 {
        assert Block10[3] == Row163;
      } else if r == 4 {
        assert Block10[4] == Row164;
      } else if r == 5 {
        assert Block10[5] == Row165;
      } else if r == 6 {
        assert Block10[6] == Row166;
      } else if r == 7 {
        assert Block10[7] == Row167;
      } else if r == 8 {
        assert Block10[8] == Row168;
      } else if r == 9 {
        assert Block10[9] == Row169;
      } else if r == 10 {
        assert Block10[10] == Row170;
      } else if r == 11 {
        assert Block10[11] == Row171;
      } else if r == 12 {
        assert Block10[12] == Row172;
      } else if r == 13 {
        assert Block10[13] == Row173;
      } else if r == 14 {
        assert Block10[14] == Row174;
      } else {
        assert Block10[15] == Row175;
      }
    }
  }

  lemma Block11Ok()
    ensures forall r | 0 <= r < 16 :: BlockRowOk(11, r, Block11[r])
  {
    Row176Ok(); Row177Ok(); Row178Ok(); Row179Ok(); Row180Ok(); Row181Ok(); Row182Ok(); Row183Ok();
    Row184Ok(); Row185Ok(); Row186Ok(); Row187Ok(); Row188Ok(); Row189Ok(); Row190Ok(); Row191Ok();
    forall r | 0 <= r < 16
      ensures BlockRowOk(11, r, Block11[r])
    {
      if r == 0 {
        assert Block11[0] == Row176;
      } else if r == 1 {
        assert Block11[1] == Row177;
      } else if r == 2 {
        assert Block11[2] == Row178;
      } else if r == 3 {
        assert Block11[3] == Row179;
      } else if r == 4 {
        assert Block11[4] == Row180;
      } else if r == 5 {
        assert Block11[5] == Row181;
      } else if r == 6 {
        assert Block11[6] == Row182;
      } else if r == 7 {
        assert Block11[7] == Row183;
      } else if r == 8 {
        assert Block11[8] == Row184;
      } else if r == 9 {
        assert Block11[9] == Row185;
      } else if r == 10 {
        assert Block11[10] == Row186;
      } else if r == 11 {
        assert Block11[11] == Row187;
      } else if r == 12 {
        assert Block11[12] == Row188;
      } else if r == 13 {
        assert Block11[13] == Row189;
      } else if r == 14 {
        assert Block11[14] == Row190;
      } else {
        assert Block11[15] == Row191;
      }
    }
  }

  lemma Block12Ok()
    ensures forall r | 0 <= r < 16 :: BlockRowOk(12, r, Block12[r])
  {
    Row192Ok(); Row193Ok(); Row194Ok(); Row195Ok(); Row196Ok(); Row197Ok(); Row198Ok(); Row199Ok();
    Row200Ok(); Row201Ok(); Row202Ok(); Row203Ok(); Row204Ok(); Row205Ok(); Row206Ok(); Row207Ok();
    forall r | 0 <= r < 16
      ensures BlockRowOk(12, r, Block12[r])
    {
      if r == 0 {
        assert Block12[0] == Row192;
      } else if r == 1 {
        assert Block12[1] == Row193;
      } else if r == 2 {
        assert Block12[2] == Row194;
      } else if r == 3 {
        assert Block12[3] == Row195;
      } else if r == 4 {
        assert Block12[4] == Row196;
      } else if r == 5 {
        assert Block12[5] == Row197;
      } else if r == 6 {
        assert Block12[6] == Row198;
      } else if r == 7 {
        assert Block12[7] == Row199;
      } else if r == 8 {
        assert Block12[8] == Row200;
      } else if r == 9 {
        assert Block12[9] == Row201;
      } else if r == 10 {
        assert Block12[10] == Row202;
      } else if r == 11 {
        assert Block12[11] == Row203;
      } else if r == 12 {
        assert Block12[12] == Row204;
      } else if r == 13 {
        assert Block12[13] == Row205;
      } else if r == 14 {
        assert Block12[14] == Row206;
      } else {
        assert Block12[15] == Row207;
      }
    }
  }

  lemma Block13Ok()
    ensures forall r | 0 <= r < 16 :: BlockRowOk(13, r, Block13[r])
  {
    Row208Ok(); Row209Ok(); Row210Ok(); Row211Ok(); Row212Ok(); Row213Ok(); Row214Ok(); Row215Ok();
    Row216Ok(); Row217Ok(); Row218Ok(); Row219Ok(); Row220Ok(); Row221Ok(); Row222Ok(); Row223Ok();
    forall r | 0 <= r < 16
      ensures BlockRowOk(13, r, Block13[r])
    {
      if r == 0 {
        assert Block13[0] == Row208;
      } else if r == 1 {
        assert Block13[1] == Row209;
      } else if r == 2 {
        assert Block13[2] == Row210;
      } else if r == 3 {
        assert Block13[3] == Row211;
      } else if r == 4 {
        assert Block13[4] == Row212;
      } else if r == 5 {
        assert Block13[5] == Row213;
      } else if r == 6 {
        assert Block13[6] == Row214;
      } else if r == 7 {
        assert Block13[7] == Row215;
      } else if r == 8 {
        assert Block13[8] == Row216;
      } else if r == 9 {
        assert Block13[9] == Row217;
      } else if r == 10 {
        assert Block13[10] == Row218;
      } else if r == 11 {
        assert Block13[11] == Row219;
      } else if r == 12 {
        assert Block13[12] == Row220;
      } else if r == 13 {
        assert Block13[13] == Row221;
      } else if r == 14 {
        assert Block13[14] == Row222;
      } else {
        assert Block13[15] == Row223;
      }
    }
  }

  lemma Block14Ok()
    ensures forall r | 0 <= r < 16 :: BlockRowOk(14, r, Block14[r])
  {
    Row224Ok(); Row225Ok(); Row226Ok(); Row227Ok(); Row228Ok(); Row229Ok(); Row230Ok(); Row231Ok();
    Row232Ok(); Row233Ok(); Row234Ok(); Row235Ok(); Row236Ok(); Row237Ok(); Row238Ok(); Row239Ok();
    forall r | 0 <= r < 16
      ensures BlockRowOk(14, r, Block14[r])
    {
      if r == 0 {
        assert Block14[0] == Row224;
      } else if r == 1 {
        assert Block14[1] == Row225;
      } else if r == 2 {
        assert Block14[2] == Row226;
      } else if r == 3 {
        assert Block14[3] == Row227;
      } else if r == 4 {
        assert Block14[4] == Row228;
      } else if r == 5 {
        assert Block14[5] == Row229;
      } else if r == 6 {
        assert Block14[6] == Row230;
      } else if r == 7 {
        assert Block14[7] == Row231;
      } else if r == 8 {
        assert Block14[8] == Row232;
      } else if r == 9 {
        assert Block14[9] == Row233;
      } else if r == 10 {
        assert Block14[10] == Row234;
      } else if r == 11 {
        assert Block14[11] == Row235;
      } else if r == 12 {
        assert Block14[12] == Row236;
      } else if r == 13 {
        assert Block14[13] == Row237;
      } else if r == 14 {
        assert Block14[14] == Row238;
      } else {
        assert Block14[15] == Row239;
      }
    }
  }

  lemma Block15Ok()
    ensures forall r | 0 <= r < 16 :: BlockRowOk(15, r, Block15[r])
  {
    Row240Ok(); Row241Ok(); Row242Ok(); Row243Ok(); Row244Ok(); Row245Ok(); Row246Ok(); Row247Ok();
    Row248Ok(); Row249Ok(); Row250Ok(); Row251Ok(); Row252Ok(); Row253Ok(); Row254Ok(); Row255Ok();
    forall r | 0 <= r < 16
      ensures BlockRowOk(15, r, Block15[r])
    {
      if r == 0 {
        assert Block15[0] == Row240;
      } else if r == 1 {
        assert Block15[1] == Row241;
      } else if r == 2 {
        assert Block15[2] == Row242;
      } else if r == 3 {
        assert Block15[3] == Row243;
      } else if r == 4 {
        assert Block15[4] == Row244;
      } else if r == 5 {
        assert Block15[5] == Row245;
      } else if r == 6 {
        assert Block15[6] == Row246;
      } else if r == 7 {
        assert Block15[7] == Row247;
      } else if r == 8 {
        assert Block15[8] == Row248;
      } else if r == 9 {
        assert Block15[9] == Row249;
      } else if r == 10 {
        assert Block15[10] == Row250;
      } else if r == 11 {
        assert Block15[11] == Row251;
      } else if r == 12 {
        assert Block15[12] == Row252;
      } else if r == 13 {
        assert Block15[13] == Row253;
      } else if r == 14 {
        assert Block15[14] == Row254;
      } else {
        assert Block15[15] == Row255;
      }
    }
  }

  /** Every row of block b is well formed for its case. */
  lemma BlockOk(b: int)
    requires 0 <= b < 16
    ensures forall r | 0 <= r < 16 :: BlockRowOk(b, r, Blocks[b][r])
  {
    if b == 0 {
      Block0Ok();
      assert Blocks[0] == Block0;
    } else if b == 1 {
      Block1Ok();
      assert Blocks[1] == Block1;
    } else if b == 2 {
      Block2Ok();
      assert Blocks[2] == Block2;
    } else if b == 3 {
      Block3Ok();
      assert Blocks[3] == Block3;
    } else if b == 4 {
      Block4Ok();
      assert Blocks[4] == Block4;
    } else if b == 5 {
      Block5Ok();
      assert Blocks[5] == Block5;
    } else if b == 6 {
      Block6Ok();
      assert Blocks[6] == Block6;
    } else if b == 7 {
      Block7Ok();
      assert Blocks[7] == Block7;
    } else if b == 8 {
      Block8Ok();
      assert Blocks[8] == Block8;
    } else if b == 9 {
      Block9Ok();
      assert Blocks[9] == Block9;
    } else if b == 10 {
      Block10Ok();
      assert Blocks[10] == Block10;
    } else if b == 11 {
      Block11Ok();
      assert Blocks[11] == Block11;
    } else if b == 12 {
      Block12Ok();
      assert Blocks[12] == Block12;
    } else if b == 13 {
      Block13Ok();
      assert Blocks[13] == Block13;
    } else if b == 14 {
      Block14Ok();
      assert Blocks[14] == Block14;
    } else {
      Block15Ok();
      assert Blocks[15] == Block15;
    }
  }

  /** Every row of the table is well formed for its case. */
  lemma TriTableOk()
    ensures forall c | 0 <= c < 256 :: CaseRowOk(c, TriRow(c))
  {
    forall c | 0 <= c < 256
      ensures CaseRowOk(c, TriRow(c))
    {
      BlockOk(c / 16);
      assert 16 * (c / 16) + c % 16 == c;
    }
  }

  /** The unrolled row check, restated with a quantifier over the listed positions. */
  lemma RowEdges(c: bv8, row: seq<int>)
    requires RowOk(c, row)
    ensures forall t | 0 <= t < EdgeCount(row) :: 0 <= row[t] < 12 && Crosses(c, row[t])
  {
    EntriesEdges(c, row, EdgeCount(row), 0);
  }

  /** The position-by-position check of positions t .. 14, restated with a quantifier. */
  lemma {:induction false} EntriesEdges(c: bv8, row: seq<int>, n: int, t: nat)
    requires |row| == 16 && n < 16 && EntriesOk(c, row, n, t)
    ensures forall s | t <= s < n :: 0 <= row[s] < 12 && Crosses(c, row[s])
    decreases 15 - t
  {
    if t < 15 {
      EntriesEdges(c, row, n, t + 1);
    }
  }

  /**
   * What extraction relies on for every case c: row c lists a whole number of triangles, at
   * most five, and each listed entry is an edge id whose corners lie on opposite sides of the
   * isovalue in case c.
   */
  lemma CaseEdges(c: int)
    requires 0 <= c < 256
    ensures |TriRow(c)| == 16
    ensures EdgeCount(TriRow(c)) < 16 && EdgeCount(TriRow(c)) % 3 == 0
    ensures forall t | 0 <= t < EdgeCount(TriRow(c)) ::
              0 <= TriRow(c)[t] < 12 && Crosses(c as bv8, TriRow(c)[t])
  {
    TriTableOk();
    assert CaseRowOk(c, TriRow(c));
    RowEdges(c as bv8, TriRow(c));
  }

  /** The source's triangle table is a valid one. */
  lemma TriTableValid()
    ensures ValidTable(TriTable())
  {
    forall c | 0 <= c < 256
      ensures |TriTable()[c]| == 16 && EdgeCount(TriTable()[c]) < 16 && EdgeCount(TriTable()[c]) % 3 == 0
      ensures forall t | 0 <= t < EdgeCount(TriTable()[c]) ::
                0 <= TriTable()[c][t] < 12 && Crosses(c as bv8, TriTable()[c][t])
    {
      CaseEdges(c);
    }
  }
}
