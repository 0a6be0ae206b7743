/**
 * The two constant lookup tables of the marching-cubes demo, entry for entry
 * as they are uploaded to the compute shader's `edge_cases` and
 * `triangle_cases` storage buffers.
 *
 * `EdgeCase(c)` is entry `c` of `EDGE_CASES` (a `Uint32Array`, so a `bv32`):
 * bit `e` is set when edge `e` of a cube with corner pattern `c` crosses the
 * surface.  `TriangleRow(c)` is row `c` of `TRIANGLE_CASES`, 16 edge indices,
 * three per triangle, padded with -1; `TriangleCase(i)` is the flat entry
 * `TRIANGLE_CASES[i]` the shader reads.  Both tables are written as a
 * two-level `match`, one function per 16 consecutive cases (one source line
 * of `EDGE_CASES`, sixteen source lines of `TRIANGLE_CASES`).
 */
module MarchingCubesTables {
  /** One 16-entry row of `TRIANGLE_CASES`. */
  datatype Row = Row(e0: int, e1: int, e2: int, e3: int, e4: int, e5: int, e6: int, e7: int, e8: int, e9: int, e10: int, e11: int, e12: int, e13: int, e14: int, e15: int)

  /** Entry `j` of a row. */
  function Entry(r: Row, j: int): int {
    match j
    case 0 => r.e0
    case 1 => r.e1
    case 2 => r.e2
    case 3 => r.e3
    case 4 => r.e4
    case 5 => r.e5
    case 6 => r.e6
    case 7 => r.e7
    case 8 => r.e8
    case 9 => r.e9
    case 10 => r.e10
    case 11 => r.e11
    case 12 => r.e12
    case 13 => r.e13
    case 14 => r.e14
    case _ => r.e15
  }

  /** `EDGE_CASES[c]`. */
  function EdgeCase(c: int): bv32
    requires 0 <= c < 256
  {
    match c / 16
    case 0 => EdgeCases0(c % 16)
    case 1 => EdgeCases1(c % 16)
    case 2 => EdgeCases2(c % 16)
    case 3 => EdgeCases3(c % 16)
    case 4 => EdgeCases4(c % 16)
    case 5 => EdgeCases5(c % 16)
    case 6 => EdgeCases6(c % 16)
    case 7 => EdgeCases7(c % 16)
    case 8 => EdgeCases8(c % 16)
    case 9 => EdgeCases9(c % 16)
    case 10 => EdgeCases10(c % 16)
    case 11 => EdgeCases11(c % 16)
    case 12 => EdgeCases12(c % 16)
    case 13 => EdgeCases13(c % 16)
    case 14 => EdgeCases14(c % 16)
    case _ => EdgeCases15(c % 16)
  }

  function EdgeCases0(k: int): bv32 {
    match k
    case 0 => 0x000
    case 1 => 0x109
    case 2 => 0x203
    case 3 => 0x30a
    case 4 => 0x406
    case 5 => 0x50f
    case 6 => 0x605
    case 7 => 0x70c
    case 8 => 0x80c
    case 9 => 0x905
    case 10 => 0xa0f
    case 11 => 0xb06
    case 12 => 0xc0a
    case 13 => 0xd03
    case 14 => 0xe09
    case _ => 0xf00
  }

  function EdgeCases1(k: int): bv32 {
    match k
    case 0 => 0x190
    case 1 => 0x099
    case 2 => 0x393
    case 3 => 0x29a
    case 4 => 0x596
    case 5 => 0x49f
    case 6 => 0x795
    case 7 => 0x69c
    case 8 => 0x99c
    case 9 => 0x895
    case 10 => 0xb9f
    case 11 => 0xa96
    case 12 => 0xd9a
    case 13 => 0xc93
    case 14 => 0xf99
    case _ => 0xe90
  }

  function EdgeCases2(k: int): bv32 {
    match k
    case 0 => 0x230
    case 1 => 0x339
    case 2 => 0x033
    case 3 => 0x13a
    case 4 => 0x636
    case 5 => 0x73f
    case 6 => 0x435
    case 7 => 0x53c
    case 8 => 0xa3c
    case 9 => 0xb35
    case 10 => 0x83f
    case 11 => 0x936
    case 12 => 0xe3a
    case 13 => 0xf33
    case 14 => 0xc39
    case _ => 0xd30
  }

  function EdgeCases3(k: int): bv32 {
    match k
    case 0 => 0x3a0
    case 1 => 0x2a9
    case 2 => 0x1a3
    case 3 => 0x0aa
    case 4 => 0x7a6
    case 5 => 0x6af
    case 6 => 0x5a5
    case 7 => 0x4ac
    case 8 => 0xbac
    case 9 => 0xaa5
    case 10 => 0x9af
    case 11 => 0x8a6
    case 12 => 0xfaa
    case 13 => 0xea3
    case 14 => 0xda9
    case _ => 0xca0
  }

  function EdgeCases4(k: int): bv32 {
    match k
    case 0 => 0x460
    case 1 => 0x569
    case 2 => 0x663
    case 3 => 0x76a
    case 4 => 0x066
    case 5 => 0x16f
    case 6 => 0x265
    case 7 => 0x36c
    case 8 => 0xc6c
    case 9 => 0xd65
    case 10 => 0xe6f
    case 11 => 0xf66
    case 12 => 0x86a
    case 13 => 0x963
    case 14 => 0xa69
    case _ => 0xb60
  }

  function EdgeCases5(k: int): bv32 {
    match k
    case 0 => 0x5f0
    case 1 => 0x4f9
    case 2 => 0x7f3
    case 3 => 0x6fa
    case 4 => 0x1f6
    case 5 => 0x0ff
    case 6 => 0x3f5
    case 7 => 0x2fc
    case 8 => 0xdfc
    case 9 => 0xcf5
    case 10 => 0xfff
    case 11 => 0xef6
    case 12 => 0x9fa
    case 13 => 0x8f3
    case 14 => 0xbf9
    case _ => 0xaf0
  }

  function EdgeCases6(k: int): bv32 {
    match k
    case 0 => 0x650
    case 1 => 0x759
    case 2 => 0x453
    case 3 => 0x55a
    case 4 => 0x256
    case 5 => 0x35f
    case 6 => 0x055
    case 7 => 0x15c
    case 8 => 0xe5c
    case 9 => 0xf55
    case 10 => 0xc5f
    case 11 => 0xd56
    case 12 => 0xa5a
    case 13 => 0xb53
    case 14 => 0x859
    case _ => 0x950
  }

  function EdgeCases7(k: int): bv32 {
    match k
    case 0 => 0x7c0
    case 1 => 0x6c9
    case 2 => 0x5c3
    case 3 => 0x4ca
    case 4 => 0x3c6
    case 5 => 0x2cf
    case 6 => 0x1c5
    case 7 => 0x0cc
    case 8 => 0xfcc
    case 9 => 0xec5
    case 10 => 0xdcf
    case 11 => 0xcc6
    case 12 => 0xbca
    case 13 => 0xac3
    case 14 => 0x9c9
    case _ => 0x8c0
  }

  function EdgeCases8(k: int): bv32 {
    match k
    case 0 => 0x8c0
    case 1 => 0x9c9
    case 2 => 0xac3
    case 3 => 0xbca
    case 4 => 0xcc6
    case 5 => 0xdcf
    case 6 => 0xec5
    case 7 => 0xfcc
    case 8 => 0x0cc
    case 9 => 0x1c5
    case 10 => 0x2cf
    case 11 => 0x3c6
    case 12 => 0x4ca
    case 13 => 0x5c3
    case 14 => 0x6c9
    case _ => 0x7c0
  }

  function EdgeCases9(k: int): bv32 {
    match k
    case 0 => 0x950
    case 1 => 0x859
    case 2 => 0xb53
    case 3 => 0xa5a
    case 4 => 0xd56
    case 5 => 0xc5f
    case 6 => 0xf55
    case 7 => 0xe5c
    case 8 => 0x15c
    case 9 => 0x055
    case 10 => 0x35f
    case 11 => 0x256
    case 12 => 0x55a
    case 13 => 0x453
    case 14 => 0x759
    case _ => 0x650
  }

  function EdgeCases10(k: int): bv32 {
    match k
    case 0 => 0xaf0
    case 1 => 0xbf9
    case 2 => 0x8f3
    case 3 => 0x9fa
    case 4 => 0xef6
    case 5 => 0xfff
    case 6 => 0xcf5
    case 7 => 0xdfc
    case 8 => 0x2fc
    case 9 => 0x3f5
    case 10 => 0x0ff
    case 11 => 0x1f6
    case 12 => 0x6fa
    case 13 => 0x7f3
    case 14 => 0x4f9
    case _ => 0x5f0
  }

  function EdgeCases11(k: int): bv32 {
    match k
    case 0 => 0xb60
    case 1 => 0xa69
    case 2 => 0x963
    case 3 => 0x86a
    case 4 => 0xf66
    case 5 => 0xe6f
    case 6 => 0xd65
    case 7 => 0xc6c
    case 8 => 0x36c
    case 9 => 0x265
    case 10 => 0x16f
    case 11 => 0x066
    case 12 => 0x76a
    case 13 => 0x663
    case 14 => 0x569
    case _ => 0x460
  }

  function EdgeCases12(k: int): bv32 {
    match k
    case 0 => 0xca0
    case 1 => 0xda9
    case 2 => 0xea3
    case 3 => 0xfaa
    case 4 => 0x8a6
    case 5 => 0x9af
    case 6 => 0xaa5
    case 7 => 0xbac
    case 8 => 0x4ac
    case 9 => 0x5a5
    case 10 => 0x6af
    case 11 => 0x7a6
    case 12 => 0x0aa
    case 13 => 0x1a3
    case 14 => 0x2a9
    case _ => 0x3a0
  }

  function EdgeCases13(k: int): bv32 {
    match k
    case 0 => 0xd30
    case 1 => 0xc39
    case 2 => 0xf33
    case 3 => 0xe3a
    case 4 => 0x936
    case 5 => 0x83f
    case 6 => 0xb35
    case 7 => 0xa3c
    case 8 => 0x53c
    case 9 => 0x435
    case 10 => 0x73f
    case 11 => 0x636
    case 12 => 0x13a
    case 13 => 0x033
    case 14 => 0x339
    case _ => 0x230
  }

  function EdgeCases14(k: int): bv32 {
    match k
    case 0 => 0xe90
    case 1 => 0xf99
    case 2 => 0xc93
    case 3 => 0xd9a
    case 4 => 0xa96
    case 5 => 0xb9f
    case 6 => 0x895
    case 7 => 0x99c
    case 8 => 0x69c
    case 9 => 0x795
    case 10 => 0x49f
    case 11 => 0x596
    case 12 => 0x29a
    case 13 => 0x393
    case 14 => 0x099
    case _ => 0x190
  }

  function EdgeCases15(k: int): bv32 {
    match k
    case 0 => 0xf00
    case 1 => 0xe09
    case 2 => 0xd03
    case 3 => 0xc0a
    case 4 => 0xb06
    case 5 => 0xa0f
    case 6 => 0x905
    case 7 => 0x80c
    case 8 => 0x70c
    case 9 => 0x605
    case 10 => 0x50f
    case 11 => 0x406
    case 12 => 0x30a
    case 13 => 0x203
    case 14 => 0x109
    case _ => 0x000
  }

  /** Row `c` of `TRIANGLE_CASES`, that is entries `16 * c` to `16 * c + 15`. */
  function TriangleRow(c: int): Row
    requires 0 <= c < 256
  {
    match c / 16
    case 0 => TriangleRows0(c % 16)
    case 1 => TriangleRows1(c % 16)
    case 2 => TriangleRows2(c % 16)
    case 3 => TriangleRows3(c % 16)
    case 4 => TriangleRows4(c % 16)
    case 5 => TriangleRows5(c % 16)
    case 6 => TriangleRows6(c % 16)
    case 7 => TriangleRows7(c % 16)
    case 8 => TriangleRows8(c % 16)
    case 9 => TriangleRows9(c % 16)
    case 10 => TriangleRows10(c % 16)
    case 11 => TriangleRows11(c % 16)
    case 12 => TriangleRows12(c % 16)
    case 13 => TriangleRows13(c % 16)
    case 14 => TriangleRows14(c % 16)
    case _ => TriangleRows15(c % 16)
  }

  function TriangleRows0(k: int): Row {
    match k
    case 0 => Row(-1, -1, -1, -1, -1, -1, -1, -1, -1, -1, -1, -1, -1, -1, -1, -1)
    case 1 => Row(0, 8, 3, -1, -1, -1, -1, -1, -1, -1, -1, -1, -1, -1, -1, -1)
    case 2 => Row(0, 1, 9, -1, -1, -1, -1, -1, -1, -1, -1, -1, -1, -1, -1, -1)
    case 3 => Row(1, 8, 3, 9, 8, 1, -1, -1, -1, -1, -1, -1, -1, -1, -1, -1)
    case 4 => Row(1, 2, 10, -1, -1, -1, -1, -1, -1, -1, -1, -1, -1, -1, -1, -1)
    case 5 => Row(0, 8, 3, 1, 2, 10, -1, -1, -1, -1, -1, -1, -1, -1, -1, -1)
    case 6 => Row(9, 2, 10, 0, 2, 9, -1, -1, -1, -1, -1, -1, -1, -1, -1, -1)
    case 7 => Row(2, 8, 3, 2, 10, 8, 10, 9, 8, -1, -1, -1, -1, -1, -1, -1)
    case 8 => Row(3, 11, 2, -1, -1, -1, -1, -1, -1, -1, -1, -1, -1, -1, -1, -1)
    case 9 => Row(0, 11, 2, 8, 11, 0, -1, -1, -1, -1, -1, -1, -1, -1, -1, -1)
    case 10 => Row(1, 9, 0, 2, 3, 11, -1, -1, -1, -1, -1, -1, -1, -1, -1, -1)
    case 11 => Row(1, 11, 2, 1, 9, 11, 9, 8, 11, -1, -1, -1, -1, -1, -1, -1)
    case 12 => Row(3, 10, 1, 11, 10, 3, -1, -1, -1, -1, -1, -1, -1, -1, -1, -1)
    case 13 => Row(0, 10, 1, 0, 8, 10, 8, 11, 10, -1, -1, -1, -1, -1, -1, -1)
    case 14 => Row(3, 9, 0, 3, 11, 9, 11, 10, 9, -1, -1, -1, -1, -1, -1, -1)
    case _ => Row(9, 8, 10, 10, 8, 11, -1, -1, -1, -1, -1, -1, -1, -1, -1, -1)
  }

  function TriangleRows1(k: int): Row {
    match k
    case 0 => Row(4, 7, 8, -1, -1, -1, -1, -1, -1, -1, -1, -1, -1, -1, -1, -1)
    case 1 => Row(4, 3, 0, 7, 3, 4, -1, -1, -1, -1, -1, -1, -1, -1, -1, -1)
    case 2 => Row(0, 1, 9, 8, 4, 7, -1, -1, -1, -1, -1, -1, -1, -1, -1, -1)
    case 3 => Row(4, 1, 9, 4, 7, 1, 7, 3, 1, -1, -1, -1, -1, -1, -1, -1)
    case 4 => Row(1, 2, 10, 8, 4, 7, -1, -1, -1, -1, -1, -1, -1, -1, -1, -1)
    case 5 => Row(3, 4, 7, 3, 0, 4, 1, 2, 10, -1, -1, -1, -1, -1, -1, -1)
    case 6 => Row(9, 2, 10, 9, 0, 2, 8, 4, 7, -1, -1, -1, -1, -1, -1, -1)
    case 7 => Row(2, 10, 9, 2, 9, 7, 2, 7, 3, 7, 9, 4, -1, -1, -1, -1)
    case 8 => Row(8, 4, 7, 3, 11, 2, -1, -1, -1, -1, -1, -1, -1, -1, -1, -1)
    case 9 => Row(11, 4, 7, 11, 2, 4, 2, 0, 4, -1, -1, -1, -1, -1, -1, -1)
    case 10 => Row(9, 0, 1, 8, 4, 7, 2, 3, 11, -1, -1, -1, -1, -1, -1, -1)
    case 11 => Row(4, 7, 11, 9, 4, 11, 9, 11, 2, 9, 2, 1, -1, -1, -1, -1)
    case 12 => Row(3, 10, 1, 3, 11, 10, 7, 8, 4, -1, -1, -1, -1, -1, -1, -1)
    case 13 => Row(1, 11, 10, 1, 4, 11, 1, 0, 4, 7, 11, 4, -1, -1, -1, -1)
    case 14 => Row(4, 7, 8, 9, 0, 11, 9, 11, 10, 11, 0, 3, -1, -1, -1, -1)
    case _ => Row(4, 7, 11, 4, 11, 9, 9, 11, 10, -1, -1, -1, -1, -1, -1, -1)
  }

  function TriangleRows2(k: int): Row {
    match k
    case 0 => Row(9, 5, 4, -1, -1, -1, -1, -1, -1, -1, -1, -1, -1, -1, -1, -1)
    case 1 => Row(9, 5, 4, 0, 8, 3, -1, -1, -1, -1, -1, -1, -1, -1, -1, -1)
    case 2 => Row(0, 5, 4, 1, 5, 0, -1, -1, -1, -1, -1, -1, -1, -1, -1, -1)
    case 3 => Row(8, 5, 4, 8, 3, 5, 3, 1, 5, -1, -1, -1, -1, -1, -1, -1)
    case 4 => Row(1, 2, 10, 9, 5, 4, -1, -1, -1, -1, -1, -1, -1, -1, -1, -1)
    case 5 => Row(3, 0, 8, 1, 2, 10, 4, 9, 5, -1, -1, -1, -1, -1, -1, -1)
    case 6 => Row(5, 2, 10, 5, 4, 2, 4, 0, 2, -1, -1, -1, -1, -1, -1, -1)
    case 7 => Row(2, 10, 5, 3, 2, 5, 3, 5, 4, 3, 4, 8, -1, -1, -1, -1)
    case 8 => Row(9, 5, 4, 2, 3, 11, -1, -1, -1, -1, -1, -1, -1, -1, -1, -1)
    case 9 => Row(0, 11, 2, 0, 8, 11, 4, 9, 5, -1, -1, -1, -1, -1, -1, -1)
    case 10 => Row(0, 5, 4, 0, 1, 5, 2, 3, 11, -1, -1, -1, -1, -1, -1, -1)
    case 11 => Row(2, 1, 5, 2, 5, 8, 2, 8, 11, 4, 8, 5, -1, -1, -1, -1)
    case 12 => Row(10, 3, 11, 10, 1, 3, 9, 5, 4, -1, -1, -1, -1, -1, -1, -1)
    case 13 => Row(4, 9, 5, 0, 8, 1, 8, 10, 1, 8, 11, 10, -1, -1, -1, -1)
    case 14 => Row(5, 4, 0, 5, 0, 11, 5, 11, 10, 11, 0, 3, -1, -1, -1, -1)
    case _ => Row(5, 4, 8, 5, 8, 10, 10, 8, 11, -1, -1, -1, -1, -1, -1, -1)
  }

  function TriangleRows3(k: int): Row {
    match k
    case 0 => Row(9, 7, 8, 5, 7, 9, -1, -1, -1, -1, -1, -1, -1, -1, -1, -1)
    case 1 => Row(9, 3, 0, 9, 5, 3, 5, 7, 3, -1, -1, -1, -1, -1, -1, -1)
    case 2 => Row(0, 7, 8, 0, 1, 7, 1, 5, 7, -1, -1, -1, -1, -1, -1, -1)
    case 3 => Row(1, 5, 3, 3, 5, 7, -1, -1, -1, -1, -1, -1, -1, -1, -1, -1)
    case 4 => Row(9, 7, 8, 9, 5, 7, 10, 1, 2, -1, -1, -1, -1, -1, -1, -1)
    case 5 => Row(10, 1, 2, 9, 5, 0, 5, 3, 0, 5, 7, 3, -1, -1, -1, -1)
    case 6 => Row(8, 0, 2, 8, 2, 5, 8, 5, 7, 10, 5, 2, -1, -1, -1, -1)
    case 7 => Row(2, 10, 5, 2, 5, 3, 3, 5, 7, -1, -1, -1, -1, -1, -1, -1)
    case 8 => Row(7, 9, 5, 7, 8, 9, 3, 11, 2, -1, -1, -1, -1, -1, -1, -1)
    case 9 => Row(9, 5, 7, 9, 7, 2, 9, 2, 0, 2, 7, 11, -1, -1, -1, -1)
    case 10 => Row(2, 3, 11, 0, 1, 8, 1, 7, 8, 1, 5, 7, -1, -1, -1, -1)
    case 11 => Row(11, 2, 1, 11, 1, 7, 7, 1, 5, -1, -1, -1, -1, -1, -1, -1)
    case 12 => Row(9, 5, 8, 8, 5, 7, 10, 1, 3, 10, 3, 11, -1, -1, -1, -1)
    case 13 => Row(5, 7, 0, 5, 0, 9, 7, 11, 0, 1, 0, 10, 11, 10, 0, -1)
    case 14 => Row(11, 10, 0, 11, 0, 3, 10, 5, 0, 8, 0, 7, 5, 7, 0, -1)
    case _ => Row(11, 10, 5, 7, 11, 5, -1, -1, -1, -1, -1, -1, -1, -1, -1, -1)
  }

  function TriangleRows4(k: int): Row {
    match k
    case 0 => Row(10, 6, 5, -1, -1, -1, -1, -1, -1, -1, -1, -1, -1, -1, -1, -1)
    case 1 => Row(0, 8, 3, 5, 10, 6, -1, -1, -1, -1, -1, -1, -1, -1, -1, -1)
    case 2 => Row(9, 0, 1, 5, 10, 6, -1, -1, -1, -1, -1, -1, -1, -1, -1, -1)
    case 3 => Row(1, 8, 3, 1, 9, 8, 5, 10, 6, -1, -1, -1, -1, -1, -1, -1)
    case 4 => Row(1, 6, 5, 2, 6, 1, -1, -1, -1, -1, -1, -1, -1, -1, -1, -1)
    case 5 => Row(1, 6, 5, 1, 2, 6, 3, 0, 8, -1, -1, -1, -1, -1, -1, -1)
    case 6 => Row(9, 6, 5, 9, 0, 6, 0, 2, 6, -1, -1, -1, -1, -1, -1, -1)
    case 7 => Row(5, 9, 8, 5, 8, 2, 5, 2, 6, 3, 2, 8, -1, -1, -1, -1)
    case 8 => Row(2, 3, 11, 10, 6, 5, -1, -1, -1, -1, -1, -1, -1, -1, -1, -1)
    case 9 => Row(11, 0, 8, 11, 2, 0, 10, 6, 5, -1, -1, -1, -1, -1, -1, -1)
    case 10 => Row(0, 1, 9, 2, 3, 11, 5, 10, 6, -1, -1, -1, -1, -1, -1, -1)
    case 11 => Row(5, 10, 6, 1, 9, 2, 9, 11, 2, 9, 8, 11, -1, -1, -1, -1)
    case 12 => Row(6, 3, 11, 6, 5, 3, 5, 1, 3, -1, -1, -1, -1, -1, -1, -1)
    case 13 => Row(0, 8, 11, 0, 11, 5, 0, 5, 1, 5, 11, 6, -1, -1, -1, -1)
    case 14 => Row(3, 11, 6, 0, 3, 6, 0, 6, 5, 0, 5, 9, -1, -1, -1, -1)
    case _ => Row(6, 5, 9, 6, 9, 11, 11, 9, 8, -1, -1, -1, -1, -1, -1, -1)
  }

  function TriangleRows5(k: int): Row {
    match k
    case 0 => Row(5, 10, 6, 4, 7, 8, -1, -1, -1, -1, -1, -1, -1, -1, -1, -1)
    case 1 => Row(4, 3, 0, 4, 7, 3, 6, 5, 10, -1, -1, -1, -1, -1, -1, -1)
    case 2 => Row(1, 9, 0, 5, 10, 6, 8, 4, 7, -1, -1, -1, -1, -1, -1, -1)
    case 3 => Row(10, 6, 5, 1, 9, 7, 1, 7, 3, 7, 9, 4, -1, -1, -1, -1)
    case 4 => Row(6, 1, 2, 6, 5, 1, 4, 7, 8, -1, -1, -1, -1, -1, -1, -1)
    case 5 => Row(1, 2, 5, 5, 2, 6, 3, 0, 4, 3, 4, 7, -1, -1, -1, -1)
    case 6 => Row(8, 4, 7, 9, 0, 5, 0, 6, 5, 0, 2, 6, -1, -1, -1, -1)
    case 7 => Row(7, 3, 9, 7, 9, 4, 3, 2, 9, 5, 9, 6, 2, 6, 9, -1)
    case 8 => Row(3, 11, 2, 7, 8, 4, 10, 6, 5, -1, -1, -1, -1, -1, -1, -1)
    case 9 => Row(5, 10, 6, 4, 7, 2, 4, 2, 0, 2, 7, 11, -1, -1, -1, -1)
    case 10 => Row(0, 1, 9, 4, 7, 8, 2, 3, 11, 5, 10, 6, -1, -1, -1, -1)
    case 11 => Row(9, 2, 1, 9, 11, 2, 9, 4, 11, 7, 11, 4, 5, 10, 6, -1)
    case 12 => Row(8, 4, 7, 3, 11, 5, 3, 5, 1, 5, 11, 6, -1, -1, -1, -1)
    case 13 => Row(5, 1, 11, 5, 11, 6, 1, 0, 11, 7, 11, 4, 0, 4, 11, -1)
    case 14 => Row(0, 5, 9, 0, 6, 5, 0, 3, 6, 11, 6, 3, 8, 4, 7, -1)
    case _ => Row(6, 5, 9, 6, 9, 11, 4, 7, 9, 7, 11, 9, -1, -1, -1, -1)
  }

  function TriangleRows6(k: int): Row {
    match k
    case 0 => Row(10, 4, 9, 6, 4, 10, -1, -1, -1, -1, -1, -1, -1, -1, -1, -1)
    case 1 => Row(4, 10, 6, 4, 9, 10, 0, 8, 3, -1, -1, -1, -1, -1, -1, -1)
    case 2 => Row(10, 0, 1, 10, 6, 0, 6, 4, 0, -1, -1, -1, -1, -1, -1, -1)
    case 3 => Row(8, 3, 1, 8, 1, 6, 8, 6, 4, 6, 1, 10, -1, -1, -1, -1)
    case 4 => Row(1, 4, 9, 1, 2, 4, 2, 6, 4, -1, -1, -1, -1, -1, -1, -1)
    case 5 => Row(3, 0, 8, 1, 2, 9, 2, 4, 9, 2, 6, 4, -1, -1, -1, -1)
    case 6 => Row(0, 2, 4, 4, 2, 6, -1, -1, -1, -1, -1, -1, -1, -1, -1, -1)
    case 7 => Row(8, 3, 2, 8, 2, 4, 4, 2, 6, -1, -1, -1, -1, -1, -1, -1)
    case 8 => Row(10, 4, 9, 10, 6, 4, 11, 2, 3, -1, -1, -1, -1, -1, -1, -1)
    case 9 => Row(0, 8, 2, 2, 8, 11, 4, 9, 10, 4, 10, 6, -1, -1, -1, -1)
    case 10 => Row(3, 11, 2, 0, 1, 6, 0, 6, 4, 6, 1, 10, -1, -1, -1, -1)
    case 11 => Row(6, 4, 1, 6, 1, 10, 4, 8, 1, 2, 1, 11, 8, 11, 1, -1)
    case 12 => Row(9, 6, 4, 9, 3, 6, 9, 1, 3, 11, 6, 3, -1, -1, -1, -1)
    case 13 => Row(8, 11, 1, 8, 1, 0, 11, 6, 1, 9, 1, 4, 6, 4, 1, -1)
    case 14 => Row(3, 11, 6, 3, 6, 0, 0, 6, 4, -1, -1, -1, -1, -1, -1, -1)
    case _ => Row(6, 4, 8, 11, 6, 8, -1, -1, -1, -1, -1, -1, -1, -1, -1, -1)
  }

  function TriangleRows7(k: int): Row {
    match k
    case 0 => Row(7, 10, 6, 7, 8, 10, 8, 9, 10, -1, -1, -1, -1, -1, -1, -1)
    case 1 => Row(0, 7, 3, 0, 10, 7, 0, 9, 10, 6, 7, 10, -1, -1, -1, -1)
    case 2 => Row(10, 6, 7, 1, 10, 7, 1, 7, 8, 1, 8, 0, -1, -1, -1, -1)
    case 3 => Row(10, 6, 7, 10, 7, 1, 1, 7, 3, -1, -1, -1, -1, -1, -1, -1)
    case 4 => Row(1, 2, 6, 1, 6, 8, 1, 8, 9, 8, 6, 7, -1, -1, -1, -1)
    case 5 => Row(2, 6, 9, 2, 9, 1, 6, 7, 9, 0, 9, 3, 7, 3, 9, -1)
    case 6 => Row(7, 8, 0, 7, 0, 6, 6, 0, 2, -1, -1, -1, -1, -1, -1, -1)
    case 7 => Row(7, 3, 2, 6, 7, 2, -1, -1, -1, -1, -1, -1, -1, -1, -1, -1)
    case 8 => Row(2, 3, 11, 10, 6, 8, 10, 8, 9, 8, 6, 7, -1, -1, -1, -1)
    case 9 => Row(2, 0, 7, 2, 7, 11, 0, 9, 7, 6, 7, 10, 9, 10, 7, -1)
    case 10 => Row(1, 8, 0, 1, 7, 8, 1, 10, 7, 6, 7, 10, 2, 3, 11, -1)
    case 11 => Row(11, 2, 1, 11, 1, 7, 10, 6, 1, 6, 7, 1, -1, -1, -1, -1)
    case 12 => Row(8, 9, 6, 8, 6, 7, 9, 1, 6, 11, 6, 3, 1, 3, 6, -1)
    case 13 => Row(0, 9, 1, 11, 6, 7, -1, -1, -1, -1, -1, -1, -1, -1, -1, -1)
    case 14 => Row(7, 8, 0, 7, 0, 6, 3, 11, 0, 11, 6, 0, -1, -1, -1, -1)
    case _ => Row(7, 11, 6, -1, -1, -1, -1, -1, -1, -1, -1, -1, -1, -1, -1, -1)
  }

  function TriangleRows8(k: int): Row {
    match k
    case 0 => Row(7, 6, 11, -1, -1, -1, -1, -1, -1, -1, -1, -1, -1, -1, -1, -1)
    case 1 => Row(3, 0, 8, 11, 7, 6, -1, -1, -1, -1, -1, -1, -1, -1, -1, -1)
    case 2 => Row(0, 1, 9, 11, 7, 6, -1, -1, -1, -1, -1, -1, -1, -1, -1, -1)
    case 3 => Row(8, 1, 9, 8, 3, 1, 11, 7, 6, -1, -1, -1, -1, -1, -1, -1)
    case 4 => Row(10, 1, 2, 6, 11, 7, -1, -1, -1, -1, -1, -1, -1, -1, -1, -1)
    case 5 => Row(1, 2, 10, 3, 0, 8, 6, 11, 7, -1, -1, -1, -1, -1, -1, -1)
    case 6 => Row(2, 9, 0, 2, 10, 9, 6, 11, 7, -1, -1, -1, -1, -1, -1, -1)
    case 7 => Row(6, 11, 7, 2, 10, 3, 10, 8, 3, 10, 9, 8, -1, -1, -1, -1)
    case 8 => Row(7, 2, 3, 6, 2, 7, -1, -1, -1, -1, -1, -1, -1, -1, -1, -1)
    case 9 => Row(7, 0, 8, 7, 6, 0, 6, 2, 0, -1, -1, -1, -1, -1, -1, -1)
    case 10 => Row(2, 7, 6, 2, 3, 7, 0, 1, 9, -1, -1, -1, -1, -1, -1, -1)
    case 11 => Row(1, 6, 2, 1, 8, 6, 1, 9, 8, 8, 7, 6, -1, -1, -1, -1)
    case 12 => Row(10, 7, 6, 10, 1, 7, 1, 3, 7, -1, -1, -1, -1, -1, -1, -1)
    case 13 => Row(10, 7, 6, 1, 7, 10, 1, 8, 7, 1, 0, 8, -1, -1, -1, -1)
    case 14 => Row(0, 3, 7, 0, 7, 10, 0, 10, 9, 6, 10, 7, -1, -1, -1, -1)
    case _ => Row(7, 6, 10, 7, 10, 8, 8, 10, 9, -1, -1, -1, -1, -1, -1, -1)
  }

  function TriangleRows9(k: int): Row {
    match k
    case 0 => Row(6, 8, 4, 11, 8, 6, -1, -1, -1, -1, -1, -1, -1, -1, -1, -1)
    case 1 => Row(3, 6, 11, 3, 0, 6, 0, 4, 6, -1, -1, -1, -1, -1, -1, -1)
    case 2 => Row(8, 6, 11, 8, 4, 6, 9, 0, 1, -1, -1, -1, -1, -1, -1, -1)
    case 3 => Row(9, 4, 6, 9, 6, 3, 9, 3, 1, 11, 3, 6, -1, -1, -1, -1)
    case 4 => Row(6, 8, 4, 6, 11, 8, 2, 10, 1, -1, -1, -1, -1, -1, -1, -1)
    case 5 => Row(1, 2, 10, 3, 0, 11, 0, 6, 11, 0, 4, 6, -1, -1, -1, -1)
    case 6 => Row(4, 11, 8, 4, 6, 11, 0, 2, 9, 2, 10, 9, -1, -1, -1, -1)
    case 7 => Row(10, 9, 3, 10, 3, 2, 9, 4, 3, 11, 3, 6, 4, 6, 3, -1)
    case 8 => Row(8, 2, 3, 8, 4, 2, 4, 6, 2, -1, -1, -1, -1, -1, -1, -1)
    case 9 => Row(0, 4, 2, 4, 6, 2, -1, -1, -1, -1, -1, -1, -1, -1, -1, -1)
    case 10 => Row(1, 9, 0, 2, 3, 4, 2, 4, 6, 4, 3, 8, -1, -1, -1, -1)
    case 11 => Row(1, 9, 4, 1, 4, 2, 2, 4, 6, -1, -1, -1, -1, -1, -1, -1)
    case 12 => Row(8, 1, 3, 8, 6, 1, 8, 4, 6, 6, 10, 1, -1, -1, -1, -1)
    case 13 => Row(10, 1, 0, 10, 0, 6, 6, 0, 4, -1, -1, -1, -1, -1, -1, -1)
    case 14 => Row(4, 6, 3, 4, 3, 8, 6, 10, 3, 0, 3, 9, 10, 9, 3, -1)
    case _ => Row(10, 9, 4, 6, 10, 4, -1, -1, -1, -1, -1, -1, -1, -1, -1, -1)
  }

  function TriangleRows10(k: int): Row {
    match k
    case 0 => Row(4, 9, 5, 7, 6, 11, -1, -1, -1, -1, -1, -1, -1, -1, -1, -1)
    case 1 => Row(0, 8, 3, 4, 9, 5, 11, 7, 6, -1, -1, -1, -1, -1, -1, -1)
    case 2 => Row(5, 0, 1, 5, 4, 0, 7, 6, 11, -1, -1, -1, -1, -1, -1, -1)
    case 3 => Row(11, 7, 6, 8, 3, 4, 3, 5, 4, 3, 1, 5, -1, -1, -1, -1)
    case 4 => Row(9, 5, 4, 10, 1, 2, 7, 6, 11, -1, -1, -1, -1, -1, -1, -1)
    case 5 => Row(6, 11, 7, 1, 2, 10, 0, 8, 3, 4, 9, 5, -1, -1, -1, -1)
    case 6 => Row(7, 6, 11, 5, 4, 10, 4, 2, 10, 4, 0, 2, -1, -1, -1, -1)
    case 7 => Row(3, 4, 8, 3, 5, 4, 3, 2, 5, 10, 5, 2, 11, 7, 6, -1)
    case 8 => Row(7, 2, 3, 7, 6, 2, 5, 4, 9, -1, -1, -1, -1, -1, -1, -1)
    case 9 => Row(9, 5, 4, 0, 8, 6, 0, 6, 2, 6, 8, 7, -1, -1, -1, -1)
    case 10 => Row(3, 6, 2, 3, 7, 6, 1, 5, 0, 5, 4, 0, -1, -1, -1, -1)
    case 11 => Row(6, 2, 8, 6, 8, 7, 2, 1, 8, 4, 8, 5, 1, 5, 8, -1)
    case 12 => Row(9, 5, 4, 10, 1, 6, 1, 7, 6, 1, 3, 7, -1, -1, -1, -1)
    case 13 => Row(1, 6, 10, 1, 7, 6, 1, 0, 7, 8, 7, 0, 9, 5, 4, -1)
    case 14 => Row(4, 0, 10, 4, 10, 5, 0, 3, 10, 6, 10, 7, 3, 7, 10, -1)
    case _ => Row(7, 6, 10, 7, 10, 8, 5, 4, 10, 4, 8, 10, -1, -1, -1, -1)
  }

  function TriangleRows11(k: int): Row {
    match k
    case 0 => Row(6, 9, 5, 6, 11, 9, 11, 8, 9, -1, -1, -1, -1, -1, -1, -1)
    case 1 => Row(3, 6, 11, 0, 6, 3, 0, 5, 6, 0, 9, 5, -1, -1, -1, -1)
    case 2 => Row(0, 11, 8, 0, 5, 11, 0, 1, 5, 5, 6, 11, -1, -1, -1, -1)
    case 3 => Row(6, 11, 3, 6, 3, 5, 5, 3, 1, -1, -1, -1, -1, -1, -1, -1)
    case 4 => Row(1, 2, 10, 9, 5, 11, 9, 11, 8, 11, 5, 6, -1, -1, -1, -1)
    case 5 => Row(0, 11, 3, 0, 6, 11, 0, 9, 6, 5, 6, 9, 1, 2, 10, -1)
    case 6 => Row(11, 8, 5, 11, 5, 6, 8, 0, 5, 10, 5, 2, 0, 2, 5, -1)
    case 7 => Row(6, 11, 3, 6, 3, 5, 2, 10, 3, 10, 5, 3, -1, -1, -1, -1)
    case 8 => Row(5, 8, 9, 5, 2, 8, 5, 6, 2, 3, 8, 2, -1, -1, -1, -1)
    case 9 => Row(9, 5, 6, 9, 6, 0, 0, 6, 2, -1, -1, -1, -1, -1, -1, -1)
    case 10 => Row(1, 5, 8, 1, 8, 0, 5, 6, 8, 3, 8, 2, 6, 2, 8, -1)
    case 11 => Row(1, 5, 6, 2, 1, 6, -1, -1, -1, -1, -1, -1, -1, -1, -1, -1)
    case 12 => Row(1, 3, 6, 1, 6, 10, 3, 8, 6, 5, 6, 9, 8, 9, 6, -1)
    case 13 => Row(10, 1, 0, 10, 0, 6, 9, 5, 0, 5, 6, 0, -1, -1, -1, -1)
    case 14 => Row(0, 3, 8, 5, 6, 10, -1, -1, -1, -1, -1, -1, -1, -1, -1, -1)
    case _ => Row(10, 5, 6, -1, -1, -1, -1, -1, -1, -1, -1, -1, -1, -1, -1, -1)
  }

  function TriangleRows12(k: int): Row {
    match k
    case 0 => Row(11, 5, 10, 7, 5, 11, -1, -1, -1, -1, -1, -1, -1, -1, -1, -1)
    case 1 => Row(11, 5, 10, 11, 7, 5, 8, 3, 0, -1, -1, -1, -1, -1, -1, -1)
    case 2 => Row(5, 11, 7, 5, 10, 11, 1, 9, 0, -1, -1, -1, -1, -1, -1, -1)
    case 3 => Row(10, 7, 5, 10, 11, 7, 9, 8, 1, 8, 3, 1, -1, -1, -1, -1)
    case 4 => Row(11, 1, 2, 11, 7, 1, 7, 5, 1, -1, -1, -1, -1, -1, -1, -1)
    case 5 => Row(0, 8, 3, 1, 2, 7, 1, 7, 5, 7, 2, 11, -1, -1, -1, -1)
    case 6 => Row(9, 7, 5, 9, 2, 7, 9, 0, 2, 2, 11, 7, -1, -1, -1, -1)
    case 7 => Row(7, 5, 2, 7, 2, 11, 5, 9, 2, 3, 2, 8, 9, 8, 2, -1)
    case 8 => Row(2, 5, 10, 2, 3, 5, 3, 7, 5, -1, -1, -1, -1, -1, -1, -1)
    case 9 => Row(8, 2, 0, 8, 5, 2, 8, 7, 5, 10, 2, 5, -1, -1, -1, -1)
    case 10 => Row(9, 0, 1, 5, 10, 3, 5, 3, 7, 3, 10, 2, -1, -1, -1, -1)
    case 11 => Row(9, 8, 2, 9, 2, 1, 8, 7, 2, 10, 2, 5, 7, 5, 2, -1)
    case 12 => Row(1, 3, 5, 3, 7, 5, -1, -1, -1, -1, -1, -1, -1, -1, -1, -1)
    case 13 => Row(0, 8, 7, 0, 7, 1, 1, 7, 5, -1, -1, -1, -1, -1, -1, -1)
    case 14 => Row(9, 0, 3, 9, 3, 5, 5, 3, 7, -1, -1, -1, -1, -1, -1, -1)
    case _ => Row(9, 8, 7, 5, 9, 7, -1, -1, -1, -1, -1, -1, -1, -1, -1, -1)
  }

  function TriangleRows13(k: int): Row {
    match k
    case 0 => Row(5, 8, 4, 5, 10, 8, 10, 11, 8, -1, -1, -1, -1, -1, -1, -1)
    case 1 => Row(5, 0, 4, 5, 11, 0, 5, 10, 11, 11, 3, 0, -1, -1, -1, -1)
    case 2 => Row(0, 1, 9, 8, 4, 10, 8, 10, 11, 10, 4, 5, -1, -1, -1, -1)
    case 3 => Row(10, 11, 4, 10, 4, 5, 11, 3, 4, 9, 4, 1, 3, 1, 4, -1)
    case 4 => Row(2, 5, 1, 2, 8, 5, 2, 11, 8, 4, 5, 8, -1, -1, -1, -1)
    case 5 => Row(0, 4, 11, 0, 11, 3, 4, 5, 11, 2, 11, 1, 5, 1, 11, -1)
    case 6 => Row(0, 2, 5, 0, 5, 9, 2, 11, 5, 4, 5, 8, 11, 8, 5, -1)
    case 7 => Row(9, 4, 5, 2, 11, 3, -1, -1, -1, -1, -1, -1, -1, -1, -1, -1)
    case 8 => Row(2, 5, 10, 3, 5, 2, 3, 4, 5, 3, 8, 4, -1, -1, -1, -1)
    case 9 => Row(5, 10, 2, 5, 2, 4, 4, 2, 0, -1, -1, -1, -1, -1, -1, -1)
    case 10 => Row(3, 10, 2, 3, 5, 10, 3, 8, 5, 4, 5, 8, 0, 1, 9, -1)
    case 11 => Row(5, 10, 2, 5, 2, 4, 1, 9, 2, 9, 4, 2, -1, -1, -1, -1)
    case 12 => Row(8, 4, 5, 8, 5, 3, 3, 5, 1, -1, -1, -1, -1, -1, -1, -1)
    case 13 => Row(0, 4, 5, 1, 0, 5, -1, -1, -1, -1, -1, -1, -1, -1, -1, -1)
    case 14 => Row(8, 4, 5, 8, 5, 3, 9, 0, 5, 0, 3, 5, -1, -1, -1, -1)
    case _ => Row(9, 4, 5, -1, -1, -1, -1, -1, -1, -1, -1, -1, -1, -1, -1, -1)
  }

  function TriangleRows14(k: int): Row {
    match k
    case 0 => Row(4, 11, 7, 4, 9, 11, 9, 10, 11, -1, -1, -1, -1, -1, -1, -1)
    case 1 => Row(0, 8, 3, 4, 9, 7, 9, 11, 7, 9, 10, 11, -1, -1, -1, -1)
    case 2 => Row(1, 10, 11, 1, 11, 4, 1, 4, 0, 7, 4, 11, -1, -1, -1, -1)
    case 3 => Row(3, 1, 4, 3, 4, 8, 1, 10, 4, 7, 4, 11, 10, 11, 4, -1)
    case 4 => Row(4, 11, 7, 9, 11, 4, 9, 2, 11, 9, 1, 2, -1, -1, -1, -1)
    case 5 => Row(9, 7, 4, 9, 11, 7, 9, 1, 11, 2, 11, 1, 0, 8, 3, -1)
    case 6 => Row(11, 7, 4, 11, 4, 2, 2, 4, 0, -1, -1, -1, -1, -1, -1, -1)
    case 7 => Row(11, 7, 4, 11, 4, 2, 8, 3, 4, 3, 2, 4, -1, -1, -1, -1)
    case 8 => Row(2, 9, 10, 2, 7, 9, 2, 3, 7, 7, 4, 9, -1, -1, -1, -1)
    case 9 => Row(9, 10, 7, 9, 7, 4, 10, 2, 7, 8, 7, 0, 2, 0, 7, -1)
    case 10 => Row(3, 7, 10, 3, 10, 2, 7, 4, 10, 1, 10, 0, 4, 0, 10, -1)
    case 11 => Row(1, 10, 2, 8, 7, 4, -1, -1, -1, -1, -1, -1, -1, -1, -1, -1)
    case 12 => Row(4, 9, 1, 4, 1, 7, 7, 1, 3, -1, -1, -1, -1, -1, -1, -1)
    case 13 => Row(4, 9, 1, 4, 1, 7, 0, 8, 1, 8, 7, 1, -1, -1, -1, -1)
    case 14 => Row(4, 0, 3, 7, 4, 3, -1, -1, -1, -1, -1, -1, -1, -1, -1, -1)
    case _ => Row(4, 8, 7, -1, -1, -1, -1, -1, -1, -1, -1, -1, -1, -1, -1, -1)
  }

  function TriangleRows15(k: int): Row {
    match k
    case 0 => Row(9, 10, 8, 10, 11, 8, -1, -1, -1, -1, -1, -1, -1, -1, -1, -1)
    case 1 => Row(3, 0, 9, 3, 9, 11, 11, 9, 10, -1, -1, -1, -1, -1, -1, -1)
    case 2 => Row(0, 1, 10, 0, 10, 8, 8, 10, 11, -1, -1, -1, -1, -1, -1, -1)
    case 3 => Row(3, 1, 10, 11, 3, 10, -1, -1, -1, -1, -1, -1, -1, -1, -1, -1)
    case 4 => Row(1, 2, 11, 1, 11, 9, 9, 11, 8, -1, -1, -1, -1, -1, -1, -1)
    case 5 => Row(3, 0, 9, 3, 9, 11, 1, 2, 9, 2, 11, 9, -1, -1, -1, -1)
    case 6 => Row(0, 2, 11, 8, 0, 11, -1, -1, -1, -1, -1, -1, -1, -1, -1, -1)
    case 7 => Row(3, 2, 11, -1, -1, -1, -1, -1, -1, -1, -1, -1, -1, -1, -1, -1)
    case 8 => Row(2, 3, 8, 2, 8, 10, 10, 8, 9, -1, -1, -1, -1, -1, -1, -1)
    case 9 => Row(9, 10, 2, 0, 9, 2, -1, -1, -1, -1, -1, -1, -1, -1, -1, -1)
    case 10 => Row(2, 3, 8, 2, 8, 10, 0, 1, 8, 1, 10, 8, -1, -1, -1, -1)
    case 11 => Row(1, 10, 2, -1, -1, -1, -1, -1, -1, -1, -1, -1, -1, -1, -1, -1)
    case 12 => Row(1, 3, 8, 9, 1, 8, -1, -1, -1, -1, -1, -1, -1, -1, -1, -1)
    case 13 => Row(0, 9, 1, -1, -1, -1, -1, -1, -1, -1, -1, -1, -1, -1, -1, -1)
    case 14 => Row(0, 3, 8, -1, -1, -1, -1, -1, -1, -1, -1, -1, -1, -1, -1, -1)
    case _ => Row(-1, -1, -1, -1, -1, -1, -1, -1, -1, -1, -1, -1, -1, -1, -1, -1)
  }

  /** `TRIANGLE_CASES[i]` of the flat 4096-entry table. */
  function TriangleCase(i: int): (r: int)
    requires 0 <= i < 4096
    ensures r == Entry(TriangleRow(i / 16), i % 16)
  {
    var c := i / 16;
    Entry(TriangleRow(c), i - 16 * c)
  }

  /** `1u << e` for a corner or edge number `e`, and 0 for any other `e`. */
  function Bit(e: int): bv32 {
    match e
    case 0 => 0x1 case 1 => 0x2 case 2 => 0x4 case 3 => 0x8
    case 4 => 0x10 case 5 => 0x20 case 6 => 0x40 case 7 => 0x80
    case 8 => 0x100 case 9 => 0x200 case 10 => 0x400 case 11 => 0x800
    case _ => 0
  }

  lemma BitIsShift(e: int)
    requires 0 <= e < 12
    ensures Bit(e) == 1 << e
  {
  }

  /** The shader's test `(mask & (1u << e)) != 0u`. */
  predicate HasBit(mask: bv32, e: int) {
    mask & Bit(e) != 0
  }

  /** `e` names one of the 12 cube edges and that edge is marked in `mask`. */
  predicate IsEdgeOf(e: int, mask: bv32) {
    0 <= e < 12 && HasBit(mask, e)
  }

  /** A triangle slot of a row: three marked edges, or padding. */
  predicate Slot(a: int, b: int, c: int, mask: bv32) {
    (a == -1 && b == -1 && c == -1) || (IsEdgeOf(a, mask) && IsEdgeOf(b, mask) && IsEdgeOf(c, mask))
  }

  /**
   * The shape of every row: five triangle slots, each either three edges
   * marked in the row's `EDGE_CASES` entry or three -1s, padding never
   * followed by a triangle, and a final -1.
   */
  predicate RowOk(r: Row, mask: bv32) {
    && Slot(r.e0, r.e1, r.e2, mask)
    && Slot(r.e3, r.e4, r.e5, mask)
    && Slot(r.e6, r.e7, r.e8, mask)
    && Slot(r.e9, r.e10, r.e11, mask)
    && Slot(r.e12, r.e13, r.e14, mask)
    && r.e15 == -1
    && (r.e0 == -1 ==> r.e3 == -1) && (r.e3 == -1 ==> r.e6 == -1)
    && (r.e6 == -1 ==> r.e9 == -1) && (r.e9 == -1 ==> r.e12 == -1)
  }

  /** How many triangles the shader's loop emits for a row: it stops at the first negative slot start. */
  function TriangleCount(r: Row): (n: nat)
    ensures n <= 5
  {
    if r.e0 < 0 then 0
    else if r.e3 < 0 then 1
    else if r.e6 < 0 then 2
    else if r.e9 < 0 then 3
    else if r.e12 < 0 then 4
    else 5
  }

  /** Slot `t` starts with a non-negative entry exactly while `t` is below the count. */
  lemma TriangleCountStops(r: Row, t: int)
    requires 0 <= t <= TriangleCount(r) && t < 5
    ensures Entry(r, 3 * t) >= 0 <==> t < TriangleCount(r)
  {
  }

  /** The three entries of an emitted slot are edges marked in the mask. */
  lemma EmittedSlot(r: Row, mask: bv32, t: int)
    requires RowOk(r, mask) && 0 <= t < TriangleCount(r)
    ensures IsEdgeOf(Entry(r, 3 * t), mask)
    ensures IsEdgeOf(Entry(r, 3 * t + 1), mask)
    ensures IsEdgeOf(Entry(r, 3 * t + 2), mask)
  {
    var i := 3 * t;
    match t
    case 0 =>
      SlotEdges(r.e0, r.e1, r.e2, mask);
      assert Entry(r, i) == r.e0 && Entry(r, i + 1) == r.e1 && Entry(r, i + 2) == r.e2;
    case 1 =>
      SlotEdges(r.e3, r.e4, r.e5, mask);
      assert Entry(r, i) == r.e3 && Entry(r, i + 1) == r.e4 && Entry(r, i + 2) == r.e5;
    case 2 =>
      SlotEdges(r.e6, r.e7, r.e8, mask);
      assert Entry(r, i) == r.e6 && Entry(r, i + 1) == r.e7 && Entry(r, i + 2) == r.e8;
    case 3 =>
      SlotEdges(r.e9, r.e10, r.e11, mask);
      assert Entry(r, i) == r.e9 && Entry(r, i + 1) == r.e10 && Entry(r, i + 2) == r.e11;
    case _ =>
      SlotEdges(r.e12, r.e13, r.e14, mask);
      assert Entry(r, i) == r.e12 && Entry(r, i + 1) == r.e13 && Entry(r, i + 2) == r.e14;
  }

  /** Every entry before the row's first -1 is an edge marked in the mask. */
  lemma EmittedEntry(r: Row, mask: bv32, k: int)
    requires RowOk(r, mask) && 0 <= k < 3 * TriangleCount(r)
    ensures IsEdgeOf(Entry(r, k), mask)
  {
    if k < 3 {
      EmittedSlot(r, mask, 0);
      assert k == 0 || k == 1 || k == 2;
    } else if k < 6 {
      EmittedSlot(r, mask, 1);
      assert k == 3 || k == 4 || k == 5;
    } else if k < 9 {
      EmittedSlot(r, mask, 2);
      assert k == 6 || k == 7 || k == 8;
    } else if k < 12 {
      EmittedSlot(r, mask, 3);
      assert k == 9 || k == 10 || k == 11;
    } else {
      EmittedSlot(r, mask, 4);
      assert k == 12 || k == 13 || k == 14;
    }
  }

  lemma SlotEdges(a: int, b: int, c: int, mask: bv32)
    requires Slot(a, b, c, mask) && a >= 0
    ensures IsEdgeOf(a, mask) && IsEdgeOf(b, mask) && IsEdgeOf(c, mask)
  {
  }

  /**
   * Every slot from the count on is padding, and so is the last entry: a row
   * is `3 * TriangleCount(r)` marked edges followed by -1s only.
   */
  lemma PaddingSlot(r: Row, mask: bv32, t: int)
    requires RowOk(r, mask) && TriangleCount(r) <= t <= 5
    ensures t < 5 ==> Entry(r, 3 * t) == -1 && Entry(r, 3 * t + 1) == -1 && Entry(r, 3 * t + 2) == -1
    ensures Entry(r, 15) == -1
  {
    match t
    case 0 => case 1 => case 2 => case 3 => case 4 => case _ =>
  }

  lemma Rows0a(k: int)
    requires 0 <= k < 4
    ensures RowOk(TriangleRows0(k), EdgeCases0(k))
  {
    match k
    case 0 => assert RowOk(TriangleRows0(0), EdgeCases0(0));
    case 1 => assert RowOk(TriangleRows0(1), EdgeCases0(1));
    case 2 => assert RowOk(TriangleRows0(2), EdgeCases0(2));
    case _ => assert RowOk(TriangleRows0(3), EdgeCases0(3));
  }

  lemma Rows0b(k: int)
    requires 4 <= k < 8
    ensures RowOk(TriangleRows0(k), EdgeCases0(k))
  {
    match k
    case 4 => assert RowOk(TriangleRows0(4), EdgeCases0(4));
    case 5 => assert RowOk(TriangleRows0(5), EdgeCases0(5));
    case 6 => assert RowOk(TriangleRows0(6), EdgeCases0(6));
    case _ => assert RowOk(TriangleRows0(7), EdgeCases0(7));
  }

  lemma Rows0c(k: int)
    requires 8 <= k < 12
    ensures RowOk(TriangleRows0(k), EdgeCases0(k))
  {
    match k
    case 8 => assert RowOk(TriangleRows0(8), EdgeCases0(8));
    case 9 => assert RowOk(TriangleRows0(9), EdgeCases0(9));
    case 10 => assert RowOk(TriangleRows0(10), EdgeCases0(10));
    case _ => assert RowOk(TriangleRows0(11), EdgeCases0(11));
  }

  lemma Rows0d(k: int)
    requires 12 <= k < 16
    ensures RowOk(TriangleRows0(k), EdgeCases0(k))
  {
    match k
    case 12 => assert RowOk(TriangleRows0(12), EdgeCases0(12));
    case 13 => assert RowOk(TriangleRows0(13), EdgeCases0(13));
    case 14 => assert RowOk(TriangleRows0(14), EdgeCases0(14));
    case _ => assert RowOk(TriangleRows0(15), EdgeCases0(15));
  }

  lemma Rows1a(k: int)
    requires 0 <= k < 4
    ensures RowOk(TriangleRows1(k), EdgeCases1(k))
  {
    match k
    case 0 => assert RowOk(TriangleRows1(0), EdgeCases1(0));
    case 1 => assert RowOk(TriangleRows1(1), EdgeCases1(1));
    case 2 => assert RowOk(TriangleRows1(2), EdgeCases1(2));
    case _ => assert RowOk(TriangleRows1(3), EdgeCases1(3));
  }

  lemma Rows1b(k: int)
    requires 4 <= k < 8
    ensures RowOk(TriangleRows1(k), EdgeCases1(k))
  {
    match k
    case 4 => assert RowOk(TriangleRows1(4), EdgeCases1(4));
    case 5 => assert RowOk(TriangleRows1(5), EdgeCases1(5));
    case 6 => assert RowOk(TriangleRows1(6), EdgeCases1(6));
    case _ => assert RowOk(TriangleRows1(7), EdgeCases1(7));
  }

  lemma Rows1c(k: int)
    requires 8 <= k < 12
    ensures RowOk(TriangleRows1(k), EdgeCases1(k))
  {
    match k
    case 8 => assert RowOk(TriangleRows1(8), EdgeCases1(8));
    case 9 => assert RowOk(TriangleRows1(9), EdgeCases1(9));
    case 10 => assert RowOk(TriangleRows1(10), EdgeCases1(10));
    case _ => assert RowOk(TriangleRows1(11), EdgeCases1(11));
  }

  lemma Rows1d(k: int)
    requires 12 <= k < 16
    ensures RowOk(TriangleRows1(k), EdgeCases1(k))
  {
    match k
    case 12 => assert RowOk(TriangleRows1(12), EdgeCases1(12));
    case 13 => assert RowOk(TriangleRows1(13), EdgeCases1(13));
    case 14 => assert RowOk(TriangleRows1(14), EdgeCases1(14));
    case _ => assert RowOk(TriangleRows1(15), EdgeCases1(15));
  }

  lemma Rows2a(k: int)
    requires 0 <= k < 4
    ensures RowOk(TriangleRows2(k), EdgeCases2(k))
  {
    match k
    case 0 => assert RowOk(TriangleRows2(0), EdgeCases2(0));
    case 1 => assert RowOk(TriangleRows2(1), EdgeCases2(1));
    case 2 => assert RowOk(TriangleRows2(2), EdgeCases2(2));
    case _ => assert RowOk(TriangleRows2(3), EdgeCases2(3));
  }

  lemma Rows2b(k: int)
    requires 4 <= k < 8
    ensures RowOk(TriangleRows2(k), EdgeCases2(k))
  {
    match k
    case 4 => assert RowOk(TriangleRows2(4), EdgeCases2(4));
    case 5 => assert RowOk(TriangleRows2(5), EdgeCases2(5));
    case 6 => assert RowOk(TriangleRows2(6), EdgeCases2(6));
    case _ => assert RowOk(TriangleRows2(7), EdgeCases2(7));
  }

  lemma Rows2c(k: int)
    requires 8 <= k < 12
    ensures RowOk(TriangleRows2(k), EdgeCases2(k))
  {
    match k
    case 8 => assert RowOk(TriangleRows2(8), EdgeCases2(8));
    case 9 => assert RowOk(TriangleRows2(9), EdgeCases2(9));
    case 10 => assert RowOk(TriangleRows2(10), EdgeCases2(10));
    case _ => assert RowOk(TriangleRows2(11), EdgeCases2(11));
  }

  lemma Rows2d(k: int)
    requires 12 <= k < 16
    ensures RowOk(TriangleRows2(k), EdgeCases2(k))
  {
    match k
    case 12 => assert RowOk(TriangleRows2(12), EdgeCases2(12));
    case 13 => assert RowOk(TriangleRows2(13), EdgeCases2(13));
    case 14 => assert RowOk(TriangleRows2(14), EdgeCases2(14));
    case _ => assert RowOk(TriangleRows2(15), EdgeCases2(15));
  }

  lemma Rows3a(k: int)
    requires 0 <= k < 4
    ensures RowOk(TriangleRows3(k), EdgeCases3(k))
  {
    match k
    case 0 => assert RowOk(TriangleRows3(0), EdgeCases3(0));
    case 1 => assert RowOk(TriangleRows3(1), EdgeCases3(1));
    case 2 => assert RowOk(TriangleRows3(2), EdgeCases3(2));
    case _ => assert RowOk(TriangleRows3(3), EdgeCases3(3));
  }

  lemma Rows3b(k: int)
    requires 4 <= k < 8
    ensures RowOk(TriangleRows3(k), EdgeCases3(k))
  {
    match k
    case 4 => assert RowOk(TriangleRows3(4), EdgeCases3(4));
    case 5 => assert RowOk(TriangleRows3(5), EdgeCases3(5));
    case 6 => assert RowOk(TriangleRows3(6), EdgeCases3(6));
    case _ => assert RowOk(TriangleRows3(7), EdgeCases3(7));
  }

  lemma Rows3c(k: int)
    requires 8 <= k < 12
    ensures RowOk(TriangleRows3(k), EdgeCases3(k))
  {
    match k
    case 8 => assert RowOk(TriangleRows3(8), EdgeCases3(8));
    case 9 => assert RowOk(TriangleRows3(9), EdgeCases3(9));
    case 10 => assert RowOk(TriangleRows3(10), EdgeCases3(10));
    case _ => assert RowOk(TriangleRows3(11), EdgeCases3(11));
  }

  lemma Rows3d(k: int)
    requires 12 <= k < 16
    ensures RowOk(TriangleRows3(k), EdgeCases3(k))
  {
    match k
    case 12 => assert RowOk(TriangleRows3(12), EdgeCases3(12));
    case 13 => assert RowOk(TriangleRows3(13), EdgeCases3(13));
    case 14 => assert RowOk(TriangleRows3(14), EdgeCases3(14));
    case _ => assert RowOk(TriangleRows3(15), EdgeCases3(15));
  }

  lemma Rows4a(k: int)
    requires 0 <= k < 4
    ensures RowOk(TriangleRows4(k), EdgeCases4(k))
  {
    match k
    case 0 => assert RowOk(TriangleRows4(0), EdgeCases4(0));
    case 1 => assert RowOk(TriangleRows4(1), EdgeCases4(1));
    case 2 => assert RowOk(TriangleRows4(2), EdgeCases4(2));
    case _ => assert RowOk(TriangleRows4(3), EdgeCases4(3));
  }

  lemma Rows4b(k: int)
    requires 4 <= k < 8
    ensures RowOk(TriangleRows4(k), EdgeCases4(k))
  {
    match k
    case 4 => assert RowOk(TriangleRows4(4), EdgeCases4(4));
    case 5 => assert RowOk(TriangleRows4(5), EdgeCases4(5));
    case 6 => assert RowOk(TriangleRows4(6), EdgeCases4(6));
    case _ => assert RowOk(TriangleRows4(7), EdgeCases4(7));
  }

  lemma Rows4c(k: int)
    requires 8 <= k < 12
    ensures RowOk(TriangleRows4(k), EdgeCases4(k))
  {
    match k
    case 8 => assert RowOk(TriangleRows4(8), EdgeCases4(8));
    case 9 => assert RowOk(TriangleRows4(9), EdgeCases4(9));
    case 10 => assert RowOk(TriangleRows4(10), EdgeCases4(10));
    case _ => assert RowOk(TriangleRows4(11), EdgeCases4(11));
  }

  lemma Rows4d(k: int)
    requires 12 <= k < 16
    ensures RowOk(TriangleRows4(k), EdgeCases4(k))
  {
    match k
    case 12 => assert RowOk(TriangleRows4(12), EdgeCases4(12));
    case 13 => assert RowOk(TriangleRows4(13), EdgeCases4(13));
    case 14 => assert RowOk(TriangleRows4(14), EdgeCases4(14));
    case _ => assert RowOk(TriangleRows4(15), EdgeCases4(15));
  }

  lemma Rows5a(k: int)
    requires 0 <= k < 4
    ensures RowOk(TriangleRows5(k), EdgeCases5(k))
  {
    match k
    case 0 => assert RowOk(TriangleRows5(0), EdgeCases5(0));
    case 1 => assert RowOk(TriangleRows5(1), EdgeCases5(1));
    case 2 => assert RowOk(TriangleRows5(2), EdgeCases5(2));
    case _ => assert RowOk(TriangleRows5(3), EdgeCases5(3));
  }

  lemma Rows5b(k: int)
    requires 4 <= k < 8
    ensures RowOk(TriangleRows5(k), EdgeCases5(k))
  {
    match k
    case 4 => assert RowOk(TriangleRows5(4), EdgeCases5(4));
    case 5 => assert RowOk(TriangleRows5(5), EdgeCases5(5));
    case 6 => assert RowOk(TriangleRows5(6), EdgeCases5(6));
    case _ => assert RowOk(TriangleRows5(7), EdgeCases5(7));
  }

  lemma Rows5c(k: int)
    requires 8 <= k < 12
    ensures RowOk(TriangleRows5(k), EdgeCases5(k))
  {
    match k
    case 8 => assert RowOk(TriangleRows5(8), EdgeCases5(8));
    case 9 => assert RowOk(TriangleRows5(9), EdgeCases5(9));
    case 10 => assert RowOk(TriangleRows5(10), EdgeCases5(10));
    case _ => assert RowOk(TriangleRows5(11), EdgeCases5(11));
  }

  lemma Rows5d(k: int)
    requires 12 <= k < 16
    ensures RowOk(TriangleRows5(k), EdgeCases5(k))
  {
    match k
    case 12 => assert RowOk(TriangleRows5(12), EdgeCases5(12));
    case 13 => assert RowOk(TriangleRows5(13), EdgeCases5(13));
    case 14 => assert RowOk(TriangleRows5(14), EdgeCases5(14));
    case _ => assert RowOk(TriangleRows5(15), EdgeCases5(15));
  }

  lemma Rows6a(k: int)
    requires 0 <= k < 4
    ensures RowOk(TriangleRows6(k), EdgeCases6(k))
  {
    match k
    case 0 => assert RowOk(TriangleRows6(0), EdgeCases6(0));
    case 1 => assert RowOk(TriangleRows6(1), EdgeCases6(1));
    case 2 => assert RowOk(TriangleRows6(2), EdgeCases6(2));
    case _ => assert RowOk(TriangleRows6(3), EdgeCases6(3));
  }

  lemma Rows6b(k: int)
    requires 4 <= k < 8
    ensures RowOk(TriangleRows6(k), EdgeCases6(k))
  {
    match k
    case 4 => assert RowOk(TriangleRows6(4), EdgeCases6(4));
    case 5 => assert RowOk(TriangleRows6(5), EdgeCases6(5));
    case 6 => assert RowOk(TriangleRows6(6), EdgeCases6(6));
    case _ => assert RowOk(TriangleRows6(7), EdgeCases6(7));
  }

  lemma Rows6c(k: int)
    requires 8 <= k < 12
    ensures RowOk(TriangleRows6(k), EdgeCases6(k))
  {
    match k
    case 8 => assert RowOk(TriangleRows6(8), EdgeCases6(8));
    case 9 => assert RowOk(TriangleRows6(9), EdgeCases6(9));
    case 10 => assert RowOk(TriangleRows6(10), EdgeCases6(10));
    case _ => assert RowOk(TriangleRows6(11), EdgeCases6(11));
  }

  lemma Rows6d(k: int)
    requires 12 <= k < 16
    ensures RowOk(TriangleRows6(k), EdgeCases6(k))
  {
    match k
    case 12 => assert RowOk(TriangleRows6(12), EdgeCases6(12));
    case 13 => assert RowOk(TriangleRows6(13), EdgeCases6(13));
    case 14 => assert RowOk(TriangleRows6(14), EdgeCases6(14));
    case _ => assert RowOk(TriangleRows6(15), EdgeCases6(15));
  }

  lemma Rows7a(k: int)
    requires 0 <= k < 4
    ensures RowOk(TriangleRows7(k), EdgeCases7(k))
  {
    match k
    case 0 => assert RowOk(TriangleRows7(0), EdgeCases7(0));
    case 1 => assert RowOk(TriangleRows7(1), EdgeCases7(1));
    case 2 => assert RowOk(TriangleRows7(2), EdgeCases7(2));
    case _ => assert RowOk(TriangleRows7(3), EdgeCases7(3));
  }

  lemma Rows7b(k: int)
    requires 4 <= k < 8
    ensures RowOk(TriangleRows7(k), EdgeCases7(k))
  {
    match k
    case 4 => assert RowOk(TriangleRows7(4), EdgeCases7(4));
    case 5 => assert RowOk(TriangleRows7(5), EdgeCases7(5));
    case 6 => assert RowOk(TriangleRows7(6), EdgeCases7(6));
    case _ => assert RowOk(TriangleRows7(7), EdgeCases7(7));
  }

  lemma Rows7c(k: int)
    requires 8 <= k < 12
    ensures RowOk(TriangleRows7(k), EdgeCases7(k))
  {
    match k
    case 8 => assert RowOk(TriangleRows7(8), EdgeCases7(8));
    case 9 => assert RowOk(TriangleRows7(9), EdgeCases7(9));
    case 10 => assert RowOk(TriangleRows7(10), EdgeCases7(10));
    case _ => assert RowOk(TriangleRows7(11), EdgeCases7(11));
  }

  lemma Rows7d(k: int)
    requires 12 <= k < 16
    ensures RowOk(TriangleRows7(k), EdgeCases7(k))
  {
    match k
    case 12 => assert RowOk(TriangleRows7(12), EdgeCases7(12));
    case 13 => assert RowOk(TriangleRows7(13), EdgeCases7(13));
    case 14 => assert RowOk(TriangleRows7(14), EdgeCases7(14));
    case _ => assert RowOk(TriangleRows7(15), EdgeCases7(15));
  }

  lemma Rows8a(k: int)
    requires 0 <= k < 4
    ensures RowOk(TriangleRows8(k), EdgeCases8(k))
  {
    match k
    case 0 => assert RowOk(TriangleRows8(0), EdgeCases8(0));
    case 1 => assert RowOk(TriangleRows8(1), EdgeCases8(1));
    case 2 => assert RowOk(TriangleRows8(2), EdgeCases8(2));
    case _ => assert RowOk(TriangleRows8(3), EdgeCases8(3));
  }

  lemma Rows8b(k: int)
    requires 4 <= k < 8
    ensures RowOk(TriangleRows8(k), EdgeCases8(k))
  {
    match k
    case 4 => assert RowOk(TriangleRows8(4), EdgeCases8(4));
    case 5 => assert RowOk(TriangleRows8(5), EdgeCases8(5));
    case 6 => assert RowOk(TriangleRows8(6), EdgeCases8(6));
    case _ => assert RowOk(TriangleRows8(7), EdgeCases8(7));
  }

  lemma Rows8c(k: int)
    requires 8 <= k < 12
    ensures RowOk(TriangleRows8(k), EdgeCases8(k))
  {
    match k
    case 8 => assert RowOk(TriangleRows8(8), EdgeCases8(8));
    case 9 => assert RowOk(TriangleRows8(9), EdgeCases8(9));
    case 10 => assert RowOk(TriangleRows8(10), EdgeCases8(10));
    case _ => assert RowOk(TriangleRows8(11), EdgeCases8(11));
  }

  lemma Rows8d(k: int)
    requires 12 <= k < 16
    ensures RowOk(TriangleRows8(k), EdgeCases8(k))
  {
    match k
    case 12 => assert RowOk(TriangleRows8(12), EdgeCases8(12));
    case 13 => assert RowOk(TriangleRows8(13), EdgeCases8(13));
    case 14 => assert RowOk(TriangleRows8(14), EdgeCases8(14));
    case _ => assert RowOk(TriangleRows8(15), EdgeCases8(15));
  }

  lemma Rows9a(k: int)
    requires 0 <= k < 4
    ensures RowOk(TriangleRows9(k), EdgeCases9(k))
  {
    match k
    case 0 => assert RowOk(TriangleRows9(0), EdgeCases9(0));
    case 1 => assert RowOk(TriangleRows9(1), EdgeCases9(1));
    case 2 => assert RowOk(TriangleRows9(2), EdgeCases9(2));
    case _ => assert RowOk(TriangleRows9(3), EdgeCases9(3));
  }

  lemma Rows9b(k: int)
    requires 4 <= k < 8
    ensures RowOk(TriangleRows9(k), EdgeCases9(k))
  {
    match k
    case 4 => assert RowOk(TriangleRows9(4), EdgeCases9(4));
    case 5 => assert RowOk(TriangleRows9(5), EdgeCases9(5));
    case 6 => assert RowOk(TriangleRows9(6), EdgeCases9(6));
    case _ => assert RowOk(TriangleRows9(7), EdgeCases9(7));
  }

  lemma Rows9c(k: int)
    requires 8 <= k < 12
    ensures RowOk(TriangleRows9(k), EdgeCases9(k))
  {
    match k
    case 8 => assert RowOk(TriangleRows9(8), EdgeCases9(8));
    case 9 => assert RowOk(TriangleRows9(9), EdgeCases9(9));
    case 10 => assert RowOk(TriangleRows9(10), EdgeCases9(10));
    case _ => assert RowOk(TriangleRows9(11), EdgeCases9(11));
  }

  lemma Rows9d(k: int)
    requires 12 <= k < 16
    ensures RowOk(TriangleRows9(k), EdgeCases9(k))
  {
    match k
    case 12 => assert RowOk(TriangleRows9(12), EdgeCases9(12));
    case 13 => assert RowOk(TriangleRows9(13), EdgeCases9(13));
    case 14 => assert RowOk(TriangleRows9(14), EdgeCases9(14));
    case _ => assert RowOk(TriangleRows9(15), EdgeCases9(15));
  }

  lemma Rows10a(k: int)
    requires 0 <= k < 4
    ensures RowOk(TriangleRows10(k), EdgeCases10(k))
  {
    match k
    case 0 => assert RowOk(TriangleRows10(0), EdgeCases10(0));
    case 1 => assert RowOk(TriangleRows10(1), EdgeCases10(1));
    case 2 => assert RowOk(TriangleRows10(2), EdgeCases10(2));
    case _ => assert RowOk(TriangleRows10(3), EdgeCases10(3));
  }

  lemma Rows10b(k: int)
    requires 4 <= k < 8
    ensures RowOk(TriangleRows10(k), EdgeCases10(k))
  {
    match k
    case 4 => assert RowOk(TriangleRows10(4), EdgeCases10(4));
    case 5 => assert RowOk(TriangleRows10(5), EdgeCases10(5));
    case 6 => assert RowOk(TriangleRows10(6), EdgeCases10(6));
    case _ => assert RowOk(TriangleRows10(7), EdgeCases10(7));
  }

  lemma Rows10c(k: int)
    requires 8 <= k < 12
    ensures RowOk(TriangleRows10(k), EdgeCases10(k))
  {
    match k
    case 8 => assert RowOk(TriangleRows10(8), EdgeCases10(8));
    case 9 => assert RowOk(TriangleRows10(9), EdgeCases10(9));
    case 10 => assert RowOk(TriangleRows10(10), EdgeCases10(10));
    case _ => assert RowOk(TriangleRows10(11), EdgeCases10(11));
  }

  lemma Rows10d(k: int)
    requires 12 <= k < 16
    ensures RowOk(TriangleRows10(k), EdgeCases10(k))
  {
    match k
    case 12 => assert RowOk(TriangleRows10(12), EdgeCases10(12));
    case 13 => assert RowOk(TriangleRows10(13), EdgeCases10(13));
    case 14 => assert RowOk(TriangleRows10(14), EdgeCases10(14));
    case _ => assert RowOk(TriangleRows10(15), EdgeCases10(15));
  }

  lemma Rows11a(k: int)
    requires 0 <= k < 4
    ensures RowOk(TriangleRows11(k), EdgeCases11(k))
  {
    match k
    case 0 => assert RowOk(TriangleRows11(0), EdgeCases11(0));
    case 1 => assert RowOk(TriangleRows11(1), EdgeCases11(1));
    case 2 => assert RowOk(TriangleRows11(2), EdgeCases11(2));
    case _ => assert RowOk(TriangleRows11(3), EdgeCases11(3));
  }

  lemma Rows11b(k: int)
    requires 4 <= k < 8
    ensures RowOk(TriangleRows11(k), EdgeCases11(k))
  {
    match k
    case 4 => assert RowOk(TriangleRows11(4), EdgeCases11(4));
    case 5 => assert RowOk(TriangleRows11(5), EdgeCases11(5));
    case 6 => assert RowOk(TriangleRows11(6), EdgeCases11(6));
    case _ => assert RowOk(TriangleRows11(7), EdgeCases11(7));
  }

  lemma Rows11c(k: int)
    requires 8 <= k < 12
    ensures RowOk(TriangleRows11(k), EdgeCases11(k))
  {
    match k
    case 8 => assert RowOk(TriangleRows11(8), EdgeCases11(8));
    case 9 => assert RowOk(TriangleRows11(9), EdgeCases11(9));
    case 10 => assert RowOk(TriangleRows11(10), EdgeCases11(10));
    case _ => assert RowOk(TriangleRows11(11), EdgeCases11(11));
  }

  lemma Rows11d(k: int)
    requires 12 <= k < 16
    ensures RowOk(TriangleRows11(k), EdgeCases11(k))
  {
    match k
    case 12 => assert RowOk(TriangleRows11(12), EdgeCases11(12));
    case 13 => assert RowOk(TriangleRows11(13), EdgeCases11(13));
    case 14 => assert RowOk(TriangleRows11(14), EdgeCases11(14));
    case _ => assert RowOk(TriangleRows11(15), EdgeCases11(15));
  }

  lemma Rows12a(k: int)
    requires 0 <= k < 4
    ensures RowOk(TriangleRows12(k), EdgeCases12(k))
  {
    match k
    case 0 => assert RowOk(TriangleRows12(0), EdgeCases12(0));
    case 1 => assert RowOk(TriangleRows12(1), EdgeCases12(1));
    case 2 => assert RowOk(TriangleRows12(2), EdgeCases12(2));
    case _ => assert RowOk(TriangleRows12(3), EdgeCases12(3));
  }

  lemma Rows12b(k: int)
    requires 4 <= k < 8
    ensures RowOk(TriangleRows12(k), EdgeCases12(k))
  {
    match k
    case 4 => assert RowOk(TriangleRows12(4), EdgeCases12(4));
    case 5 => assert RowOk(TriangleRows12(5), EdgeCases12(5));
    case 6 => assert RowOk(TriangleRows12(6), EdgeCases12(6));
    case _ => assert RowOk(TriangleRows12(7), EdgeCases12(7));
  }

  lemma Rows12c(k: int)
    requires 8 <= k < 12
    ensures RowOk(TriangleRows12(k), EdgeCases12(k))
  {
    match k
    case 8 => assert RowOk(TriangleRows12(8), EdgeCases12(8));
    case 9 => assert RowOk(TriangleRows12(9), EdgeCases12(9));
    case 10 => assert RowOk(TriangleRows12(10), EdgeCases12(10));
    case _ => assert RowOk(TriangleRows12(11), EdgeCases12(11));
  }

  lemma Rows12d(k: int)
    requires 12 <= k < 16
    ensures RowOk(TriangleRows12(k), EdgeCases12(k))
  {
    match k
    case 12 => assert RowOk(TriangleRows12(12), EdgeCases12(12));
    case 13 => assert RowOk(TriangleRows12(13), EdgeCases12(13));
    case 14 => assert RowOk(TriangleRows12(14), EdgeCases12(14));
    case _ => assert RowOk(TriangleRows12(15), EdgeCases12(15));
  }

  lemma Rows13a(k: int)
    requires 0 <= k < 4
    ensures RowOk(TriangleRows13(k), EdgeCases13(k))
  {
    match k
    case 0 => assert RowOk(TriangleRows13(0), EdgeCases13(0));
    case 1 => assert RowOk(TriangleRows13(1), EdgeCases13(1));
    case 2 => assert RowOk(TriangleRows13(2), EdgeCases13(2));
    case _ => assert RowOk(TriangleRows13(3), EdgeCases13(3));
  }

  lemma Rows13b(k: int)
    requires 4 <= k < 8
    ensures RowOk(TriangleRows13(k), EdgeCases13(k))
  {
    match k
    case 4 => assert RowOk(TriangleRows13(4), EdgeCases13(4));
    case 5 => assert RowOk(TriangleRows13(5), EdgeCases13(5));
    case 6 => assert RowOk(TriangleRows13(6), EdgeCases13(6));
    case _ => assert RowOk(TriangleRows13(7), EdgeCases13(7));
  }

  lemma Rows13c(k: int)
    requires 8 <= k < 12
    ensures RowOk(TriangleRows13(k), EdgeCases13(k))
  {
    match k
    case 8 => assert RowOk(TriangleRows13(8), EdgeCases13(8));
    case 9 => assert RowOk(TriangleRows13(9), EdgeCases13(9));
    case 10 => assert RowOk(TriangleRows13(10), EdgeCases13(10));
    case _ => assert RowOk(TriangleRows13(11), EdgeCases13(11));
  }

  lemma Rows13d(k: int)
    requires 12 <= k < 16
    ensures RowOk(TriangleRows13(k), EdgeCases13(k))
  {
    match k
    case 12 => assert RowOk(TriangleRows13(12), EdgeCases13(12));
    case 13 => assert RowOk(TriangleRows13(13), EdgeCases13(13));
    case 14 => assert RowOk(TriangleRows13(14), EdgeCases13(14));
    case _ => assert RowOk(TriangleRows13(15), EdgeCases13(15));
  }

  lemma Rows14a(k: int)
    requires 0 <= k < 4
    ensures RowOk(TriangleRows14(k), EdgeCases14(k))
  {
    match k
    case 0 => assert RowOk(TriangleRows14(0), EdgeCases14(0));
    case 1 => assert RowOk(TriangleRows14(1), EdgeCases14(1));
    case 2 => assert RowOk(TriangleRows14(2), EdgeCases14(2));
    case _ => assert RowOk(TriangleRows14(3), EdgeCases14(3));
  }

  lemma Rows14b(k: int)
    requires 4 <= k < 8
    ensures RowOk(TriangleRows14(k), EdgeCases14(k))
  {
    match k
    case 4 => assert RowOk(TriangleRows14(4), EdgeCases14(4));
    case 5 => assert RowOk(TriangleRows14(5), EdgeCases14(5));
    case 6 => assert RowOk(TriangleRows14(6), EdgeCases14(6));
    case _ => assert RowOk(TriangleRows14(7), EdgeCases14(7));
  }

  lemma Rows14c(k: int)
    requires 8 <= k < 12
    ensures RowOk(TriangleRows14(k), EdgeCases14(k))
  {
    match k
    case 8 => assert RowOk(TriangleRows14(8), EdgeCases14(8));
    case 9 => assert RowOk(TriangleRows14(9), EdgeCases14(9));
    case 10 => assert RowOk(TriangleRows14(10), EdgeCases14(10));
    case _ => assert RowOk(TriangleRows14(11), EdgeCases14(11));
  }

  lemma Rows14d(k: int)
    requires 12 <= k < 16
    ensures RowOk(TriangleRows14(k), EdgeCases14(k))
  {
    match k
    case 12 => assert RowOk(TriangleRows14(12), EdgeCases14(12));
    case 13 => assert RowOk(TriangleRows14(13), EdgeCases14(13));
    case 14 => assert RowOk(TriangleRows14(14), EdgeCases14(14));
    case _ => assert RowOk(TriangleRows14(15), EdgeCases14(15));
  }

  lemma Rows15a(k: int)
    requires 0 <= k < 4
    ensures RowOk(TriangleRows15(k), EdgeCases15(k))
  {
    match k
    case 0 => assert RowOk(TriangleRows15(0), EdgeCases15(0));
    case 1 => assert RowOk(TriangleRows15(1), EdgeCases15(1));
    case 2 => assert RowOk(TriangleRows15(2), EdgeCases15(2));
    case _ => assert RowOk(TriangleRows15(3), EdgeCases15(3));
  }

  lemma Rows15b(k: int)
    requires 4 <= k < 8
    ensures RowOk(TriangleRows15(k), EdgeCases15(k))
  {
    match k
    case 4 => assert RowOk(TriangleRows15(4), EdgeCases15(4));
    case 5 => assert RowOk(TriangleRows15(5), EdgeCases15(5));
    case 6 => assert RowOk(TriangleRows15(6), EdgeCases15(6));
    case _ => assert RowOk(TriangleRows15(7), EdgeCases15(7));
  }

  lemma Rows15c(k: int)
    requires 8 <= k < 12
    ensures RowOk(TriangleRows15(k), EdgeCases15(k))
  {
    match k
    case 8 => assert RowOk(TriangleRows15(8), EdgeCases15(8));
    case 9 => assert RowOk(TriangleRows15(9), EdgeCases15(9));
    case 10 => assert RowOk(TriangleRows15(10), EdgeCases15(10));
    case _ => assert RowOk(TriangleRows15(11), EdgeCases15(11));
  }

  lemma Rows15d(k: int)
    requires 12 <= k < 16
    ensures RowOk(TriangleRows15(k), EdgeCases15(k))
  {
    match k
    case 12 => assert RowOk(TriangleRows15(12), EdgeCases15(12));
    case 13 => assert RowOk(TriangleRows15(13), EdgeCases15(13));
    case 14 => assert RowOk(TriangleRows15(14), EdgeCases15(14));
    case _ => assert RowOk(TriangleRows15(15), EdgeCases15(15));
  }

  /**
   * Every row of `TRIANGLE_CASES` has the shape `RowOk` against its
   * `EDGE_CASES` entry: the triangle loop only ever names edges the edge
   * loop has interpolated.
   */
  lemma TrianglesUseMarkedEdges(c: int)
    requires 0 <= c < 256
    ensures RowOk(TriangleRow(c), EdgeCase(c))
  {
    var k := c % 16;
    match c / 16
    case 0 =>
      if k < 4 { Rows0a(k); } else if k < 8 { Rows0b(k); } else if k < 12 { Rows0c(k); } else { Rows0d(k); }
    case 1 =>
      if k < 4 { Rows1a(k); } else if k < 8 { Rows1b(k); } else if k < 12 { Rows1c(k); } else { Rows1d(k); }
    case 2 =>
      if k < 4 { Rows2a(k); } else if k < 8 { Rows2b(k); } else if k < 12 { Rows2c(k); } else { Rows2d(k); }
    case 3 =>
      if k < 4 { Rows3a(k); } else if k < 8 { Rows3b(k); } else if k < 12 { Rows3c(k); } else { Rows3d(k); }
    case 4 =>
      if k < 4 { Rows4a(k); } else if k < 8 { Rows4b(k); } else if k < 12 { Rows4c(k); } else { Rows4d(k); }
    case 5 =>
      if k < 4 { Rows5a(k); } else if k < 8 { Rows5b(k); } else if k < 12 { Rows5c(k); } else { Rows5d(k); }
    case 6 =>
      if k < 4 { Rows6a(k); } else if k < 8 { Rows6b(k); } else if k < 12 { Rows6c(k); } else { Rows6d(k); }
    case 7 =>
      if k < 4 { Rows7a(k); } else if k < 8 { Rows7b(k); } else if k < 12 { Rows7c(k); } else { Rows7d(k); }
    case 8 =>
      if k < 4 { Rows8a(k); } else if k < 8 { Rows8b(k); } else if k < 12 { Rows8c(k); } else { Rows8d(k); }
    case 9 =>
      if k < 4 { Rows9a(k); } else if k < 8 { Rows9b(k); } else if k < 12 { Rows9c(k); } else { Rows9d(k); }
    case 10 =>
      if k < 4 { Rows10a(k); } else if k < 8 { Rows10b(k); } else if k < 12 { Rows10c(k); } else { Rows10d(k); }
    case 11 =>
      if k < 4 { Rows11a(k); } else if k < 8 { Rows11b(k); } else if k < 12 { Rows11c(k); } else { Rows11d(k); }
    case 12 =>
      if k < 4 { Rows12a(k); } else if k < 8 { Rows12b(k); } else if k < 12 { Rows12c(k); } else { Rows12d(k); }
    case 13 =>
      if k < 4 { Rows13a(k); } else if k < 8 { Rows13b(k); } else if k < 12 { Rows13c(k); } else { Rows13d(k); }
    case 14 =>
      if k < 4 { Rows14a(k); } else if k < 8 { Rows14b(k); } else if k < 12 { Rows14c(k); } else { Rows14d(k); }
    case _ =>
      if k < 4 { Rows15a(k); } else if k < 8 { Rows15b(k); } else if k < 12 { Rows15c(k); } else { Rows15d(k); }
  }

  lemma Complement0(c: int)
    requires 0 <= c < 8
    ensures EdgeCase(c) == EdgeCase(255 - c) && EdgeCase(c) < 0x1000
  {
    ComplementDigits(c);
  }

  lemma Complement1(c: int)
    requires 8 <= c < 16
    ensures EdgeCase(c) == EdgeCase(255 - c) && EdgeCase(c) < 0x1000
  {
    ComplementDigits(c);
  }

  lemma Complement2(c: int)
    requires 16 <= c < 24
    ensures EdgeCase(c) == EdgeCase(255 - c) && EdgeCase(c) < 0x1000
  {
    ComplementDigits(c);
  }

  lemma Complement3(c: int)
    requires 24 <= c < 32
    ensures EdgeCase(c) == EdgeCase(255 - c) && EdgeCase(c) < 0x1000
  {
    ComplementDigits(c);
  }

  lemma Complement4(c: int)
    requires 32 <= c < 40
    ensures EdgeCase(c) == EdgeCase(255 - c) && EdgeCase(c) < 0x1000
  {
    ComplementDigits(c);
  }

  lemma Complement5(c: int)
    requires 40 <= c < 48
    ensures EdgeCase(c) == EdgeCase(255 - c) && EdgeCase(c) < 0x1000
  {
    ComplementDigits(c);
  }

  lemma Complement6(c: int)
    requires 48 <= c < 56
    ensures EdgeCase(c) == EdgeCase(255 - c) && EdgeCase(c) < 0x1000
  {
    ComplementDigits(c);
  }

  lemma Complement7(c: int)
    requires 56 <= c < 64
    ensures EdgeCase(c) == EdgeCase(255 - c) && EdgeCase(c) < 0x1000
  {
    ComplementDigits(c);
  }

  lemma Complement8(c: int)
    requires 64 <= c < 72
    ensures EdgeCase(c) == EdgeCase(255 - c) && EdgeCase(c) < 0x1000
  {
    ComplementDigits(c);
  }

  lemma Complement9(c: int)
    requires 72 <= c < 80
    ensures EdgeCase(c) == EdgeCase(255 - c) && EdgeCase(c) < 0x1000
  {
    ComplementDigits(c);
  }

  lemma Complement10(c: int)
    requires 80 <= c < 88
    ensures EdgeCase(c) == EdgeCase(255 - c) && EdgeCase(c) < 0x1000
  {
    ComplementDigits(c);
  }

  lemma Complement11(c: int)
    requires 88 <= c < 96
    ensures EdgeCase(c) == EdgeCase(255 - c) && EdgeCase(c) < 0x1000
  {
    ComplementDigits(c);
  }

  lemma Complement12(c: int)
    requires 96 <= c < 104
    ensures EdgeCase(c) == EdgeCase(255 - c) && EdgeCase(c) < 0x1000
  {
    ComplementDigits(c);
  }

  lemma Complement13(c: int)
    requires 104 <= c < 112
    ensures EdgeCase(c) == EdgeCase(255 - c) && EdgeCase(c) < 0x1000
  {
    ComplementDigits(c);
  }

  lemma Complement14(c: int)
    requires 112 <= c < 120
    ensures EdgeCase(c) == EdgeCase(255 - c) && EdgeCase(c) < 0x1000
  {
    ComplementDigits(c);
  }

  lemma Complement15(c: int)
    requires 120 <= c < 128
    ensures EdgeCase(c) == EdgeCase(255 - c) && EdgeCase(c) < 0x1000
  {
    ComplementDigits(c);
  }

  lemma ComplementDigits(c: int)
    requires 0 <= c < 256
    ensures (255 - c) / 16 == 15 - c / 16 && (255 - c) % 16 == 15 - c % 16
  {
  }

  /**
   * `EDGE_CASES` is below `2^12` (12 edges) and symmetric under complementing
   * the corner pattern: the surface crosses the same edges of a cube when
   * inside and outside are swapped.
   */
  lemma EdgeCaseComplement(c: int)
    requires 0 <= c < 256
    ensures EdgeCase(c) == EdgeCase(255 - c) && EdgeCase(c) < 0x1000
  {
    var d := if c < 128 then c else 255 - c;
    if d < 64 {
      if d < 16 { if d < 8 { Complement0(d); } else { Complement1(d); } }
      else if d < 32 { if d < 24 { Complement2(d); } else { Complement3(d); } }
      else if d < 48 { if d < 40 { Complement4(d); } else { Complement5(d); } }
      else { if d < 56 { Complement6(d); } else { Complement7(d); } }
    } else {
      if d < 80 { if d < 72 { Complement8(d); } else { Complement9(d); } }
      else if d < 96 { if d < 88 { Complement10(d); } else { Complement11(d); } }
      else if d < 112 { if d < 104 { Complement12(d); } else { Complement13(d); } }
      else { if d < 120 { Complement14(d); } else { Complement15(d); } }
    }
  }

  /** An empty and a full cube cross no edge and emit no triangle. */
  lemma EmptyAndFullCases()
    ensures EdgeCase(0) == 0 && EdgeCase(255) == 0
    ensures TriangleCount(TriangleRow(0)) == 0 && TriangleCount(TriangleRow(255)) == 0
  {
  }
}
