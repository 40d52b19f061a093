/**
 * Seven-segment glyph tables (SmSeg, MedSeg, LrgSeg) and the three lookups
 * built on them: get_segments, get_offset and get_space_size.
 */
module Glyphs {
  import opened Wrappers

  /** The size names "small", "medium" and "large"; `Other` stands for every
      other string, which the source's lookups compare against and reject. */
  datatype Size = Small | Medium | Large | Other

  /** A cell offset (row, column) inside a glyph's local grid. */
  type Cell = (int, int)

  /** The seven segments of one size class, plus the two-cell colon. */
  datatype SegTable = SegTable(
    seg1: seq<Cell>, seg2: seq<Cell>, seg3: seq<Cell>, seg4: seq<Cell>,
    seg5: seq<Cell>, seg6: seq<Cell>, seg7: seq<Cell>, colon: seq<Cell>)

  const SmSeg := SegTable(
    [(0, 0), (0, 1), (0, 2)],
    [(0, 2), (1, 2), (2, 2)],
    [(2, 2), (3, 2), (4, 2)],
    [(4, 0), (4, 1), (4, 2)],
    [(2, 0), (3, 0), (4, 0)],
    [(0, 0), (1, 0), (2, 0)],
    [(2, 0), (2, 1), (2, 2)],
    [(1, 4), (3, 4)])

  const MedSeg := SegTable(
    [(0, 0), (0, 1), (0, 2), (0, 3)],
    [(0, 3), (1, 3), (2, 3), (3, 3)],
    [(3, 3), (4, 3), (5, 3), (6, 3)],
    [(6, 0), (6, 1), (6, 2), (6, 3)],
    [(3, 0), (4, 0), (5, 0), (6, 0)],
    [(0, 0), (1, 0), (2, 0), (3, 0)],
    [(3, 0), (3, 1), (3, 2), (3, 3)],
    [(2, 5), (4, 5)])

  const LrgSeg := SegTable(
    [(0, 0), (0, 1), (0, 2), (0, 3), (0, 4), (0, 5), (0, 6), (0, 7),
     (0, 8), (0, 9), (1, 0), (1, 1), (1, 2), (1, 3), (1, 4), (1, 5),
     (1, 6), (1, 7), (1, 8), (1, 9)],
    [(0, 8), (1, 8), (2, 8), (3, 8), (4, 8), (5, 8), (6, 8), (7, 8),
     (8, 8), (9, 8), (0, 9), (1, 9), (2, 9), (3, 9), (4, 9), (5, 9),
     (6, 9), (7, 9), (8, 9), (9, 9)],
    [(8, 8), (9, 8), (10, 8), (11, 8), (12, 8), (13, 8), (14, 8),
     (15, 8), (16, 8), (17, 8), (8, 9), (9, 9), (10, 9), (11, 9),
     (12, 9), (13, 9), (14, 9), (15, 9), (16, 9), (17, 9)],
    [(16, 0), (16, 1), (16, 2), (16, 3), (16, 4), (16, 5), (16, 6),
     (16, 7), (16, 8), (16, 9), (17, 0), (17, 1), (17, 2), (17, 3),
     (17, 4), (17, 5), (17, 6), (17, 7), (17, 8), (17, 9)],
    [(8, 0), (9, 0), (10, 0), (11, 0), (12, 0), (13, 0), (14, 0),
     (15, 0), (16, 0), (17, 0), (8, 1), (9, 1), (10, 1), (11, 1),
     (12, 1), (13, 1), (14, 1), (15, 1), (16, 1), (17, 1)],
    [(0, 0), (1, 0), (2, 0), (3, 0), (4, 0), (5, 0), (6, 0), (7, 0),
     (8, 0), (9, 0), (0, 1), (1, 1), (2, 1), (3, 1), (4, 1), (5, 1),
     (6, 1), (7, 1), (8, 1), (9, 1)],
    [(8, 0), (8, 1), (8, 2), (8, 3), (8, 4), (8, 5), (8, 6), (8, 7),
     (8, 8), (8, 9), (9, 0), (9, 1), (9, 2), (9, 3), (9, 4), (9, 5),
     (9, 6), (9, 7), (9, 8), (9, 9)],
    [(5, 12), (12, 12)])

  /** The table get_segments reads: an unknown size falls back to SmSeg. */
  function Table(size: Size): SegTable
  {
    match size
    case Small => SmSeg
    case Medium => MedSeg
    case Large => LrgSeg
    case Other => SmSeg
  }

  /** The eleven glyph names get_segments knows. */
  const DigitNames: set<string> := {"0", "1", "2", "3", "4", "5", "6", "7", "8", "9"}
  const GlyphNames: set<string> := DigitNames + {":"}

  /** A digit character names a glyph. */
  lemma DigitName(c: char)
    requires '0' <= c <= '9'
    ensures [c] in DigitNames
  {
  }

  /** get_segments: the cells of one glyph in the size's table (an unknown
      size reads SmSeg); `None` for any other string (Python's implicit None). */
  function GetSegments(number: string, size: Size): (r: Option<seq<Cell>>)
    ensures r.Some? <==> number in GlyphNames
  {
    GlyphCells(Table(size), number)
  }

  /** The if-chain of get_segments over one table `seg`: each glyph is its
      segments concatenated in the source's order. */
  function GlyphCells(seg: SegTable, number: string): (r: Option<seq<Cell>>)
    ensures r.Some? <==> number in GlyphNames
  {
    if number == "0" then Some(seg.seg1 + seg.seg2 + seg.seg3 + seg.seg4 + seg.seg5 + seg.seg6)
    else if number == "1" then Some(seg.seg2 + seg.seg3)
    else if number == "2" then Some(seg.seg1 + seg.seg2 + seg.seg7 + seg.seg5 + seg.seg4)
    else if number == "3" then Some(seg.seg1 + seg.seg2 + seg.seg7 + seg.seg3 + seg.seg4)
    else if number == "4" then Some(seg.seg6 + seg.seg7 + seg.seg2 + seg.seg3)
    else if number == "5" then Some(seg.seg1 + seg.seg6 + seg.seg7 + seg.seg3 + seg.seg4)
    else if number == "6" then Some(seg.seg6 + seg.seg5 + seg.seg4 + seg.seg3 + seg.seg7)
    else if number == "7" then Some(seg.seg1 + seg.seg2 + seg.seg3)
    else if number == "8" then Some(seg.seg1 + seg.seg2 + seg.seg3 + seg.seg4 + seg.seg5 + seg.seg6 + seg.seg7)
    else if number == "9" then Some(seg.seg1 + seg.seg2 + seg.seg3 + seg.seg4 + seg.seg6 + seg.seg7)
    else if number == ":" then Some(seg.colon)
    else None
  }

  /** get_offset: the horizontal pitch between glyphs; `None` for an unknown size. */
  function GetOffset(size: Size): (r: Option<int>)
    ensures r.Some? <==> size != Other
    ensures r.Some? ==> r.value > GlyphWidth(size)
  {
    match size
    case Small => Some(5)
    case Medium => Some(6)
    case Large => Some(14)
    case Other => None
  }

  /** get_space_size: (height, width) of the whole clock face. */
  function GetSpaceSize(size: Size, showSeconds: bool): (r: (int, int))
    ensures size == Other <==> r == (0, 0)
    ensures size != Other ==> r.0 == GlyphHeight(size)
  {
    match size
    case Small => (5, if showSeconds then 30 else 20)
    case Medium => (7, if showSeconds then 36 else 24)
    case Large => (18, if showSeconds then 84 else 56)
    case Other => (0, 0)
  }

  /** The number of rows and columns a digit glyph spans in each table. */
  function GlyphHeight(size: Size): int
  {
    match size
    case Small => 5
    case Medium => 7
    case Large => 18
    case Other => 5
  }

  function GlyphWidth(size: Size): int
  {
    match size
    case Small => 3
    case Medium => 4
    case Large => 10
    case Other => 3
  }

  /** The column of the colon's two cells, relative to the glyph it follows. */
  function ColonColumn(size: Size): int
  {
    match size
    case Small => 4
    case Medium => 5
    case Large => 12
    case Other => 4
  }

  /** Segment k (1..7) of a table. */
  function Segment(t: SegTable, k: int): seq<Cell>
    requires 1 <= k <= 7
  {
    match k
    case 1 => t.seg1
    case 2 => t.seg2
    case 3 => t.seg3
    case 4 => t.seg4
    case 5 => t.seg5
    case 6 => t.seg6
    case 7 => t.seg7
  }

  /** Every cell of `cells` lies in rows 0..height-1 and columns 0..width-1. */
  predicate Within(cells: seq<Cell>, height: int, width: int)
  {
    forall i :: 0 <= i < |cells| ==> 0 <= cells[i].0 < height && 0 <= cells[i].1 < width
  }

  /** Every digit segment lies inside the glyph box, and the colon lies in the
      gap column between the glyph it follows and the next one. */
  predicate WellFormed(size: Size)
  {
    var t := Table(size);
    var h, w := GlyphHeight(size), GlyphWidth(size);
    Within(t.seg1, h, w) && Within(t.seg2, h, w) && Within(t.seg3, h, w) &&
    Within(t.seg4, h, w) && Within(t.seg5, h, w) && Within(t.seg6, h, w) &&
    Within(t.seg7, h, w) &&
    forall i :: 0 <= i < |t.colon| ==> 0 <= t.colon[i].0 < h && t.colon[i].1 == ColonColumn(size)
  }

  lemma TablesWellFormed(size: Size)
    ensures WellFormed(size)
  {
    match size
    case Small => SmallWellFormed();
    case Medium => MediumWellFormed();
    case Large => LargeWellFormed();
    case Other => SmallWellFormed();
  }

  lemma SmallWellFormed()
    ensures WellFormed(Small)
  {
    var t := SmSeg;
    assert Within(t.seg1, 5, 3) && Within(t.seg2, 5, 3) && Within(t.seg3, 5, 3);
    assert Within(t.seg4, 5, 3) && Within(t.seg5, 5, 3) && Within(t.seg6, 5, 3);
    assert Within(t.seg7, 5, 3);
  }

  lemma MediumWellFormed()
    ensures WellFormed(Medium)
  {
    var t := MedSeg;
    assert Within(t.seg1, 7, 4) && Within(t.seg2, 7, 4) && Within(t.seg3, 7, 4);
    assert Within(t.seg4, 7, 4) && Within(t.seg5, 7, 4) && Within(t.seg6, 7, 4);
    assert Within(t.seg7, 7, 4);
  }

  lemma LargeWellFormed()
    ensures WellFormed(Large)
  {
    LargeSeg1Within();
    LargeSeg2Within();
    LargeSeg3Within();
    LargeSeg4Within();
    LargeSeg5Within();
    LargeSeg6Within();
    LargeSeg7Within();
  }

  // The large segments are checked one per lemma: checked together, the
  // literal table is more than the solver can take in one proof.

  lemma LargeSeg1Within()
    ensures Within(LrgSeg.seg1, 18, 10)
  {
  }

  lemma LargeSeg2Within()
    ensures Within(LrgSeg.seg2, 18, 10)
  {
  }

  lemma LargeSeg3Within()
    ensures Within(LrgSeg.seg3, 18, 10)
  {
  }

  lemma LargeSeg4Within()
    ensures Within(LrgSeg.seg4, 18, 10)
  {
  }

  lemma LargeSeg5Within()
    ensures Within(LrgSeg.seg5, 18, 10)
  {
  }

  lemma LargeSeg6Within()
    ensures Within(LrgSeg.seg6, 18, 10)
  {
  }

  lemma LargeSeg7Within()
    ensures Within(LrgSeg.seg7, 18, 10)
  {
  }

  /** Every segment of `t` lies in the height-by-width box. */
  predicate SegmentsWithin(t: SegTable, height: int, width: int)
  {
    Within(t.seg1, height, width) && Within(t.seg2, height, width) && Within(t.seg3, height, width) &&
    Within(t.seg4, height, width) && Within(t.seg5, height, width) && Within(t.seg6, height, width) &&
    Within(t.seg7, height, width)
  }

  /** A digit glyph is a union of segments, so it stays in any box its
      segments stay in. */
  lemma GlyphCellsWithin(t: SegTable, number: string, height: int, width: int, c: Cell)
    requires SegmentsWithin(t, height, width)
    requires number in DigitNames && c in GlyphCells(t, number).value
    ensures 0 <= c.0 < height && 0 <= c.1 < width
  {
    assert c in t.seg1 || c in t.seg2 || c in t.seg3 || c in t.seg4 ||
           c in t.seg5 || c in t.seg6 || c in t.seg7;
    if c in t.seg1 { CellWithin(t.seg1, height, width, c); }
    else if c in t.seg2 { CellWithin(t.seg2, height, width, c); }
    else if c in t.seg3 { CellWithin(t.seg3, height, width, c); }
    else if c in t.seg4 { CellWithin(t.seg4, height, width, c); }
    else if c in t.seg5 { CellWithin(t.seg5, height, width, c); }
    else if c in t.seg6 { CellWithin(t.seg6, height, width, c); }
    else { CellWithin(t.seg7, height, width, c); }
  }

  lemma CellWithin(cells: seq<Cell>, height: int, width: int, c: Cell)
    requires Within(cells, height, width) && c in cells
    ensures 0 <= c.0 < height && 0 <= c.1 < width
  {
    var i :| 0 <= i < |cells| && cells[i] == c;
  }

  /** The cells get_segments gives for a digit lie in the glyph's box. */
  lemma DigitInBox(number: string, size: Size, c: Cell)
    requires size != Other && number in DigitNames && c in GetSegments(number, size).value
    ensures 0 <= c.0 < GlyphHeight(size) && 0 <= c.1 < GlyphWidth(size)
  {
    TablesWellFormed(size);
    GlyphCellsWithin(Table(size), number, GlyphHeight(size), GlyphWidth(size), c);
  }

  /** The cells get_segments gives for ":" lie in the colon column, past the
      glyph's width and before the next glyph's base. */
  lemma ColonInGap(size: Size, c: Cell)
    requires size != Other && c in GetSegments(":", size).value
    ensures 0 <= c.0 < GlyphHeight(size) && c.1 == ColonColumn(size)
    ensures GlyphWidth(size) <= ColonColumn(size) < GetOffset(size).value + 1
  {
    TablesWellFormed(size);
    var i :| 0 <= i < |Table(size).colon| && Table(size).colon[i] == c;
  }

  /** The conventional seven-segment encoding: the segments each glyph
      lights, in the usual letter names a = seg1 (top), b = seg2 (upper
      right), c = seg3 (lower right), d = seg4 (bottom), e = seg5 (lower
      left), f = seg6 (upper left), g = seg7 (middle). An independent
      reference for get_segments; 'b' is the lower-case letter b as
      seven-segment displays write it. */
  function Conventional(glyph: char): set<char>
  {
    match glyph
    case '0' => {'a', 'b', 'c', 'd', 'e', 'f'}
    case '1' => {'b', 'c'}
    case '2' => {'a', 'b', 'd', 'e', 'g'}
    case '3' => {'a', 'b', 'c', 'd', 'g'}
    case '4' => {'b', 'c', 'f', 'g'}
    case '5' => {'a', 'c', 'd', 'f', 'g'}
    case '6' => {'a', 'c', 'd', 'e', 'f', 'g'}
    case '7' => {'a', 'b', 'c'}
    case '8' => {'a', 'b', 'c', 'd', 'e', 'f', 'g'}
    case '9' => {'a', 'b', 'c', 'd', 'f', 'g'}
    case 'b' => {'c', 'd', 'e', 'f', 'g'}
    case _ => {}
  }

  /** The cells of the segments the conventional encoding lights, in segment order. */
  function ConventionalCells(t: SegTable, glyph: char): seq<Cell>
  {
    var lit := Conventional(glyph);
    (if 'a' in lit then t.seg1 else []) + (if 'b' in lit then t.seg2 else []) +
    (if 'c' in lit then t.seg3 else []) + (if 'd' in lit then t.seg4 else []) +
    (if 'e' in lit then t.seg5 else []) + (if 'f' in lit then t.seg6 else []) +
    (if 'g' in lit then t.seg7 else [])
  }

  /** In any table, every digit glyph covers exactly the cells of its
      conventionally lit segments, except "6", which covers those of the
      letter "b": it leaves out segment 1, the top bar. */
  lemma GlyphsFollowConvention(t: SegTable, number: string, c: Cell)
    requires number in DigitNames
    ensures GlyphCells(t, number).Some?
    ensures c in GlyphCells(t, number).value <==>
            c in ConventionalCells(t, if number == "6" then 'b' else number[0])
  {
    if number == "0" || number == "1" {
      Convention01(t, number, c);
    } else if number == "2" || number == "3" {
      Convention23(t, number, c);
    } else if number == "4" || number == "5" {
      Convention45(t, number, c);
    } else if number == "6" || number == "7" {
      Convention67(t, number, c);
    } else {
      Convention89(t, number, c);
    }
  }

  lemma Convention01(t: SegTable, number: string, c: Cell)
    requires number == "0" || number == "1"
    ensures c in GlyphCells(t, number).value <==> c in ConventionalCells(t, number[0])
  {
    if number == "0" {
      assert ConventionalCells(t, '0') == t.seg1 + t.seg2 + t.seg3 + t.seg4 + t.seg5 + t.seg6;
    } else {
      assert ConventionalCells(t, '1') == t.seg2 + t.seg3;
    }
  }

  lemma Convention23(t: SegTable, number: string, c: Cell)
    requires number == "2" || number == "3"
    ensures c in GlyphCells(t, number).value <==> c in ConventionalCells(t, number[0])
  {
    if number == "2" {
      assert ConventionalCells(t, '2') == t.seg1 + t.seg2 + t.seg4 + t.seg5 + t.seg7;
    } else {
      assert ConventionalCells(t, '3') == t.seg1 + t.seg2 + t.seg3 + t.seg4 + t.seg7;
    }
  }

  lemma Convention45(t: SegTable, number: string, c: Cell)
    requires number == "4" || number == "5"
    ensures c in GlyphCells(t, number).value <==> c in ConventionalCells(t, number[0])
  {
    if number == "4" {
      assert ConventionalCells(t, '4') == t.seg2 + t.seg3 + t.seg6 + t.seg7;
    } else {
      assert ConventionalCells(t, '5') == t.seg1 + t.seg3 + t.seg4 + t.seg6 + t.seg7;
    }
  }

  lemma Convention67(t: SegTable, number: string, c: Cell)
    requires number == "6" || number == "7"
    ensures c in GlyphCells(t, number).value <==> c in ConventionalCells(t, if number == "6" then 'b' else number[0])
  {
    if number == "6" {
      assert ConventionalCells(t, 'b') == t.seg3 + t.seg4 + t.seg5 + t.seg6 + t.seg7;
    } else {
      assert ConventionalCells(t, '7') == t.seg1 + t.seg2 + t.seg3;
    }
  }

  lemma Convention89(t: SegTable, number: string, c: Cell)
    requires number == "8" || number == "9"
    ensures c in GlyphCells(t, number).value <==> c in ConventionalCells(t, number[0])
  {
    if number == "8" {
      assert ConventionalCells(t, '8') == t.seg1 + t.seg2 + t.seg3 + t.seg4 + t.seg5 + t.seg6 + t.seg7;
    } else {
      assert ConventionalCells(t, '9') == t.seg1 + t.seg2 + t.seg3 + t.seg4 + t.seg6 + t.seg7;
    }
  }

  /** The cases tests/ct_clock_test.py checks, and the fallback of an
      unknown size to the small table. */
  lemma LookupExamples(number: string)
    ensures GetSegments("2", Small) == Some([(0, 0), (0, 1), (0, 2), (0, 2), (1, 2),
      (2, 2), (2, 0), (2, 1), (2, 2), (2, 0), (3, 0), (4, 0), (4, 0), (4, 1), (4, 2)])
    ensures GetSegments(":", Small) == Some([(1, 4), (3, 4)])
    ensures GetSegments("1", Medium) == Some([(0, 3), (1, 3), (2, 3), (3, 3), (3, 3), (4, 3), (5, 3), (6, 3)])
    ensures GetSegments(":", Large) == Some([(5, 12), (12, 12)])
    ensures GetSegments(number, Other) == GetSegments(number, Small)
    ensures GetOffset(Small) == Some(5) && GetOffset(Medium) == Some(6) && GetOffset(Large) == Some(14)
    ensures GetSpaceSize(Small, false) == (5, 20) && GetSpaceSize(Small, true) == (5, 30)
    ensures GetSpaceSize(Medium, false) == (7, 24) && GetSpaceSize(Medium, true) == (7, 36)
    ensures GetSpaceSize(Large, false) == (18, 56) && GetSpaceSize(Large, true) == (18, 84)
  {
    var two := SmSeg.seg1 + SmSeg.seg2 + SmSeg.seg7 + SmSeg.seg5 + SmSeg.seg4;
    assert GetSegments("2", Small) == Some(two);
    assert two == [(0, 0), (0, 1), (0, 2), (0, 2), (1, 2),
      (2, 2), (2, 0), (2, 1), (2, 2), (2, 0), (3, 0), (4, 0), (4, 0), (4, 1), (4, 2)];
    var one := MedSeg.seg2 + MedSeg.seg3;
    assert GetSegments("1", Medium) == Some(one);
    assert one == [(0, 3), (1, 3), (2, 3), (3, 3), (3, 3), (4, 3), (5, 3), (6, 3)];
  }
}
