/**
 * Where display's plots land: which glyph each plot of the face belongs
 * to, that each glyph keeps to its own columns, and that the sizes the
 * main loops choose keep the face on the screen.
 */
module Fit {
  import opened Wrappers
  import opened Glyphs
  import opened Terminal
  import opened Render
  import opened Sizing

  /** p is a cell of `cells` painted as glyph k, at its place with its text. */
  predicate DigitPlot(v: View, k: int, cells: seq<Cell>, p: Plot)
    requires Drawable(v) && 0 <= k < 6
  {
    exists c :: c in cells && p == Plot(c.0 + Top(v), c.1 + GlyphBase(v, k), GlyphText(v, k), 1)
  }

  /** p is a cell of the colon painted at glyph k's place. */
  predicate ColonPlot(v: View, k: int, colon: seq<Cell>, p: Plot)
    requires Drawable(v) && 0 <= k < 6
  {
    exists c :: c in colon && p == Plot(c.0 + Top(v), c.1 + GlyphBase(v, k), ":", 1)
  }

  /** Which colons display paints: after the hours when the colon is on, and
      after the minutes too when the seconds are shown. */
  predicate ColonShown(v: View, k: int)
  {
    v.colonOn && (k == 1 || (k == 3 && v.showSeconds))
  }

  lemma HourMembers(v: View, ds: seq<seq<Cell>>, colon: seq<Cell>, p: Plot)
    requires Drawable(v) && |ds| == 6
    ensures p in HourPlots(v, ds, colon) <==>
      (Shown(v, 0) && DigitPlot(v, 0, ds[0], p)) || DigitPlot(v, 1, ds[1], p) ||
      (ColonShown(v, 1) && ColonPlot(v, 1, colon, p))
  {
    DigitPlotsMember(v, 0, ds[0], p);
    DigitPlotsMember(v, 1, ds[1], p);
    ColonPlotsMember(v, 1, colon, p);
  }

  lemma MinuteMembers(v: View, ds: seq<seq<Cell>>, p: Plot)
    requires Drawable(v) && |ds| == 6
    ensures p in MinutePlots(v, ds) <==> DigitPlot(v, 2, ds[2], p) || DigitPlot(v, 3, ds[3], p)
  {
    DigitPlotsMember(v, 2, ds[2], p);
    DigitPlotsMember(v, 3, ds[3], p);
  }

  lemma SecondMembers(v: View, ds: seq<seq<Cell>>, colon: seq<Cell>, p: Plot)
    requires Drawable(v) && |ds| == 6
    ensures p in SecondPlots(v, ds, colon) <==>
      (ColonShown(v, 3) && ColonPlot(v, 3, colon, p)) ||
      (Shown(v, 4) && DigitPlot(v, 4, ds[4], p)) || (Shown(v, 5) && DigitPlot(v, 5, ds[5], p))
  {
    ColonPlotsMember(v, 3, colon, p);
    DigitPlotsMember(v, 4, ds[4], p);
    DigitPlotsMember(v, 5, ds[5], p);
  }

  lemma DigitPlotsMember(v: View, k: int, cells: seq<Cell>, p: Plot)
    requires Drawable(v) && 0 <= k < 6
    ensures p in DigitPlots(v, k, cells) <==> DigitPlot(v, k, cells, p)
  {
    GlyphPlotsMember(cells, Top(v), GlyphBase(v, k), GlyphText(v, k), p);
  }

  lemma ColonPlotsMember(v: View, k: int, colon: seq<Cell>, p: Plot)
    requires Drawable(v) && 0 <= k < 6
    ensures p in ColonPlots(v, k, colon) <==> ColonPlot(v, k, colon, p)
  {
    GlyphPlotsMember(colon, Top(v), GlyphBase(v, k), ":", p);
  }

  /** p belongs to a shown digit or a shown colon, at that glyph's place. */
  predicate OnFace(v: View, ds: seq<seq<Cell>>, colon: seq<Cell>, p: Plot)
    requires Drawable(v) && |ds| == 6
  {
    (Shown(v, 0) && DigitPlot(v, 0, ds[0], p)) || DigitPlot(v, 1, ds[1], p) ||
    DigitPlot(v, 2, ds[2], p) || DigitPlot(v, 3, ds[3], p) ||
    (Shown(v, 4) && DigitPlot(v, 4, ds[4], p)) || (Shown(v, 5) && DigitPlot(v, 5, ds[5], p)) ||
    (ColonShown(v, 1) && ColonPlot(v, 1, colon, p)) || (ColonShown(v, 3) && ColonPlot(v, 3, colon, p))
  }

  /** The face painted from glyph cells ds and colon is exactly the shown
      digits and the shown colons, each at its glyph's place: nothing else is
      painted and nothing shown is missed. */
  lemma FacePlotsMembers(v: View, ds: seq<seq<Cell>>, colon: seq<Cell>, p: Plot)
    requires Drawable(v) && |ds| == 6
    ensures p in FacePlots(v, ds, colon) <==> OnFace(v, ds, colon, p)
  {
    HourMembers(v, ds, colon, p);
    MinuteMembers(v, ds, p);
    SecondMembers(v, ds, colon, p);
  }

  /** Glyph cells that keep to their boxes: each digit inside the glyph
      box of `size`, the colon in its column. */
  predicate CellsFit(size: Size, ds: seq<seq<Cell>>, colon: seq<Cell>)
  {
    |ds| == 6 &&
    (forall k, c :: 0 <= k < 6 && c in ds[k] ==> 0 <= c.0 < GlyphHeight(size) && 0 <= c.1 < GlyphWidth(size)) &&
    (forall c :: c in colon ==> 0 <= c.0 < GlyphHeight(size) && c.1 == ColonColumn(size))
  }

  /** The cells display looks up for a time keep to their boxes. */
  lemma TimeSegmentsFit(v: View)
    requires Drawable(v)
    ensures CellsFit(v.size, TimeSegments(v), ColonCells(v.size))
  {
    forall k | 0 <= k < 6
      ensures forall c :: c in TimeSegments(v)[k] ==> 0 <= c.0 < GlyphHeight(v.size) && 0 <= c.1 < GlyphWidth(v.size)
    {
      DigitCellsFit(v, k);
    }
    ColonCellsFit(v.size);
  }

  lemma DigitCellsFit(v: View, k: int)
    requires Drawable(v) && 0 <= k < 6
    ensures forall c :: c in TimeSegments(v)[k] ==> 0 <= c.0 < GlyphHeight(v.size) && 0 <= c.1 < GlyphWidth(v.size)
  {
    var cells := DigitCells(v, k);
    assert TimeSegments(v)[k] == cells;
    forall c | c in cells
      ensures 0 <= c.0 < GlyphHeight(v.size) && 0 <= c.1 < GlyphWidth(v.size)
    {
      DigitCellsInBox(v, k, c);
    }
  }

  lemma ColonCellsFit(size: Size)
    requires size != Other
    ensures forall c :: c in ColonCells(size) ==> 0 <= c.0 < GlyphHeight(size) && c.1 == ColonColumn(size)
  {
    forall c | c in ColonCells(size)
      ensures 0 <= c.0 < GlyphHeight(size) && c.1 == ColonColumn(size)
    {
      ColonInGap(size, c);
    }
  }

  lemma DigitCellsInBox(v: View, k: int, c: Cell)
    requires Drawable(v) && 0 <= k < 6 && c in DigitCells(v, k)
    ensures 0 <= c.0 < GlyphHeight(v.size) && 0 <= c.1 < GlyphWidth(v.size)
  {
    TimeDigitIsGlyph(v.time, k);
    DigitInBox(v.time[k..k + 1], v.size, c);
  }

  /** Glyph k's columns run from its base for the glyph width; a colon sits
      after the glyph's width and before the next glyph's base; and the last
      shown glyph ends inside the face's width. */
  lemma BasesApart(v: View, k: int)
    requires v.size != Other && 0 <= k < 6
    ensures Left(v) <= GlyphBase(v, k)
    ensures k < 5 ==> GlyphBase(v, k) + GlyphWidth(v.size) < GlyphBase(v, k + 1)
    ensures k < 5 ==> GlyphBase(v, k) + ColonColumn(v.size) < GlyphBase(v, k + 1)
    ensures GlyphWidth(v.size) <= ColonColumn(v.size)
    ensures (k <= 3 || v.showSeconds) ==> GlyphBase(v, k) + GlyphWidth(v.size) <= Left(v) + BoxWidth(v)
    ensures (k == 1 || (k == 3 && v.showSeconds)) ==> GlyphBase(v, k) + ColonColumn(v.size) < Left(v) + BoxWidth(v)
  {
  }

  /** Every plot of the face lies in the face's box, hc..hc+height-1 by
      w_offset..w_offset+width-1, and paints in colour pair 1. */
  lemma FacePlotsInBox(v: View, ds: seq<seq<Cell>>, colon: seq<Cell>, p: Plot)
    requires Drawable(v) && CellsFit(v.size, ds, colon)
    requires p in FacePlots(v, ds, colon)
    ensures p.pair == 1
    ensures Top(v) <= p.row < Top(v) + BoxHeight(v)
    ensures Left(v) <= p.col < Left(v) + BoxWidth(v)
  {
    FacePlotsMembers(v, ds, colon, p);
    if k :| 0 <= k < 6 && Shown(v, k) && DigitPlot(v, k, ds[k], p) {
      BasesApart(v, k);
    } else {
      var k := if ColonShown(v, 1) && ColonPlot(v, 1, colon, p) then 1 else 3;
      BasesApart(v, k);
    }
  }

  /** No column is painted by two glyphs: two digit plots in one column
      belong to the same digit, a colon never shares a column with a digit,
      and two colon plots in one column belong to the same colon. So no
      cell is painted by two different glyphs, whatever the texts. */
  lemma GlyphsDisjoint(v: View, ds: seq<seq<Cell>>, colon: seq<Cell>, j: int, k: int, p: Plot, q: Plot)
    requires Drawable(v) && CellsFit(v.size, ds, colon) && 0 <= j < 6 && 0 <= k < 6
    ensures DigitPlot(v, j, ds[j], p) && DigitPlot(v, k, ds[k], q) && p.col == q.col ==> j == k
    ensures DigitPlot(v, j, ds[j], p) && ColonPlot(v, k, colon, q) ==> p.col != q.col
    ensures ColonPlot(v, j, colon, p) && ColonPlot(v, k, colon, q) && p.col == q.col ==> j == k
  {
    if j < k {
      BasesOrdered(v, j, k);
    } else if k < j {
      BasesOrdered(v, k, j);
    }
    BasesApart(v, j);
    if DigitPlot(v, j, ds[j], p) {
      DigitColumn(v, j, ds[j], p);
    }
    if ColonPlot(v, j, colon, p) {
      ColonColumnOf(v, j, colon, p);
    }
    if DigitPlot(v, k, ds[k], q) {
      DigitColumn(v, k, ds[k], q);
    }
    if ColonPlot(v, k, colon, q) {
      ColonColumnOf(v, k, colon, q);
    }
  }

  /** A left glyph, and the colon column after it, end before a right glyph's base. */
  lemma BasesOrdered(v: View, j: int, k: int)
    requires v.size != Other && 0 <= j < k < 6
    ensures GlyphWidth(v.size) <= ColonColumn(v.size)
    ensures GlyphBase(v, j) + ColonColumn(v.size) < GlyphBase(v, k)
  {
    BasesApart(v, j);
    BasesFromLeft(v, j + 1, k);
  }

  /** A digit plot lies in its glyph's columns. */
  lemma DigitColumn(v: View, k: int, cells: seq<Cell>, p: Plot)
    requires Drawable(v) && 0 <= k < 6 && DigitPlot(v, k, cells, p)
    requires forall c :: c in cells ==> 0 <= c.1 < GlyphWidth(v.size)
    ensures GlyphBase(v, k) <= p.col < GlyphBase(v, k) + GlyphWidth(v.size)
  {
    var c :| c in cells && p == Plot(c.0 + Top(v), c.1 + GlyphBase(v, k), GlyphText(v, k), 1);
  }

  /** A colon plot lies in the colon column of its glyph. */
  lemma ColonColumnOf(v: View, k: int, colon: seq<Cell>, p: Plot)
    requires Drawable(v) && 0 <= k < 6 && ColonPlot(v, k, colon, p)
    requires forall c :: c in colon ==> c.1 == ColonColumn(v.size)
    ensures p.col == GlyphBase(v, k) + ColonColumn(v.size)
  {
    var c :| c in colon && p == Plot(c.0 + Top(v), c.1 + GlyphBase(v, k), ":", 1);
  }

  /** Glyph bases increase from left to right. */
  lemma BasesFromLeft(v: View, j: int, k: int)
    requires v.size != Other && 0 <= j <= k < 6
    ensures GlyphBase(v, j) <= GlyphBase(v, k)
  {
  }

  /** Every plot of display's face lies in the face's box. */
  lemma FaceInBox(v: View, p: Plot)
    requires Drawable(v) && p in Face(v)
    ensures p.pair == 1
    ensures Top(v) <= p.row < Top(v) + BoxHeight(v)
    ensures Left(v) <= p.col < Left(v) + BoxWidth(v)
  {
    TimeSegmentsFit(v);
    FacePlotsInBox(v, TimeSegments(v), ColonCells(v.size), p);
  }

  /** When the terminal meets main_clock's minimum for the size, the face
      lies on the screen, above the bottom row that fill_background leaves
      alone. */
  lemma FaceOnScreen(v: View, p: Plot)
    requires Drawable(v) && Meets(ClockMinimums, v.size, v.sizeX, v.sizeY) && p in Face(v)
    ensures 0 <= p.row < v.sizeY - 1
    ensures 0 <= p.col < v.sizeX
  {
    FaceInBox(v, p);
  }

  /** A text size that main_clock's chain, or either stop-watch chain,
      chose for the view's terminal keeps the face on the screen. */
  lemma ChosenFaceOnScreen(m: Minimums, v: View, p: Plot)
    requires m == ClockMinimums || m == StopwatchStartMinimums || m == StopwatchResizeMinimums
    requires Drawable(v) && Classify(m, v.sizeX, v.sizeY) == Success(v.size) && p in Face(v)
    ensures 0 <= p.row < v.sizeY - 1
    ensures 0 <= p.col < v.sizeX
  {
    ChosenSizeMeetsClock(v.sizeX, v.sizeY);
    FaceOnScreen(v, p);
  }

  /** The colours a repaint shows, with the pairs display sets: each part
      of `Painted(v)` is written in a pair display has set, the face in
      solid blocks of the digit colour, the background in solid blocks of
      the background colour, and the status line and captions in the digit
      colour on the background. */
  lemma PaintedColours(pairs: map<int, (string, string)>, v: View, p: Plot)
    requires Drawable(v) && v.sizeX >= 0
    ensures p in Face(v) ==>
      p.pair in Coloured(pairs, v) && Coloured(pairs, v)[p.pair] == (v.color, v.color)
    ensures p in Background(v.sizeY - 1, v.sizeX) ==>
      p.pair in Coloured(pairs, v) && Coloured(pairs, v)[p.pair] == (v.bgColor, v.bgColor)
    ensures p in StatusLine(v) || p in Captions(v) ==>
      p.pair in Coloured(pairs, v) && Coloured(pairs, v)[p.pair] == (v.color, v.bgColor)
  {
    var c := Coloured(pairs, v);
    assert c[1] == (v.color, v.color) && c[2] == (v.color, v.bgColor) && c[3] == (v.bgColor, v.bgColor);
    if p in Background(v.sizeY - 1, v.sizeX) {
      BackgroundPair(v.sizeY - 1, v.sizeX, p);
    }
    if p in Face(v) {
      FacePair(v, p);
    }
    if p in StatusLine(v) || p in Captions(v) {
      TextPairs(v, p);
    }
  }

  /** The background is written in pair 3. */
  lemma BackgroundPair(rows: int, width: nat, p: Plot)
    requires p in Background(rows, width)
    ensures p.pair == 3
  {
    BackgroundCells(rows, width);
  }

  /** The face is written in pair 1. */
  lemma FacePair(v: View, p: Plot)
    requires Drawable(v) && p in Face(v)
    ensures p.pair == 1
  {
    FaceInBox(v, p);
  }

  /** The status line and the captions are written in pair 2. */
  lemma TextPairs(v: View, p: Plot)
    requires Drawable(v) && (p in StatusLine(v) || p in Captions(v))
    ensures p.pair == 2
  {
  }

  /** When the terminal meets main_clock's minimum for the size, the
      centring offsets hc and w_offset are not negative and the face's box
      ends above the bottom row and within the width. */
  lemma CentringOnScreen(v: View)
    requires v.size != Other && Meets(ClockMinimums, v.size, v.sizeX, v.sizeY)
    ensures 0 <= Top(v) && Top(v) + BoxHeight(v) <= v.sizeY - 1
    ensures 0 <= Left(v) && Left(v) + BoxWidth(v) <= v.sizeX
  {
  }

  /** Each of the three chains only picks a size whose main_clock minimum
      the terminal meets. */
  lemma ChosenSizeMeetsClock(sizeX: int, sizeY: int)
    ensures Classify(ClockMinimums, sizeX, sizeY).Success? ==>
      Meets(ClockMinimums, Classify(ClockMinimums, sizeX, sizeY).value, sizeX, sizeY)
    ensures Classify(StopwatchStartMinimums, sizeX, sizeY).Success? ==>
      Meets(ClockMinimums, Classify(StopwatchStartMinimums, sizeX, sizeY).value, sizeX, sizeY)
    ensures Classify(StopwatchResizeMinimums, sizeX, sizeY).Success? ==>
      Meets(ClockMinimums, Classify(StopwatchResizeMinimums, sizeX, sizeY).value, sizeX, sizeY)
  {
  }

  /** What the face's texts reveal outside test mode: the leading "1" only
      when that digit is shown, "5" and "6" only with the seconds, ":" only
      with the colon on. */
  lemma FaceLabels(v: View, p: Plot)
    requires Drawable(v) && !v.testMode && p in Face(v)
    ensures p.text in {"1", "2", "3", "4", "5", "6", ":"}
    ensures p.text == "1" ==> Shown(v, 0)
    ensures p.text == "5" || p.text == "6" ==> v.showSeconds
    ensures p.text == ":" ==> v.colonOn
  {
    FacePlotsTexts(v, TimeSegments(v), ColonCells(v.size), p);
    if !(p.text == ":" && v.colonOn) {
      var k :| 0 <= k < 6 && Shown(v, k) && p.text == GlyphText(v, k);
      LabelOf(v, k);
    }
  }

  /** Outside test mode glyph k is labelled with its position, k + 1. */
  lemma LabelOf(v: View, k: int)
    requires Drawable(v) && !v.testMode && 0 <= k < 6
    ensures GlyphText(v, k) in {"1", "2", "3", "4", "5", "6"}
    ensures GlyphText(v, k) == "1" <==> k == 0
    ensures GlyphText(v, k) == "5" || GlyphText(v, k) == "6" <==> k >= 4
  {
  }

  /** Every plot of the face carries the text of a shown glyph, or is a
      ":" painted with the colon on. */
  lemma FacePlotsTexts(v: View, ds: seq<seq<Cell>>, colon: seq<Cell>, p: Plot)
    requires Drawable(v) && |ds| == 6 && p in FacePlots(v, ds, colon)
    ensures (p.text == ":" && v.colonOn) || exists k :: 0 <= k < 6 && Shown(v, k) && p.text == GlyphText(v, k)
  {
    FacePlotsMembers(v, ds, colon, p);
  }

  /** In test mode each glyph carries its own digit of the time. */
  lemma TestModeTexts(v: View, p: Plot)
    requires Drawable(v) && v.testMode && p in Face(v)
    ensures p.text == ":" || exists k :: 0 <= k < 6 && Shown(v, k) && p.text == [v.time[k]]
  {
    FacePlotsTexts(v, TimeSegments(v), ColonCells(v.size), p);
    if !(p.text == ":" && v.colonOn) {
      var k :| 0 <= k < 6 && Shown(v, k) && p.text == GlyphText(v, k);
      assert v.time[k..k + 1] == [v.time[k]];
    }
  }
}
