/**
 * display: the clock face laid out on the screen. `Layout` is the sequence
 * of addstr calls display makes after filling the background; `Display`
 * performs them step by step with the running `w_offset`, as the source does.
 */
module Render {
  import opened Wrappers
  import opened Glyphs
  import opened Terminal

  /** The arguments of display. */
  datatype View = View(
    time: string, size: Size, sizeX: int, sizeY: int, color: string,
    showSeconds: bool, amPm: string, showDate: bool, colonOn: bool,
    testMode: bool, militaryTime: bool, date: string, bgColor: string,
    stopWatch: bool, stopWatchState: string)

  /** Six digits, as strftime("%H%M%S") and strftime("%I%M%S") produce. */
  predicate IsTimeString(s: string)
  {
    |s| == 6 && forall i :: 0 <= i < 6 ==> '0' <= s[i] <= '9'
  }

  lemma TimeDigitIsGlyph(s: string, k: int)
    requires IsTimeString(s) && 0 <= k < 6
    ensures s[k..k + 1] in DigitNames
  {
    assert s[k..k + 1] == [s[k]];
    DigitName(s[k]);
  }

  /** What display needs of its caller: a known size and a six-digit time. */
  predicate Drawable(v: View)
  {
    v.size != Other && IsTimeString(v.time)
  }

  /** Python's int(n / 2): halving truncated toward zero. */
  function TruncHalf(n: int): (r: int)
    ensures n >= 0 ==> 0 <= r && r + r <= n <= r + r + 1
    ensures n < 0 ==> r <= 0 && r + r - 1 <= n <= r + r
  {
    if n >= 0 then n / 2 else -((-n) / 2)
  }

  function Pitch(v: View): int
    requires v.size != Other
  {
    GetOffset(v.size).value
  }

  function BoxHeight(v: View): int { GetSpaceSize(v.size, v.showSeconds).0 }
  function BoxWidth(v: View): int { GetSpaceSize(v.size, v.showSeconds).1 }

  /** hc: the first row of the clock face. */
  function Top(v: View): int { TruncHalf(v.sizeY - BoxHeight(v)) }

  /** The initial w_offset: the first column of the clock face. */
  function Left(v: View): int { TruncHalf(v.sizeX - BoxWidth(v)) }

  /** The base column of glyph k (0..5): from Left, steps of pitch, pitch+1,
      pitch, pitch+1, pitch (the +1 steps make room for the colons). */
  function GlyphBase(v: View, k: int): int
    requires v.size != Other && 0 <= k < 6
  {
    var off := Pitch(v);
    match k
    case 0 => Left(v)
    case 1 => Left(v) + off
    case 2 => Left(v) + 2 * off + 1
    case 3 => Left(v) + 3 * off + 1
    case 4 => Left(v) + 4 * off + 2
    case 5 => Left(v) + 5 * off + 2
  }

  /** Whether glyph k is painted: the leading hour digit only in 24-hour
      mode or when it is "1"; the seconds only when they are shown. */
  predicate Shown(v: View, k: int)
    requires Drawable(v) && 0 <= k < 6
  {
    if k == 0 then v.militaryTime || v.time[..1] == "1"
    else k <= 3 || v.showSeconds
  }

  /** The text each cell of glyph k carries: its position label "1".."6",
      or in test mode the digit itself. */
  function GlyphText(v: View, k: int): string
    requires Drawable(v) && 0 <= k < 6
  {
    if v.testMode then v.time[k..k + 1] else
    match k
    case 0 => "1"
    case 1 => "2"
    case 2 => "3"
    case 3 => "4"
    case 4 => "5"
    case 5 => "6"
  }

  /** The cells of a glyph shifted to (top, left), each painted with `text`
      in colour pair 1, in the order of `cells`. */
  function GlyphPlots(cells: seq<Cell>, top: int, left: int, text: string): (r: seq<Plot>)
    ensures |r| == |cells|
  {
    if cells == [] then []
    else
      var c := cells[|cells| - 1];
      GlyphPlots(cells[..|cells| - 1], top, left, text) + [Plot(c.0 + top, c.1 + left, text, 1)]
  }

  /** The plots of a glyph are exactly its cells shifted to (top, left). */
  lemma {:induction false} GlyphPlotsMember(cells: seq<Cell>, top: int, left: int, text: string, p: Plot)
    ensures p in GlyphPlots(cells, top, left, text) <==>
      exists c :: c in cells && p == Plot(c.0 + top, c.1 + left, text, 1)
  {
    if cells != [] {
      var init := cells[..|cells| - 1];
      GlyphPlotsMember(init, top, left, text, p);
      assert cells == init + [cells[|cells| - 1]];
    }
  }

  /** What get_segments returns for digit k of the time. */
  function DigitCells(v: View, k: int): seq<Cell>
    requires Drawable(v) && 0 <= k < 6
  {
    TimeDigitIsGlyph(v.time, k);
    GetSegments(v.time[k..k + 1], v.size).value
  }

  /** time_segments: the cells of each of the six digits. */
  function TimeSegments(v: View): (r: seq<seq<Cell>>)
    requires Drawable(v)
    ensures |r| == 6
  {
    seq(6, k requires 0 <= k < 6 => DigitCells(v, k))
  }

  /** What get_segments returns for ":". */
  function ColonCells(size: Size): seq<Cell>
  {
    assert ":" in GlyphNames;
    GetSegments(":", size).value
  }

  /** Glyph k painted from the cells `cells`. */
  function DigitPlots(v: View, k: int, cells: seq<Cell>): seq<Plot>
    requires Drawable(v) && 0 <= k < 6
  {
    GlyphPlots(cells, Top(v), GlyphBase(v, k), GlyphText(v, k))
  }

  /** The colon painted at the base of glyph k. */
  function ColonPlots(v: View, k: int, colon: seq<Cell>): seq<Plot>
    requires Drawable(v) && 0 <= k < 6
  {
    GlyphPlots(colon, Top(v), GlyphBase(v, k), ":")
  }

  /** The hours: the leading digit when shown, the second digit, and the
      first colon when it is on. */
  function HourPlots(v: View, ds: seq<seq<Cell>>, colon: seq<Cell>): seq<Plot>
    requires Drawable(v) && |ds| == 6
  {
    (if Shown(v, 0) then DigitPlots(v, 0, ds[0]) else []) +
    DigitPlots(v, 1, ds[1]) + (if v.colonOn then ColonPlots(v, 1, colon) else [])
  }

  function MinutePlots(v: View, ds: seq<seq<Cell>>): seq<Plot>
    requires Drawable(v) && |ds| == 6
  {
    DigitPlots(v, 2, ds[2]) + DigitPlots(v, 3, ds[3])
  }

  /** The seconds, with the colon before them, only when shown. */
  function SecondPlots(v: View, ds: seq<seq<Cell>>, colon: seq<Cell>): seq<Plot>
    requires Drawable(v) && |ds| == 6
  {
    if v.showSeconds
    then (if v.colonOn then ColonPlots(v, 3, colon) else []) + DigitPlots(v, 4, ds[4]) + DigitPlots(v, 5, ds[5])
    else []
  }

  /** The digits and colons painted from the glyph cells `ds` and `colon`,
      in the order display paints them. */
  function FacePlots(v: View, ds: seq<seq<Cell>>, colon: seq<Cell>): seq<Plot>
    requires Drawable(v) && |ds| == 6
  {
    HourPlots(v, ds, colon) + MinutePlots(v, ds) + SecondPlots(v, ds, colon)
  }

  /** The clock face of v. */
  function Face(v: View): seq<Plot>
    requires Drawable(v)
  {
    FacePlots(v, TimeSegments(v), ColonCells(v.size))
  }

  /** w_offset after the last glyph: one pitch past the last glyph's base. */
  function RightEdge(v: View): int
    requires v.size != Other
  {
    if v.showSeconds then GlyphBase(v, 5) + Pitch(v) else GlyphBase(v, 3) + Pitch(v)
  }

  /** The stop watch's status line, two rows above the face. */
  function StatusLine(v: View): seq<Plot>
  {
    if v.stopWatch
    then [Plot(Top(v) - 2, TruncHalf(v.sizeX) - 10, "Stop Watch  " + v.stopWatchState, 2)]
    else []
  }

  /** AM/PM and the date on the row below the face, then the test-mode overlay. */
  function Captions(v: View): seq<Plot>
    requires v.size != Other
  {
    (if v.amPm != "" then [Plot(BoxHeight(v) + Top(v), RightEdge(v), v.amPm, 2)] else []) +
    (if v.showDate then [Plot(BoxHeight(v) + Top(v), RightEdge(v) - 15, v.date, 2)] else []) +
    (if v.testMode
     then [Plot(0, 0, "test mode", 2), Plot(1, 0, v.color, 2), Plot(2, 0, "bg=" + v.bgColor, 2)]
     else [])
  }

  /** Everything display writes after the background. */
  function Layout(v: View): seq<Plot>
    requires Drawable(v)
  {
    StatusLine(v) + Face(v) + Captions(v)
  }

  /** What display leaves on the screen of the view's size: the
      background of every row but the last, then the layout. */
  function Painted(v: View): seq<Plot>
    requires Drawable(v) && v.sizeX >= 0
  {
    Background(v.sizeY - 1, v.sizeX) + Layout(v)
  }

  /** The colour pairs display leaves: pair 1 for the solid digit blocks,
      pair 2 for the status line and captions, pair 3 for the background. */
  function Coloured(pairs: map<int, (string, string)>, v: View): map<int, (string, string)>
  {
    pairs[1 := (v.color, v.color)][2 := (v.color, v.bgColor)][3 := (v.bgColor, v.bgColor)]
  }

  /** set_color: pair 1 paints solid digit blocks, pair 2 the captions. */
  method SetColor(screen: Screen, color: string, bgColor: string)
    modifies screen`log, screen`pairs
    ensures screen.pairs == old(screen.pairs)[1 := (color, color)][2 := (color, bgColor)]
    ensures screen.log == old(screen.log)
  {
    screen.InitPair(1, color, color);
    screen.InitPair(2, color, bgColor);
  }

  /** The inner loop of display: one addstr per cell of a glyph. */
  method PaintGlyph(screen: Screen, cells: seq<Cell>, top: int, left: int, text: string)
    modifies screen`log, screen`pairs
    ensures screen.log == old(screen.log) + GlyphPlots(cells, top, left, text)
    ensures screen.pairs == old(screen.pairs)
  {
    for i := 0 to |cells|
      invariant screen.log == old(screen.log) + GlyphPlots(cells[..i], top, left, text)
      invariant screen.pairs == old(screen.pairs)
    {
      screen.AddStr(cells[i].0 + top, cells[i].1 + left, text, 1);
      assert cells[..i + 1][..i] == cells[..i];
    }
    assert cells[..|cells|] == cells;
  }

  lemma AppendAssoc<T>(p: seq<T>, a: seq<T>, b: seq<T>, c: seq<T>)
    ensures p + (a + b + c) == p + a + b + c
  {
  }

  /** The first loop of display: get_segments of every digit of the time. */
  method SegmentTime(v: View) returns (timeSegments: seq<Option<seq<Cell>>>)
    requires Drawable(v)
    ensures |timeSegments| == 6
    ensures forall j :: 0 <= j < 6 ==> timeSegments[j] == Some(TimeSegments(v)[j])
  {
    timeSegments := [];
    for i := 0 to |v.time|
      invariant |timeSegments| == i
      invariant forall j :: 0 <= j < i ==> timeSegments[j] == Some(TimeSegments(v)[j])
    {
      TimeDigitIsGlyph(v.time, i);
      timeSegments := timeSegments + [GetSegments(v.time[i..i + 1], v.size)];
    }
  }

  /** display: clears the screen, fills the background, and paints the
      status line, the face, the captions and the test-mode overlay. */
  method Display(screen: Screen, v: View)
    requires Drawable(v) && screen.rows == v.sizeY && screen.cols == v.sizeX
    modifies screen`log, screen`pairs
    ensures screen.pairs == Coloured(old(screen.pairs), v)
    ensures screen.log == Painted(v)
  {
    var timeSegments := SegmentTime(v);
    SetColor(screen, v.color, v.bgColor);
    var (height, width) := GetSpaceSize(v.size, v.showSeconds);
    var hc := TruncHalf(v.sizeY - height);
    var wOffset := TruncHalf(v.sizeX - width);
    ClearToBackground(screen, v);
    PaintLayout(screen, v, timeSegments, height, hc, wOffset);
  }

  /** display's clear and fill_background: a screen of the view's size
      then holds the background alone. */
  method ClearToBackground(screen: Screen, v: View)
    requires screen.rows == v.sizeY && screen.cols == v.sizeX
    modifies screen`log, screen`pairs
    ensures screen.pairs == old(screen.pairs)[3 := (v.bgColor, v.bgColor)]
    ensures screen.log == Background(v.sizeY - 1, v.sizeX)
  {
    screen.Clear();
    FillBackground(screen, v.bgColor);
    assert screen.rows == v.sizeY && screen.cols == v.sizeX;
    assert [] + Background(v.sizeY - 1, v.sizeX) == Background(v.sizeY - 1, v.sizeX);
  }

  /** display after the background: the status line, the face and the captions. */
  method PaintLayout(screen: Screen, v: View, timeSegments: seq<Option<seq<Cell>>>, height: int, hc: int, w0: int)
    requires Drawable(v) && height == BoxHeight(v) && hc == Top(v) && w0 == Left(v)
    requires |timeSegments| == 6
    requires forall j :: 0 <= j < 6 ==> timeSegments[j] == Some(TimeSegments(v)[j])
    modifies screen`log, screen`pairs
    ensures screen.log == old(screen.log) + Layout(v)
    ensures screen.pairs == old(screen.pairs)
  {
    if v.stopWatch {
      screen.AddStr(hc - 2, TruncHalf(v.sizeX) - 10, "Stop Watch  " + v.stopWatchState, 2);
    }
    ghost var status := screen.log;
    assert status == old(screen.log) + StatusLine(v);
    var wOffset := PaintFace(screen, v, timeSegments, TimeSegments(v), ColonCells(v.size), hc, w0);
    ghost var face := screen.log;
    assert face == status + Face(v);
    PaintCaptions(screen, v, height, hc, wOffset);
    AppendAssoc(old(screen.log), StatusLine(v), Face(v), Captions(v));
  }

  /** The end of display: AM/PM and the date below the face, then the
      test-mode overlay. */
  method PaintCaptions(screen: Screen, v: View, height: int, hc: int, wOffset: int)
    requires v.size != Other && height == BoxHeight(v) && hc == Top(v) && wOffset == RightEdge(v)
    modifies screen`log, screen`pairs
    ensures screen.log == old(screen.log) + Captions(v)
    ensures screen.pairs == old(screen.pairs)
  {
    if v.amPm != "" {
      screen.AddStr(height + hc, wOffset, v.amPm, 2);
    }
    if v.showDate {
      screen.AddStr(height + hc, wOffset - 15, v.date, 2);
    }
    if v.testMode {
      screen.AddStr(0, 0, "test mode", 2);
      screen.AddStr(1, 0, v.color, 2);
      screen.AddStr(2, 0, "bg=" + v.bgColor, 2);
    }
  }

  /** The digit-painting part of display: six glyphs and two colons, moving
      w_offset right as it goes; returns the final w_offset. */
  method PaintFace(screen: Screen, v: View, timeSegments: seq<Option<seq<Cell>>>, ghost ds: seq<seq<Cell>>,
                   colon: seq<Cell>, hc: int, w0: int)
    returns (wOffset: int)
    requires Drawable(v) && hc == Top(v) && w0 == Left(v)
    requires |timeSegments| == 6 && |ds| == 6
    requires forall j :: 0 <= j < 6 ==> timeSegments[j] == Some(ds[j])
    modifies screen`log, screen`pairs
    ensures screen.log == old(screen.log) + FacePlots(v, ds, colon)
    ensures screen.pairs == old(screen.pairs)
    ensures wOffset == RightEdge(v)
  {
    wOffset := PaintHours(screen, v, timeSegments, ds, colon, hc, w0);
    wOffset := PaintMinutes(screen, v, timeSegments, ds, hc, wOffset);
    wOffset := PaintSeconds(screen, v, timeSegments, ds, colon, hc, wOffset);
  }

  method PaintHours(screen: Screen, v: View, timeSegments: seq<Option<seq<Cell>>>, ghost ds: seq<seq<Cell>>,
                    colon: seq<Cell>, hc: int, w0: int)
    returns (wOffset: int)
    requires Drawable(v) && hc == Top(v) && w0 == Left(v)
    requires |timeSegments| == 6 && |ds| == 6
    requires forall j :: 0 <= j < 6 ==> timeSegments[j] == Some(ds[j])
    modifies screen`log, screen`pairs
    ensures screen.log == old(screen.log) + HourPlots(v, ds, colon)
    ensures screen.pairs == old(screen.pairs)
    ensures wOffset == GlyphBase(v, 1)
  {
    wOffset := w0;
    if v.militaryTime || v.time[..1] == "1" {
      var d := if !v.testMode then "1" else v.time[..1];
      assert v.time[..1] == v.time[0..1];
      PaintGlyph(screen, timeSegments[0].value, hc, wOffset, d);
    }
    ghost var painted := old(screen.log) + (if Shown(v, 0) then DigitPlots(v, 0, ds[0]) else []);
    assert screen.log == painted;
    wOffset := wOffset + GetOffset(v.size).value;
    var d := if !v.testMode then "2" else v.time[1..2];
    PaintGlyph(screen, timeSegments[1].value, hc, wOffset, d);
    if v.colonOn {
      PaintGlyph(screen, colon, hc, wOffset, ":");
    }
    assert screen.log == painted + DigitPlots(v, 1, ds[1]) + (if v.colonOn then ColonPlots(v, 1, colon) else []);
    AppendAssoc(old(screen.log), if Shown(v, 0) then DigitPlots(v, 0, ds[0]) else [],
      DigitPlots(v, 1, ds[1]), if v.colonOn then ColonPlots(v, 1, colon) else []);
  }

  method PaintMinutes(screen: Screen, v: View, timeSegments: seq<Option<seq<Cell>>>, ghost ds: seq<seq<Cell>>,
                      hc: int, w0: int)
    returns (wOffset: int)
    requires Drawable(v) && hc == Top(v) && w0 == GlyphBase(v, 1)
    requires |timeSegments| == 6 && |ds| == 6
    requires forall j :: 0 <= j < 6 ==> timeSegments[j] == Some(ds[j])
    modifies screen`log, screen`pairs
    ensures screen.log == old(screen.log) + MinutePlots(v, ds)
    ensures screen.pairs == old(screen.pairs)
    ensures wOffset == GlyphBase(v, 3)
  {
    var sizeOffset := GetOffset(v.size).value;
    wOffset := w0 + sizeOffset + 1;
    var d := if !v.testMode then "3" else v.time[2..3];
    PaintGlyph(screen, timeSegments[2].value, hc, wOffset, d);
    wOffset := wOffset + sizeOffset;
    d := if !v.testMode then "4" else v.time[3..4];
    PaintGlyph(screen, timeSegments[3].value, hc, wOffset, d);
  }

  method PaintSeconds(screen: Screen, v: View, timeSegments: seq<Option<seq<Cell>>>, ghost ds: seq<seq<Cell>>,
                      colon: seq<Cell>, hc: int, w0: int)
    returns (wOffset: int)
    requires Drawable(v) && hc == Top(v) && w0 == GlyphBase(v, 3)
    requires |timeSegments| == 6 && |ds| == 6
    requires forall j :: 0 <= j < 6 ==> timeSegments[j] == Some(ds[j])
    modifies screen`log, screen`pairs
    ensures screen.log == old(screen.log) + SecondPlots(v, ds, colon)
    ensures screen.pairs == old(screen.pairs)
    ensures wOffset == RightEdge(v)
  {
    var sizeOffset := GetOffset(v.size).value;
    wOffset := w0;
    if v.showSeconds {
      if v.colonOn {
        PaintGlyph(screen, colon, hc, wOffset, ":");
      }
      ghost var colonPart := if v.colonOn then ColonPlots(v, 3, colon) else [];
      assert screen.log == old(screen.log) + colonPart;
      wOffset := wOffset + sizeOffset + 1;
      var d := if !v.testMode then "5" else v.time[4..5];
      assert wOffset == GlyphBase(v, 4) && d == GlyphText(v, 4);
      PaintGlyph(screen, timeSegments[4].value, hc, wOffset, d);
      wOffset := wOffset + sizeOffset;
      d := if !v.testMode then "6" else v.time[5..];
      assert v.time[5..] == v.time[5..6];
      assert wOffset == GlyphBase(v, 5) && d == GlyphText(v, 5);
      PaintGlyph(screen, timeSegments[5].value, hc, wOffset, d);
      wOffset := wOffset + sizeOffset;
      AppendAssoc(old(screen.log), colonPart, DigitPlots(v, 4, ds[4]), DigitPlots(v, 5, ds[5]));
    } else {
      wOffset := wOffset + sizeOffset;
    }
  }
}
