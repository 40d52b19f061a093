/**
 * main_clock: the clock's local variables as the fields of a `Clock`, and
 * the body of its `while True` loop as methods that update them. Each
 * method is proved to perform the step ClockState specifies.
 */
module ClockLoop {
  import opened Wrappers
  import opened Glyphs
  import opened Colors
  import opened Terminal
  import opened Render
  import opened Sizing
  import opened ClockState

  /** One reading of the clock (MyTime): strftime of the time and of the
      date, by format. */
  datatype Instant = Instant(time: string -> string, date: string -> string)

  /** A reading whose HHMMSS fields are six digits, as strftime gives them. */
  predicate Sound(now: Instant)
  {
    IsTimeString(now.time(Pattern(H24))) && IsTimeString(now.time(Pattern(H12)))
  }

  /** The AM/PM caption: none in 24-hour mode, strftime("%p") otherwise. */
  function AmPm(s: Options, now: Instant): string
  {
    if s.militaryTime then "" else now.time("%p")
  }

  /** The arguments main_clock passes to display after a redraw step. */
  function ClockView(s: Options, displayed: string, size: Size, sizeX: int, sizeY: int,
                     testMode: bool, now: Instant): View
    requires 0 <= s.cycleCount < |COLORS| && 0 <= s.datePointer < |DATE_FORMATS|
  {
    View(displayed, size, sizeX, sizeY, ColourName(DigitColor(s)), s.showSeconds, AmPm(s, now),
         s.showDate, s.colonOn, testMode, s.militaryTime, now.date(DATE_FORMATS[s.datePointer]),
         ColourName(s.bgColor), false, "")
  }

  class Clock {
    var staticColor: Colour
    var bgColor: Colour
    var showSeconds: bool
    var militaryTime: bool
    var timeFormat: TimeFormat
    var mode: int
    var cycleTiming: int
    var showDate: bool
    var datePointer: int
    var blinkColon: bool
    var colonOn: bool
    var cycleCount: int
    var updateScreen: bool
    /** The time string on the screen. */
    var displayed: string
    var textSize: Size
    var sizeX: int
    var sizeY: int
    const screensaver: bool
    const testMode: bool

    /** The settings the loop steps, as a value. */
    function Settings(): Options
      reads this
    {
      Options(staticColor, bgColor, showSeconds, militaryTime, timeFormat, mode, cycleTiming,
              showDate, datePointer, blinkColon, colonOn, cycleCount, updateScreen)
    }

    predicate Valid()
      reads this
    {
      ClockState.Valid(Settings()) && textSize != Other
    }

    /** The state after start-up, once the size check has passed. */
    constructor(args: Args, size: Size, sizeX: int, sizeY: int, now: Instant)
      ensures Settings() == Initial(args)
      ensures displayed == now.time(Pattern(Initial(args).timeFormat))
      ensures textSize == size && this.sizeX == sizeX && this.sizeY == sizeY
      ensures screensaver == args.screensaver && testMode == args.testMode
    {
      staticColor := args.color;
      showSeconds := args.showSeconds;
      militaryTime := args.militaryTime;
      mode := args.mode;
      cycleTiming := args.cycleTiming;
      showDate := args.showDate;
      blinkColon := args.blinkColon;
      bgColor := args.bgColor;
      updateScreen := true;
      screensaver := args.screensaver;
      testMode := args.testMode;
      textSize := size;
      this.sizeX := sizeX;
      this.sizeY := sizeY;
      timeFormat := if args.militaryTime then H24 else H12;
      datePointer := 0;
      colonOn := !args.noColon;
      cycleCount := 0;
      displayed := now.time(Pattern(if args.militaryTime then H24 else H12));
    }

    /** The redraw step of the loop: when a redraw is asked for or the time
        read differs from the one on the screen, read it, step the settings
        and call display; otherwise do nothing. */
    method Refresh(screen: Screen, now: Instant)
      requires Valid() && Sound(now)
      requires screen.rows == sizeY && screen.cols == sizeX
      modifies this`displayed, this`colonOn, this`cycleCount, this`updateScreen, screen`log, screen`pairs
      ensures Valid()
      ensures var reading := now.time(Pattern(old(timeFormat)));
        if old(updateScreen) || reading != old(displayed) then
          Settings() == Redraw(old(Settings()), old(displayed), reading) && displayed == reading &&
          var v := ClockView(Settings(), reading, textSize, sizeX, sizeY, testMode, now);
          screen.log == Painted(v) && screen.pairs == Coloured(old(screen.pairs), v)
        else
          Settings() == old(Settings()) && displayed == old(displayed) &&
          screen.log == old(screen.log) && screen.pairs == old(screen.pairs)
      ensures textSize == old(textSize) && sizeX == old(sizeX) && sizeY == old(sizeY)
    {
      var reading := now.time(Pattern(timeFormat));
      if updateScreen || reading != displayed {
        assert IsTimeString(reading);
        var color := Step(reading);
        var amPm := if militaryTime then "" else now.time("%p");
        var date := now.date(DATE_FORMATS[datePointer]);
        var v := View(displayed, textSize, sizeX, sizeY, ColourName(color), showSeconds, amPm, showDate,
                      colonOn, testMode, militaryTime, date, ColourName(bgColor), false, "");
        assert v == ClockView(Settings(), reading, textSize, sizeX, sizeY, testMode, now);
        Display(screen, v);
      }
    }

    /** The settings part of a redraw: record the time read, blink the
        colon, step the colour cycle and clear the request for a redraw.
        Returns the digit colour. */
    method Step(reading: string) returns (color: Colour)
      requires ClockState.Valid(Settings())
      modifies this`displayed, this`colonOn, this`cycleCount, this`updateScreen
      ensures Settings() == Redraw(old(Settings()), old(displayed), reading)
      ensures ClockState.Valid(Settings())
      ensures displayed == reading && color == DigitColor(Settings())
      ensures textSize == old(textSize) && sizeX == old(sizeX) && sizeY == old(sizeY)
    {
      ghost var before := Settings();
      var oldDisplayed := displayed;
      displayed := reading;
      if blinkColon {
        colonOn := !colonOn;
      }
      color := StepColor(oldDisplayed);
      updateScreen := false;
      RedrawEffect(before, oldDisplayed, reading);
    }

    /** The colour part of the redraw step: in mode 1 the cycle position may
        advance and picks the colour; otherwise the chosen colour. */
    method StepColor(oldDisplayed: string) returns (color: Colour)
      requires 0 <= mode <= 1 && 1 <= cycleTiming <= 3 && 0 <= cycleCount <= 6
      modifies this`cycleCount
      ensures cycleCount ==
        (if CycleAdvances(mode, cycleTiming, oldDisplayed, displayed) then NextCycle(old(cycleCount))
         else old(cycleCount))
      ensures 0 <= cycleCount <= 6
      ensures color == DigitColor(Settings())
    {
      if mode == 0 {
        color := staticColor;
      } else if mode == 1 {
        if cycleTiming == 1 {
          if cycleCount == 6 {
            cycleCount := 0;
          } else {
            cycleCount := cycleCount + 1;
          }
        } else if cycleTiming == 2 && Last2(displayed) == "00" {
          if cycleCount == 6 {
            cycleCount := 0;
          } else {
            cycleCount := cycleCount + 1;
          }
        } else if cycleTiming == 3 && First2(oldDisplayed) != First2(displayed) {
          if cycleCount == 6 {
            cycleCount := 0;
          } else {
            cycleCount := cycleCount + 1;
          }
        }
        color := COLORS[cycleCount];
      } else {
        color := staticColor;
      }
    }

    /** The terminal was resized: read its new size with getmaxyx, ask for
        a redraw and choose the text size again, failing as main_clock does
        when the terminal is too small. */
    method Resize(screen: Screen) returns (r: Result<Size, string>)
      requires Valid()
      modifies this`sizeX, this`sizeY, this`updateScreen, this`textSize
      ensures r == Classify(ClockMinimums, screen.cols, screen.rows)
      ensures sizeX == screen.cols && sizeY == screen.rows
      ensures Settings() == old(Settings()).(updateScreen := true)
      ensures displayed == old(displayed)
      ensures textSize == if r.Success? then r.value else old(textSize)
      ensures Valid()
    {
      sizeX, sizeY := screen.cols, screen.rows;
      updateScreen := true;
      r := ChooseSize();
    }

    /** The if/elif/else chain on the recorded size; the text size is left
        as it was when the terminal is too small. */
    method ChooseSize() returns (r: Result<Size, string>)
      requires textSize != Other
      modifies this`textSize
      ensures r == Classify(ClockMinimums, sizeX, sizeY)
      ensures textSize == if r.Success? then r.value else old(textSize)
      ensures textSize != Other
    {
      if sizeX >= 90 && sizeY >= 20 {
        textSize := Large;
        r := Success(Large);
      } else if sizeX >= 46 && sizeY >= 10 {
        textSize := Medium;
        r := Success(Medium);
      } else if sizeX >= 36 && sizeY >= 8 {
        textSize := Small;
        r := Success(Small);
      } else {
        r := Failure(TooSmall);
      }
    }

    /** The key step of the loop. Returns whether the loop breaks. */
    method HandleKey(ch: int) returns (quit: bool)
      requires Valid()
      modifies this
      ensures quit <==> OnKey(old(Settings()), ch, screensaver) == Quit
      ensures !quit ==> Settings() == OnKey(old(Settings()), ch, screensaver).next
      ensures displayed == old(displayed) && textSize == old(textSize)
      ensures sizeX == old(sizeX) && sizeY == old(sizeY)
      ensures !quit ==> Valid()
    {
      if screensaver && ch != NO_KEY {
        return true;
      }
      if ch == KEY_Q || ch == KEY_LOWER_Q {
        return true;
      }
      OnKeyPreservesValid(Settings(), ch, screensaver);
      ColourKey(ch);
      ToggleKey(ch);
      SettingKey(ch);
      TimingKey(ch);
      return false;
    }

    /** The colour keys and 'c'. */
    method ColourKey(ch: int)
      modifies this`staticColor, this`bgColor, this`mode, this`updateScreen
      ensures Settings() == ColourKeys(old(Settings()), ch)
    {
      ForegroundKey(ch);
      BackgroundKey(ch);
      ColourModeKey(ch);
    }

    method ForegroundKey(ch: int)
      modifies this`staticColor, this`updateScreen
      ensures Settings() == ForegroundKeys(old(Settings()), ch)
    {
      if mode == 0 && ch in CHAR_CODES_COLOR {
        staticColor := CHAR_CODES_COLOR[ch];
        updateScreen := true;
      }
    }

    method BackgroundKey(ch: int)
      modifies this`bgColor, this`updateScreen
      ensures Settings() == BackgroundKeys(old(Settings()), ch)
    {
      if ch in CHAR_CODES_COLOR_BG {
        bgColor := CHAR_CODES_COLOR_BG[ch];
        updateScreen := true;
      }
    }

    method ColourModeKey(ch: int)
      modifies this`mode, this`updateScreen
      ensures Settings() == ModeKeys(old(Settings()), ch)
    {
      if ch == KEY_C {
        if mode == 1 {
          mode := 0;
        } else {
          mode := mode + 1;
        }
        updateScreen := true;
      }
    }

    /** The keys '1', '2' and '3'. */
    method TimingKey(ch: int)
      modifies this`cycleTiming
      ensures Settings() == TimingKeys(old(Settings()), ch)
      ensures displayed == old(displayed) && textSize == old(textSize)
      ensures sizeX == old(sizeX) && sizeY == old(sizeY)
    {
      if ch == KEY_1 {
        cycleTiming := 1;
      } else if ch == KEY_2 {
        cycleTiming := 2;
      } else if ch == KEY_3 {
        cycleTiming := 3;
      }
    }

    /** The keys 's' and 'b'. */
    method ToggleKey(ch: int)
      modifies this`showSeconds, this`blinkColon, this`colonOn, this`updateScreen
      ensures Settings() == ToggleKeys(old(Settings()), ch)
      ensures displayed == old(displayed) && textSize == old(textSize)
      ensures sizeX == old(sizeX) && sizeY == old(sizeY)
    {
      if ch == KEY_S {
        showSeconds := !showSeconds;
        updateScreen := true;
      } else if ch == KEY_B {
        if blinkColon {
          blinkColon := false;
          colonOn := true;
        } else {
          blinkColon := true;
        }
      }
    }

    /** The keys 'm', 'e', 'E', 'd' and 'n'. */
    method SettingKey(ch: int)
      modifies this`timeFormat, this`militaryTime, this`showDate, this`datePointer, this`showSeconds,
               this`mode, this`staticColor, this`blinkColon, this`colonOn, this`bgColor, this`updateScreen
      ensures Settings() == SettingKeys(old(Settings()), ch)
      ensures displayed == old(displayed) && textSize == old(textSize)
      ensures sizeX == old(sizeX) && sizeY == old(sizeY)
    {
      if ch == KEY_M {
        ToggleMilitary();
      } else if ch == KEY_E {
        showDate := !showDate;
        updateScreen := true;
      } else if ch == KEY_UPPER_E && showDate {
        if datePointer == |DATE_FORMATS| - 1 {
          datePointer := 0;
        } else {
          datePointer := datePointer + 1;
        }
        updateScreen := true;
      } else if ch == KEY_D {
        RestoreDefaults();
      } else if ch == KEY_N {
        colonOn := !colonOn;
        blinkColon := false;
        updateScreen := true;
      }
    }
  
    /** The 'm' key: switch between 12- and 24-hour time. */
    method ToggleMilitary()
      modifies this`timeFormat, this`militaryTime, this`updateScreen
      ensures Settings() == SettingKeys(old(Settings()), KEY_M)
      ensures displayed == old(displayed) && textSize == old(textSize)
      ensures sizeX == old(sizeX) && sizeY == old(sizeY)
    {
      if militaryTime {
        timeFormat := H12;
        militaryTime := false;
      } else {
        timeFormat := H24;
        militaryTime := true;
      }
      updateScreen := true;
    }

    /** The 'd' key: restore the defaults. */
    method RestoreDefaults()
      modifies this`timeFormat, this`militaryTime, this`showDate, this`datePointer, this`showSeconds,
               this`mode, this`staticColor, this`blinkColon, this`colonOn, this`bgColor, this`updateScreen
      ensures Settings() == Defaults(old(Settings()))
      ensures displayed == old(displayed) && textSize == old(textSize)
      ensures sizeX == old(sizeX) && sizeY == old(sizeY)
    {
      ghost var s := Settings();
      RestoreTimeDefaults();
      RestoreColourDefaults();
      assert Settings() == Defaults(s);
    }

    /** The first half of 'd': 12-hour time with seconds, no date. */
    method RestoreTimeDefaults()
      modifies this`timeFormat, this`militaryTime, this`showDate, this`datePointer, this`showSeconds
      ensures Settings() == old(Settings()).(timeFormat := H12, militaryTime := false, showDate := false,
                                            datePointer := 0, showSeconds := true)
    {
      timeFormat := H12;
      militaryTime := false;
      showDate := false;
      datePointer := 0;
      showSeconds := true;
    }

    /** The second half of 'd': white digits on black, a steady colon, and
        a redraw. */
    method RestoreColourDefaults()
      modifies this`mode, this`staticColor, this`blinkColon, this`colonOn, this`bgColor, this`updateScreen
      ensures Settings() == old(Settings()).(mode := 0, staticColor := White, blinkColon := false,
                                            colonOn := true, bgColor := Black, updateScreen := true)
    {
      mode := 0;
      staticColor := White;
      blinkColon := false;
      colonOn := true;
      bgColor := Black;
      updateScreen := true;
    }
  }
}
