/**
 * main_clock's settings as a value, and the two ways its loop changes them:
 * a key press (`OnKey`) and a redraw (`Redraw`). The `Clock` class in
 * clock_loop.dfy performs these steps on its fields; this module is their
 * specification and holds what they preserve.
 */
module ClockState {
  import opened Wrappers
  import opened Colors

  /** The two strftime formats of the time: "%H%M%S" (24-hour) and
      "%I%M%S" (12-hour). */
  datatype TimeFormat = H24 | H12

  function Pattern(f: TimeFormat): string
  {
    match f
    case H24 => "%H%M%S"
    case H12 => "%I%M%S"
  }

  /** DATE_FORMATS: the strftime formats the date caption cycles through. */
  const DATE_FORMATS: seq<string> := ["%d/%m/%Y", "%m/%d/%Y", "%Y/%m/%d", "%Y/%d/%m"]

  /** The key codes main_clock reacts to, besides the colour keys. */
  const KEY_Q := 81
  const KEY_LOWER_Q := 113
  const KEY_C := 99
  const KEY_S := 115
  const KEY_B := 98
  const KEY_M := 109
  const KEY_E := 101
  const KEY_UPPER_E := 69
  const KEY_D := 100
  const KEY_N := 110
  const KEY_1 := 49
  const KEY_2 := 50
  const KEY_3 := 51

  /** getch's "no key pressed". */
  const NO_KEY := -1

  /** The local variables of main_clock that its loop reads and writes. */
  datatype Options = Options(
    staticColor: Colour, bgColor: Colour, showSeconds: bool, militaryTime: bool,
    timeFormat: TimeFormat, mode: int, cycleTiming: int, showDate: bool,
    datePointer: int, blinkColon: bool, colonOn: bool, cycleCount: int,
    updateScreen: bool)

  /** The command-line options main_clock reads. `showSeconds` is
      args.no_seconds, which store_false makes true unless -s is given. */
  datatype Args = Args(
    color: Colour, showSeconds: bool, militaryTime: bool, screensaver: bool,
    blinkColon: bool, noColon: bool, mode: int, cycleTiming: int,
    showDate: bool, bgColor: Colour, testMode: bool)

  /** What argparse guarantees: --mode and --cycle_timing are among their
      choices (the colours have passed color_type already). */
  predicate ValidArgs(a: Args)
  {
    0 <= a.mode <= 1 && 1 <= a.cycleTiming <= 3
  }

  /** The settings main_clock starts its loop with. */
  function Initial(a: Args): Options
  {
    Options(a.color, a.bgColor, a.showSeconds, a.militaryTime,
            if a.militaryTime then H24 else H12, a.mode, a.cycleTiming, a.showDate,
            0, a.blinkColon, !a.noColon, 0, true)
  }

  /** What the loop keeps true of its settings. */
  predicate Valid(s: Options)
  {
    0 <= s.mode <= 1 && 1 <= s.cycleTiming <= 3 &&
    0 <= s.datePointer < |DATE_FORMATS| && 0 <= s.cycleCount <= 6 &&
    (s.timeFormat == H24 <==> s.militaryTime)
  }

  lemma InitialValid(a: Args)
    requires ValidArgs(a)
    ensures Valid(Initial(a))
    ensures Initial(a).updateScreen && Initial(a).datePointer == 0 && Initial(a).cycleCount == 0
  {
  }

  /** The outcome of one key press: the loop breaks, or goes on with new settings. */
  datatype KeyResult = Quit | Continue(next: Options)

  /** One key press, as the chain of tests after getch makes it. */
  function OnKey(s: Options, ch: int, screensaver: bool): KeyResult
  {
    if screensaver && ch != NO_KEY then Quit
    else if ch == KEY_Q || ch == KEY_LOWER_Q then Quit
    else Continue(Dispatch(s, ch))
  }

  /** The key tests after the quit tests; each group is its own if/elif chain. */
  function Dispatch(s: Options, ch: int): Options
  {
    TimingKeys(SettingKeys(ToggleKeys(ColourKeys(s, ch), ch), ch), ch)
  }

  /** The three separate tests: foreground colour (mode 0 only),
      background colour, and 'c'. */
  function ColourKeys(s: Options, ch: int): Options
  {
    ModeKeys(BackgroundKeys(ForegroundKeys(s, ch), ch), ch)
  }

  function ForegroundKeys(s: Options, ch: int): Options
  {
    if s.mode == 0 && ch in CHAR_CODES_COLOR
    then s.(staticColor := CHAR_CODES_COLOR[ch], updateScreen := true) else s
  }

  function BackgroundKeys(s: Options, ch: int): Options
  {
    if ch in CHAR_CODES_COLOR_BG
    then s.(bgColor := CHAR_CODES_COLOR_BG[ch], updateScreen := true) else s
  }

  function ModeKeys(s: Options, ch: int): Options
  {
    if ch == KEY_C
    then s.(mode := if s.mode == 1 then 0 else s.mode + 1, updateScreen := true) else s
  }

  /** The chain `if s ... elif b`. */
  function ToggleKeys(s: Options, ch: int): Options
  {
    if ch == KEY_S then s.(showSeconds := !s.showSeconds, updateScreen := true)
    else if ch == KEY_B then
      (if s.blinkColon then s.(blinkColon := false, colonOn := true) else s.(blinkColon := true))
    else s
  }

  /** The chain `if m ... elif e ... elif E and show_date ... elif d ... elif n`. */
  function SettingKeys(s: Options, ch: int): Options
  {
    if ch == KEY_M then
      (if s.militaryTime then s.(timeFormat := H12, militaryTime := false, updateScreen := true)
       else s.(timeFormat := H24, militaryTime := true, updateScreen := true))
    else if ch == KEY_E then s.(showDate := !s.showDate, updateScreen := true)
    else if ch == KEY_UPPER_E && s.showDate then
      s.(datePointer := if s.datePointer == |DATE_FORMATS| - 1 then 0 else s.datePointer + 1,
         updateScreen := true)
    else if ch == KEY_D then Defaults(s)
    else if ch == KEY_N then s.(colonOn := !s.colonOn, blinkColon := false, updateScreen := true)
    else s
  }

  /** The chain `if 1 ... elif 2 ... elif 3`. */
  function TimingKeys(s: Options, ch: int): Options
  {
    if ch == KEY_1 then s.(cycleTiming := 1)
    else if ch == KEY_2 then s.(cycleTiming := 2)
    else if ch == KEY_3 then s.(cycleTiming := 3)
    else s
  }

  /** The 'd' key: ten settings back to their defaults, and a redraw. */
  function Defaults(s: Options): Options
  {
    s.(timeFormat := H12, militaryTime := false, showDate := false, datePointer := 0,
       showSeconds := true, mode := 0, staticColor := White, blinkColon := false,
       colonOn := true, bgColor := Black, updateScreen := true)
  }

  /** A key press keeps the settings valid. */
  lemma OnKeyPreservesValid(s: Options, ch: int, screensaver: bool)
    requires Valid(s)
    ensures OnKey(s, ch, screensaver).Continue? ==> Valid(OnKey(s, ch, screensaver).next)
  {
    if OnKey(s, ch, screensaver).Continue? {
      DispatchValid(s, ch);
    }
  }

  lemma DispatchValid(s: Options, ch: int)
    requires Valid(s)
    ensures Valid(Dispatch(s, ch))
  {
    var s1 := ColourKeys(s, ch);
    ColourKeysValid(s, ch);
    var s2 := ToggleKeys(s1, ch);
    ToggleKeysValid(s1, ch);
    var s3 := SettingKeys(s2, ch);
    SettingKeysValid(s2, ch);
    TimingKeysValid(s3, ch);
  }

  lemma TimingKeysValid(s: Options, ch: int)
    requires Valid(s)
    ensures Valid(TimingKeys(s, ch))
  {
    if ch != KEY_1 && ch != KEY_2 && ch != KEY_3 {
      assert TimingKeys(s, ch) == s;
    }
  }

  lemma ColourKeysValid(s: Options, ch: int)
    requires Valid(s)
    ensures Valid(ColourKeys(s, ch))
  {
  }

  lemma ToggleKeysValid(s: Options, ch: int)
    requires Valid(s)
    ensures Valid(ToggleKeys(s, ch))
  {
    if ch == KEY_S {
    } else if ch == KEY_B {
    } else {
      assert ToggleKeys(s, ch) == s;
    }
  }

  lemma SettingKeysValid(s: Options, ch: int)
    requires Valid(s)
    ensures Valid(SettingKeys(s, ch))
  {
    if ch == KEY_M {
    } else if ch == KEY_E {
    } else if ch == KEY_UPPER_E && s.showDate {
    } else if ch == KEY_D {
      DefaultsValid(s);
    } else if ch == KEY_N {
    } else {
      assert SettingKeys(s, ch) == s;
    }
  }

  lemma DefaultsValid(s: Options)
    requires Valid(s)
    ensures Valid(Defaults(s))
  {
  }

  /** The loop ends exactly on q or Q, or, as a screen saver, on any key. */
  lemma QuitKeys(s: Options, ch: int, screensaver: bool)
    ensures OnKey(s, ch, screensaver) == Quit <==>
      (screensaver && ch != NO_KEY) || ch == KEY_Q || ch == KEY_LOWER_Q
  {
  }

  /** 'c' flips the colour mode between 0 and 1 and redraws. */
  lemma ModeKey(s: Options)
    requires Valid(s)
    ensures OnKey(s, KEY_C, false) == Continue(s.(mode := 1 - s.mode, updateScreen := true))
  {
  }

  /** 's' and 'e' negate show_seconds and show_date and redraw. */
  lemma NegatingKeys(s: Options)
    ensures OnKey(s, KEY_S, false) == Continue(s.(showSeconds := !s.showSeconds, updateScreen := true))
    ensures OnKey(s, KEY_E, false) == Continue(s.(showDate := !s.showDate, updateScreen := true))
  {
  }

  /** 'E' moves to the next date format, wrapping after the last, but only
      while the date is shown; otherwise it changes nothing. */
  lemma DateFormatKey(s: Options)
    requires Valid(s)
    ensures s.showDate ==>
      OnKey(s, KEY_UPPER_E, false) ==
      Continue(s.(datePointer := (s.datePointer + 1) % |DATE_FORMATS|, updateScreen := true))
    ensures !s.showDate ==> OnKey(s, KEY_UPPER_E, false) == Continue(s)
  {
  }

  /** 'b' toggles blinking without asking for a redraw; turning blinking off
      leaves the colon on. */
  lemma BlinkKey(s: Options)
    ensures OnKey(s, KEY_B, false).Continue?
    ensures var t := OnKey(s, KEY_B, false).next;
      t.blinkColon == !s.blinkColon && t.updateScreen == s.updateScreen &&
      t.colonOn == (s.blinkColon || s.colonOn) &&
      t == s.(blinkColon := t.blinkColon, colonOn := t.colonOn)
  {
  }

  /** 'n' toggles the colon, stops blinking and redraws. */
  lemma ColonKey(s: Options)
    ensures OnKey(s, KEY_N, false) ==
      Continue(s.(colonOn := !s.colonOn, blinkColon := false, updateScreen := true))
  {
  }

  /** 'm' switches between 12- and 24-hour time and keeps the format in step. */
  lemma MilitaryKey(s: Options)
    requires Valid(s)
    ensures var t := OnKey(s, KEY_M, false).next;
      t.militaryTime == !s.militaryTime && (t.timeFormat == H24 <==> t.militaryTime) &&
      t == s.(militaryTime := t.militaryTime, timeFormat := t.timeFormat, updateScreen := true)
  {
  }

  /** A foreground colour key sets the digit colour only in mode 0; a
      background key always sets the background. */
  lemma ColourKeysEffect(s: Options, ch: int)
    ensures ch in CHAR_CODES_COLOR ==>
      OnKey(s, ch, false) ==
      Continue(if s.mode == 0 then s.(staticColor := CHAR_CODES_COLOR[ch], updateScreen := true) else s)
    ensures ch in CHAR_CODES_COLOR_BG ==>
      OnKey(s, ch, false) == Continue(s.(bgColor := CHAR_CODES_COLOR_BG[ch], updateScreen := true))
  {
    KeyTablesDisjoint();
    if ch in CHAR_CODES_COLOR || ch in CHAR_CODES_COLOR_BG {
      PassThrough(ColourKeys(s, ch), ch);
    }
  }

  /** A key outside the command keys goes through the toggle, setting and
      timing chains untouched. */
  lemma PassThrough(s: Options, ch: int)
    requires ch !in COMMAND_KEYS
    ensures TimingKeys(SettingKeys(ToggleKeys(s, ch), ch), ch) == s
  {
  }

  /** '1', '2' and '3' set the cycle timing and do not ask for a redraw. */
  lemma TimingKeysEffect(s: Options, ch: int)
    requires ch == KEY_1 || ch == KEY_2 || ch == KEY_3
    ensures OnKey(s, ch, false) == Continue(s.(cycleTiming := ch - KEY_1 + 1))
  {
  }

  /** 'd' restores the defaults and leaves the cycle timing and count alone. */
  lemma DefaultsKey(s: Options)
    requires Valid(s)
    ensures var t := OnKey(s, KEY_D, false).next;
      Valid(t) && !t.militaryTime && t.timeFormat == H12 && !t.showDate && t.datePointer == 0 &&
      t.showSeconds && t.mode == 0 && t.staticColor == White && !t.blinkColon && t.colonOn &&
      t.bgColor == Black && t.updateScreen &&
      t.cycleTiming == s.cycleTiming && t.cycleCount == s.cycleCount
  {
  }

  /** Any other key leaves every setting as it was. */
  lemma OtherKeys(s: Options, ch: int)
    requires ch != NO_KEY && ch !in COMMAND_KEYS && ch !in CHAR_CODES_COLOR && ch !in CHAR_CODES_COLOR_BG
    ensures OnKey(s, ch, false) == Continue(s)
  {
  }

  /** Python's s[-2:]: the last two characters, or all of a shorter string. */
  function Last2(s: string): (r: string)
    ensures |r| == if |s| < 2 then |s| else 2
    ensures s == s[..|s| - |r|] + r
  {
    if |s| < 2 then s else s[|s| - 2..]
  }

  /** Python's s[0:2]: the first two characters, or all of a shorter string. */
  function First2(s: string): (r: string)
    ensures |r| == if |s| < 2 then |s| else 2
    ensures s == r + s[|r|..]
  {
    if |s| < 2 then s else s[..2]
  }

  /** The cycle position after one step: 6 wraps to 0. */
  function NextCycle(n: int): int
  {
    if n == 6 then 0 else n + 1
  }

  /** Whether this redraw moves the colour cycle on: every redraw for
      timing 1, when the seconds read "00" for timing 2, when the hour field
      changed for timing 3. */
  predicate CycleAdvances(mode: int, timing: int, previous: string, current: string)
  {
    mode == 1 &&
    (timing == 1 ||
     (timing == 2 && Last2(current) == "00") ||
     (timing == 3 && First2(previous) != First2(current)))
  }

  /** One redraw's effect on the settings: the colon blinks, the colour
      cycle may advance, and the request for a redraw is cleared.
      `previous` is what was on the screen and `current` the time read now. */
  function Redraw(s: Options, previous: string, current: string): Options
  {
    var blinked := if s.blinkColon then s.(colonOn := !s.colonOn) else s;
    var cycled := if CycleAdvances(s.mode, s.cycleTiming, previous, current)
                  then blinked.(cycleCount := NextCycle(s.cycleCount)) else blinked;
    cycled.(updateScreen := false)
  }

  /** The digit colour a redraw paints with: the chosen colour, or in mode 1
      the colour at the cycle position. */
  function DigitColor(s: Options): Colour
    requires 0 <= s.cycleCount < |COLORS|
  {
    if s.mode == 1 then COLORS[s.cycleCount] else s.staticColor
  }

  /** What a redraw changes and what it keeps. */
  lemma RedrawEffect(s: Options, previous: string, current: string)
    requires Valid(s)
    ensures var t := Redraw(s, previous, current);
      Valid(t) && !t.updateScreen &&
      t.colonOn == (if s.blinkColon then !s.colonOn else s.colonOn) &&
      t.cycleCount == (if CycleAdvances(s.mode, s.cycleTiming, previous, current) then (s.cycleCount + 1) % 7 else s.cycleCount) &&
      t == s.(colonOn := t.colonOn, cycleCount := t.cycleCount, updateScreen := false)
  {
  }

  /** Colour cycling never paints the digits black on the (default black)
      background: the cycle stops short of the last palette entry. */
  lemma CycleNeverBlack(s: Options, previous: string, current: string)
    requires Valid(s) && s.mode == 1
    ensures DigitColor(Redraw(s, previous, current)) != Black
    ensures DigitColor(Redraw(s, previous, current)) in COLORS[..7]
  {
    var t := Redraw(s, previous, current);
    RedrawEffect(s, previous, current);
    assert DigitColor(t) == COLORS[..7][t.cycleCount];
  }

  /** `n` successive redraws with the same previous and current readings. */
  function Redraws(s: Options, previous: string, current: string, n: nat): Options
    decreases n
  {
    if n == 0 then s else Redraws(Redraw(s, previous, current), previous, current, n - 1)
  }

  lemma {:induction false} RedrawsCount(s: Options, previous: string, current: string, n: nat)
    requires Valid(s) && CycleAdvances(s.mode, s.cycleTiming, previous, current)
    ensures Valid(Redraws(s, previous, current, n))
    ensures Redraws(s, previous, current, n).blinkColon == s.blinkColon
    ensures Redraws(s, previous, current, n).cycleCount == (s.cycleCount + n) % 7
    ensures Redraws(s, previous, current, n).colonOn == (if s.blinkColon && n % 2 == 1 then !s.colonOn else s.colonOn)
    decreases n
  {
    if n > 0 {
      var t := Redraw(s, previous, current);
      AdvancingRedraw(s, previous, current);
      RedrawsCount(t, previous, current, n - 1);
      CountStep(s.cycleCount, n);
    }
  }

  /** One advancing redraw, as RedrawsCount uses it. */
  lemma AdvancingRedraw(s: Options, previous: string, current: string)
    requires Valid(s) && CycleAdvances(s.mode, s.cycleTiming, previous, current)
    ensures var t := Redraw(s, previous, current);
      Valid(t) && t.mode == s.mode && t.cycleTiming == s.cycleTiming &&
      t.blinkColon == s.blinkColon && t.cycleCount == (s.cycleCount + 1) % 7 &&
      t.colonOn == (if s.blinkColon then !s.colonOn else s.colonOn)
  {
    RedrawEffect(s, previous, current);
  }

  lemma CountStep(c: int, n: nat)
    requires 0 <= c <= 6 && n > 0
    ensures ((c + 1) % 7 + (n - 1)) % 7 == (c + n) % 7
    ensures (n - 1) % 2 == 1 <==> n % 2 == 0
  {
  }

  /** Every seven advancing redraws the cycle is back at its colour, and
      every two redraws a blinking colon is back as it was. */
  lemma CyclePeriod(s: Options, previous: string, current: string, n: nat)
    requires Valid(s) && CycleAdvances(s.mode, s.cycleTiming, previous, current)
    ensures Redraws(s, previous, current, n + 7).cycleCount == Redraws(s, previous, current, n).cycleCount
    ensures Redraws(s, previous, current, n + 2).colonOn == Redraws(s, previous, current, n).colonOn
  {
    RedrawsCount(s, previous, current, n);
    RedrawsCount(s, previous, current, n + 7);
    RedrawsCount(s, previous, current, n + 2);
    PeriodArith(s.cycleCount, n);
  }

  lemma PeriodArith(c: int, n: nat)
    ensures (c + (n + 7)) % 7 == (c + n) % 7
    ensures (n + 2) % 2 == 1 <==> n % 2 == 1
  {
  }
}
