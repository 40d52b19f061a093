/**
 * main_stopwatch: a stop watch drawn with the clock's display. Its state is
 * the phase shown on the status line, the `paused` flag and the digit
 * colour; the key step drives the timer (MyTime) with pause, unpause and
 * reset calls.
 */
module Stopwatch {
  import opened Wrappers
  import opened Glyphs
  import opened Colors
  import opened Terminal
  import opened Render
  import opened Sizing
  import opened ClockState

  const KEY_G := 103
  const KEY_H := 104

  /** The state shown on the status line. */
  datatype Phase = Running | Stopped | Paused

  /** The status line's word for the phase. */
  function StateName(p: Phase): string
  {
    match p
    case Running => "Running"
    case Stopped => "Stopped"
    case Paused => "Paused"
  }

  /** The status line names each phase by a different word. */
  lemma StateNamesDistinct(p: Phase, q: Phase)
    ensures StateName(p) == StateName(q) <==> p == q
  {
    if p != q {
      assert StateName(p)[0] != StateName(q)[0];
    }
  }

  /** The calls the key step makes on the timer. */
  datatype TimerCall = NoCall | Pause | Unpause | Reset

  /** The stop watch's own state. */
  datatype Watch = Watch(phase: Phase, paused: bool, digitColor: Colour, updateScreen: bool)

  /** The timer is paused exactly when the phase is not Running. */
  predicate Consistent(w: Watch)
  {
    w.paused <==> w.phase != Running
  }

  /** The state before the loop: running at once with --auto_start,
      otherwise stopped. */
  function Begin(autoStart: bool, color: Colour): Watch
  {
    if autoStart then Watch(Running, false, color, true) else Watch(Stopped, true, color, true)
  }

  /** The result of one key: leave the loop, or the next state, the call
      made on the timer, whether the time was read ('h') and whether the
      screen is painted at once (a colour key). */
  datatype WatchStep = Exit | Next(watch: Watch, call: TimerCall, readTime: bool, repaint: bool)

  /** The key step of main_stopwatch's loop. */
  function WatchKey(w: Watch, ch: int): WatchStep
  {
    if ch == KEY_Q || ch == KEY_LOWER_Q then Exit
    else
      var moved :=
        if ch == KEY_G then
          (if w.paused then w.(paused := false, phase := Running, updateScreen := true)
           else w.(paused := true, phase := Paused, updateScreen := true))
        else if ch == KEY_H then w.(updateScreen := true, paused := true, phase := Stopped)
        else w;
      var call :=
        if ch == KEY_G then (if w.paused then Unpause else Pause)
        else if ch == KEY_H then Reset
        else NoCall;
      if ch in CHAR_CODES_COLOR
      then Next(moved.(digitColor := CHAR_CODES_COLOR[ch]), call, ch == KEY_H, true)
      else Next(moved, call, ch == KEY_H, false)
  }

  /** The stop watch starts consistent, asking for a first redraw, paused
      unless started automatically. */
  lemma BeginConsistent(autoStart: bool, color: Colour)
    ensures Consistent(Begin(autoStart, color))
    ensures Begin(autoStart, color).updateScreen
    ensures Begin(autoStart, color).paused <==> !autoStart
    ensures Begin(autoStart, color).phase == (if autoStart then Running else Stopped)
  {
  }

  /** Every key keeps the state consistent. */
  lemma WatchKeyConsistent(w: Watch, ch: int)
    requires Consistent(w)
    ensures WatchKey(w, ch).Next? ==> Consistent(WatchKey(w, ch).watch)
  {
  }

  /** q and Q, and only they, leave the loop. */
  lemma WatchQuitKeys(w: Watch, ch: int)
    ensures WatchKey(w, ch) == Exit <==> ch == KEY_Q || ch == KEY_LOWER_Q
  {
  }

  /** 'g' starts a paused watch and pauses a running one, asking for a
      redraw and making the matching timer call. */
  lemma StartPauseKey(w: Watch)
    ensures var r := WatchKey(w, KEY_G);
      r.Next? && r.watch.updateScreen && r.watch.digitColor == w.digitColor &&
      !r.readTime && !r.repaint &&
      r.watch.paused == !w.paused &&
      (w.paused ==> r.watch.phase == Running && r.call == Unpause) &&
      (!w.paused ==> r.watch.phase == Paused && r.call == Pause)
  {
  }

  /** 'h' stops the watch, reads the time before resetting the timer and
      asks for a redraw. */
  lemma ResetKey(w: Watch)
    ensures var r := WatchKey(w, KEY_H);
      r == Next(Watch(Stopped, true, w.digitColor, true), Reset, true, false)
  {
  }

  /** Only the foreground colour keys change the digit colour, and they
      repaint at once; every other key keeps it. */
  lemma WatchColourKeys(w: Watch, ch: int)
    requires WatchKey(w, ch).Next?
    ensures WatchKey(w, ch).repaint <==> ch in CHAR_CODES_COLOR
    ensures ch in CHAR_CODES_COLOR ==> WatchKey(w, ch).watch.digitColor == CHAR_CODES_COLOR[ch]
    ensures ch !in CHAR_CODES_COLOR ==> WatchKey(w, ch).watch.digitColor == w.digitColor
  {
  }

  /** Keys other than q, Q, g, h and the foreground colour keys (the
      background colour keys among them) change nothing. */
  lemma WatchOtherKeys(w: Watch, ch: int)
    requires ch !in {KEY_Q, KEY_LOWER_Q, KEY_G, KEY_H} && ch !in CHAR_CODES_COLOR
    ensures WatchKey(w, ch) == Next(w, NoCall, false, false)
  {
  }

  /** The arguments main_stopwatch passes to display. */
  function WatchView(w: Watch, time: string, size: Size, sizeX: int, sizeY: int,
                     testMode: bool, bgColor: Colour): View
  {
    View(time, size, sizeX, sizeY, ColourName(w.digitColor), true, "", false, true, testMode, true, "",
         ColourName(bgColor), true, StateName(w.phase))
  }

  /** As written, the start-up chain accepts a terminal of 10 rows as
      medium, where display puts the status line on row -1, above the
      screen; only those terminals are affected. */
  lemma StartChainStatusRow(w: Watch, time: string, sizeX: int, sizeY: int, testMode: bool, bgColor: Colour)
    requires Classify(StopwatchStartMinimums, sizeX, sizeY).Success?
    ensures var v := WatchView(w, time, Classify(StopwatchStartMinimums, sizeX, sizeY).value,
                               sizeX, sizeY, testMode, bgColor);
      (StatusLine(v)[0].row < 0 <==> 46 <= sizeX && sizeY == 10) &&
      (sizeY == 10 && 46 <= sizeX ==> StatusLine(v)[0].row == -1)
  {
    var size := Classify(StopwatchStartMinimums, sizeX, sizeY).value;
    var v := WatchView(w, time, size, sizeX, sizeY, testMode, bgColor);
    if size == Large {
      assert BoxHeight(v) == 18;
    } else if size == Medium {
      assert BoxHeight(v) == 7;
    } else {
      assert BoxHeight(v) == 5;
    }
  }

  /** With the resize chain's minimums every accepted terminal has the
      status line on the screen: at or below the top row, two rows above
      the face, and within the width. */
  lemma ResizeChainStatusRow(w: Watch, time: string, sizeX: int, sizeY: int, testMode: bool, bgColor: Colour)
    requires Classify(StopwatchResizeMinimums, sizeX, sizeY).Success?
    ensures var v := WatchView(w, time, Classify(StopwatchResizeMinimums, sizeX, sizeY).value,
                               sizeX, sizeY, testMode, bgColor);
      var p := StatusLine(v)[0];
      0 <= p.row && p.row + 2 == Top(v) && 0 <= p.col && p.col + |p.text| <= sizeX
  {
    var size := Classify(StopwatchResizeMinimums, sizeX, sizeY).value;
    var v := WatchView(w, time, size, sizeX, sizeY, testMode, bgColor);
    if size == Large {
      assert BoxHeight(v) == 18;
    } else if size == Medium {
      assert BoxHeight(v) == 7;
    } else {
      assert BoxHeight(v) == 5;
    }
    assert |StateName(w.phase)| <= 7;
  }

  /** main_stopwatch's local variables as fields; `timerCalls` records the
      calls made on the timer. */
  class StopWatch {
    var phase: Phase
    var paused: bool
    var digitColor: Colour
    var updateScreen: bool
    /** The time string on the screen. */
    var displayTime: string
    var textSize: Size
    var sizeX: int
    var sizeY: int
    var timerCalls: seq<TimerCall>
    const bgColor: Colour
    const testMode: bool

    function State(): Watch
      reads this
    {
      Watch(phase, paused, digitColor, updateScreen)
    }

    function CurrentView(): View
      reads this
    {
      WatchView(State(), displayTime, textSize, sizeX, sizeY, testMode, bgColor)
    }

    predicate Valid()
      reads this
    {
      Consistent(State()) && textSize != Other && IsTimeString(displayTime)
    }

    /** The state before the loop, once the size check has passed;
        `reading` is the timer's first time string. */
    constructor(autoStart: bool, color: Colour, bgColor: Colour, testMode: bool,
                size: Size, sizeX: int, sizeY: int, reading: string)
      ensures State() == Begin(autoStart, color)
      ensures displayTime == reading && timerCalls == []
      ensures textSize == size && this.sizeX == sizeX && this.sizeY == sizeY
      ensures this.bgColor == bgColor && this.testMode == testMode
    {
      if autoStart {
        phase := Running;
        paused := false;
      } else {
        phase := Stopped;
        paused := true;
      }
      digitColor := color;
      updateScreen := true;
      displayTime := reading;
      timerCalls := [];
      textSize := size;
      this.sizeX := sizeX;
      this.sizeY := sizeY;
      this.bgColor := bgColor;
      this.testMode := testMode;
    }

    /** The terminal was resized: read its new size with getmaxyx, choose
        the text size with the resize chain, and repaint at once; fails as
        main_stopwatch does when the terminal is too small. */
    method Resize(screen: Screen) returns (r: Result<Size, string>)
      requires Valid()
      modifies this`sizeX, this`sizeY, this`textSize, screen`log, screen`pairs
      ensures r == Classify(StopwatchResizeMinimums, screen.cols, screen.rows)
      ensures sizeX == screen.cols && sizeY == screen.rows
      ensures textSize == if r.Success? then r.value else old(textSize)
      ensures State() == old(State()) && displayTime == old(displayTime)
      ensures timerCalls == old(timerCalls)
      ensures Valid()
      ensures r.Success? ==>
        screen.log == Painted(CurrentView()) && screen.pairs == Coloured(old(screen.pairs), CurrentView())
      ensures r.Failure? ==> screen.log == old(screen.log) && screen.pairs == old(screen.pairs)
    {
      sizeX, sizeY := screen.cols, screen.rows;
      r := ChooseSize();
      assert Valid();
      if r.Success? {
        Repaint(screen);
      }
    }

    /** The resize chain on the recorded size. */
    method ChooseSize() returns (r: Result<Size, string>)
      requires textSize != Other
      modifies this`textSize
      ensures r == Classify(StopwatchResizeMinimums, sizeX, sizeY)
      ensures textSize == if r.Success? then r.value else old(textSize)
      ensures textSize != Other
    {
      if sizeX >= 90 && sizeY >= 22 {
        textSize := Large;
        r := Success(Large);
      } else if sizeX >= 46 && sizeY >= 12 {
        textSize := Medium;
        r := Success(Medium);
      } else if sizeX >= 36 && sizeY >= 9 {
        textSize := Small;
        r := Success(Small);
      } else {
        r := Failure(TooSmall);
      }
    }

    /** The redraw step: when a redraw is asked for, or the watch runs and
        the timer's time differs from the one on the screen, show the
        timer's time. */
    method Refresh(screen: Screen, reading: string)
      requires Valid() && IsTimeString(reading)
      requires screen.rows == sizeY && screen.cols == sizeX
      modifies this, screen`log, screen`pairs
      ensures textSize == old(textSize) && sizeX == old(sizeX) && sizeY == old(sizeY)
      ensures Valid()
      ensures if old(updateScreen) || (!old(paused) && old(displayTime) != reading) then
          displayTime == reading && State() == old(State()).(updateScreen := false) &&
          screen.log == Painted(CurrentView()) && screen.pairs == Coloured(old(screen.pairs), CurrentView())
        else
          displayTime == old(displayTime) && State() == old(State()) &&
          screen.log == old(screen.log) && screen.pairs == old(screen.pairs)
      ensures timerCalls == old(timerCalls)
    {
      if updateScreen || (!paused && displayTime != reading) {
        displayTime := reading;
        updateScreen := false;
        Repaint(screen);
      }
    }

    /** The key step; `reading` is what the timer shows when 'h' reads it
        before the reset. Returns whether the loop breaks. */
    method HandleKey(screen: Screen, ch: int, reading: string) returns (quit: bool)
      requires Valid() && IsTimeString(reading)
      requires screen.rows == sizeY && screen.cols == sizeX
      modifies this, screen`log, screen`pairs
      ensures textSize == old(textSize) && sizeX == old(sizeX) && sizeY == old(sizeY)
      ensures quit <==> WatchKey(old(State()), ch) == Exit
      ensures quit ==> screen.log == old(screen.log) && screen.pairs == old(screen.pairs)
      ensures !quit ==> Valid()
      ensures !quit ==> var r := WatchKey(old(State()), ch);
        State() == r.watch &&
        timerCalls == old(timerCalls) + (if r.call == NoCall then [] else [r.call]) &&
        displayTime == (if r.readTime then reading else old(displayTime)) &&
        if r.repaint then
          screen.log == Painted(CurrentView()) && screen.pairs == Coloured(old(screen.pairs), CurrentView())
        else
          screen.log == old(screen.log) && screen.pairs == old(screen.pairs)
    {
      if ch == KEY_Q || ch == KEY_LOWER_Q {
        return true;
      }
      ghost var r := WatchKey(State(), ch);
      WatchKeyConsistent(State(), ch);
      TimerKey(ch, reading);
      assert State() == r.watch.(digitColor := old(digitColor));
      ColourKey(screen, ch);
      assert State() == r.watch;
      return false;
    }

    /** main_stopwatch's call of display with the watch's variables. */
    method Repaint(screen: Screen)
      requires textSize != Other && IsTimeString(displayTime)
      requires screen.rows == sizeY && screen.cols == sizeX
      modifies screen`log, screen`pairs
      ensures screen.log == Painted(CurrentView())
      ensures screen.pairs == Coloured(old(screen.pairs), CurrentView())
    {
      Display(screen, CurrentView());
    }

    /** A foreground colour key: the new digit colour, painted at once. */
    method ColourKey(screen: Screen, ch: int)
      requires textSize != Other && IsTimeString(displayTime)
      requires screen.rows == sizeY && screen.cols == sizeX
      modifies this`digitColor, screen`log, screen`pairs
      ensures digitColor == if ch in CHAR_CODES_COLOR then CHAR_CODES_COLOR[ch] else old(digitColor)
      ensures if ch in CHAR_CODES_COLOR then
          screen.log == Painted(CurrentView()) && screen.pairs == Coloured(old(screen.pairs), CurrentView())
        else
          screen.log == old(screen.log) && screen.pairs == old(screen.pairs)
    {
      if ch in CHAR_CODES_COLOR {
        digitColor := CHAR_CODES_COLOR[ch];
        Repaint(screen);
      }
    }

    /** The keys 'g' and 'h'. */
    method TimerKey(ch: int, reading: string)
      requires ch != KEY_Q && ch != KEY_LOWER_Q
      modifies this
      ensures var r := WatchKey(old(State()), ch);
        State() == r.watch.(digitColor := old(digitColor)) &&
        timerCalls == old(timerCalls) + (if r.call == NoCall then [] else [r.call]) &&
        displayTime == (if r.readTime then reading else old(displayTime))
      ensures textSize == old(textSize) && sizeX == old(sizeX) && sizeY == old(sizeY)
    {
      if ch == KEY_G {
        if paused {
          timerCalls := timerCalls + [Unpause];
          paused := false;
          phase := Running;
          updateScreen := true;
        } else {
          timerCalls := timerCalls + [Pause];
          paused := true;
          phase := Paused;
          updateScreen := true;
        }
      } else if ch == KEY_H {
        updateScreen := true;
        paused := true;
        phase := Stopped;
        displayTime := reading;
        timerCalls := timerCalls + [Reset];
      }
    }
  }
}
