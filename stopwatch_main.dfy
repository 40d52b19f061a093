/**
 * main_stopwatch as a whole: the start-up size check, then the `while True`
 * loop whose passes run the resize check, the redraw step and the key step
 * on a StopWatch. Start-up uses the resize chain's minimums (see
 * Stopwatch.StartChainStatusRow for what the start-up chain as written
 * allows).
 */
module StopwatchMain {
  import opened Wrappers
  import opened Glyphs
  import opened Colors
  import opened Terminal
  import opened Render
  import opened Sizing
  import opened ClockState
  import opened ClockMain
  import opened Stopwatch
  import opened Fit

  /** What one pass of the loop reads: the terminal's new (width, height)
      when it was resized, the timer's time for the redraw test, the key
      (NO_KEY for none), and the timer's time that 'h' reads before the
      reset. */
  datatype Pass = Pass(resized: Option<(nat, nat)>, reading: string, key: int, resetReading: string)

  predicate SoundPass(pass: Pass)
  {
    IsTimeString(pass.reading) && IsTimeString(pass.resetReading)
  }

  /** The pass ends the loop: a resize to a too-small terminal, or q or Q. */
  predicate PassStops(pass: Pass)
  {
    (pass.resized.Some? && Classify(StopwatchResizeMinimums, pass.resized.value.0, pass.resized.value.1).Failure?) ||
    pass.key == KEY_Q || pass.key == KEY_LOWER_Q
  }

  /** main_stopwatch up to its loop: read the terminal's size with
      getmaxyx, choose the text size, failing when the terminal is too
      small, and set up the loop's variables; `reading` is the timer's first
      time string. The status line of the watch it returns is on the screen. */
  method StartStopwatch(autoStart: bool, color: Colour, bgColor: Colour, testMode: bool,
                        screen: Screen, reading: string) returns (r: Result<StopWatch, string>)
    requires IsTimeString(reading)
    ensures r.Success? <==> Classify(StopwatchResizeMinimums, screen.cols, screen.rows).Success?
    ensures r.Failure? ==> r.error == TooSmall
    ensures r.Success? ==>
      fresh(r.value) && r.value.Valid() && r.value.State() == Begin(autoStart, color) &&
      r.value.textSize == Classify(StopwatchResizeMinimums, screen.cols, screen.rows).value &&
      r.value.sizeX == screen.cols && r.value.sizeY == screen.rows && r.value.displayTime == reading &&
      r.value.timerCalls == [] && r.value.bgColor == bgColor && r.value.testMode == testMode &&
      Classify(StopwatchResizeMinimums, r.value.sizeX, r.value.sizeY) == Success(r.value.textSize) &&
      0 <= StatusLine(r.value.CurrentView())[0].row
  {
    var sizeY, sizeX := screen.rows, screen.cols;
    var chosen := Classify(StopwatchResizeMinimums, sizeX, sizeY);
    if chosen.Failure? {
      return Failure(chosen.error);
    }
    var watch := new StopWatch(autoStart, color, bgColor, testMode, chosen.value, sizeX, sizeY, reading);
    BeginConsistent(autoStart, color);
    ResizeChainStatusRow(watch.State(), reading, sizeX, sizeY, testMode, bgColor);
    return Success(watch);
  }

  /** What a repaint of the loop shows is on the screen: the status line
      and the face, whose text size the loop keeps the one the resize chain
      chose for the recorded size (`WatchTick`, `RunWatch`). */
  lemma RepaintOnScreen(w: Watch, time: string, size: Size, sizeX: int, sizeY: int,
                        testMode: bool, bgColor: Colour, p: Plot)
    requires IsTimeString(time) && Classify(StopwatchResizeMinimums, sizeX, sizeY) == Success(size)
    ensures var v := WatchView(w, time, size, sizeX, sizeY, testMode, bgColor);
      0 <= StatusLine(v)[0].row && StatusLine(v)[0].row + 2 == Top(v) &&
      (p in Face(v) ==> 0 <= p.row < sizeY - 1 && 0 <= p.col < sizeX)
  {
    var v := WatchView(w, time, size, sizeX, sizeY, testMode, bgColor);
    ResizeChainStatusRow(w, time, sizeX, sizeY, testMode, bgColor);
    if p in Face(v) {
      ChosenFaceOnScreen(StopwatchResizeMinimums, v, p);
    }
  }

  /** One pass of the loop: the resize check, the redraw step and the key
      step. Returns how the loop ends, if it does. The watch's recorded size
      is the screen's size before and after the pass. */
  method WatchTick(watch: StopWatch, screen: Screen, pass: Pass) returns (exit: Option<LoopExit>)
    requires watch.Valid() && SoundPass(pass)
    requires screen.rows == watch.sizeY && screen.cols == watch.sizeX
    requires Classify(StopwatchResizeMinimums, watch.sizeX, watch.sizeY) == Success(watch.textSize)
    modifies watch, screen
    ensures exit.Some? <==> PassStops(pass)
    ensures pass.resized.Some? && Classify(StopwatchResizeMinimums, pass.resized.value.0, pass.resized.value.1).Failure?
      ==> exit == Some(Raised(TooSmall))
    ensures exit.None? ==> watch.Valid()
    ensures exit.None? ==> Classify(StopwatchResizeMinimums, watch.sizeX, watch.sizeY) == Success(watch.textSize)
    ensures screen.rows == watch.sizeY && screen.cols == watch.sizeX
    ensures (screen.cols, screen.rows) ==
      if pass.resized.Some? then pass.resized.value else (old(screen.cols), old(screen.rows))
  {
    if pass.resized.Some? {
      screen.ChangeSize(pass.resized.value.1, pass.resized.value.0);
      var r := watch.Resize(screen);
      if r.Failure? {
        return Some(Raised(r.error));
      }
    }
    watch.Refresh(screen, pass.reading);
    WatchQuitKeys(watch.State(), pass.key);
    var quit := watch.HandleKey(screen, pass.key, pass.resetReading);
    if quit {
      return Some(Broke);
    }
    return None;
  }

  /** The `while True` loop over a sequence of passes: it stops at the
      first pass that ends it, or when the passes run out. */
  method RunWatch(watch: StopWatch, screen: Screen, passes: seq<Pass>) returns (exit: Option<LoopExit>, steps: nat)
    requires watch.Valid()
    requires forall i :: 0 <= i < |passes| ==> SoundPass(passes[i])
    requires screen.rows == watch.sizeY && screen.cols == watch.sizeX
    requires Classify(StopwatchResizeMinimums, watch.sizeX, watch.sizeY) == Success(watch.textSize)
    modifies watch, screen
    ensures screen.rows == watch.sizeY && screen.cols == watch.sizeX
    ensures steps <= |passes|
    ensures exit.None? ==> steps == |passes| && watch.Valid()
    ensures exit.None? ==> Classify(StopwatchResizeMinimums, watch.sizeX, watch.sizeY) == Success(watch.textSize)
    ensures exit.Some? ==> 0 < steps && PassStops(passes[steps - 1])
    ensures forall i :: 0 <= i < steps && (exit.None? || i < steps - 1) ==> !PassStops(passes[i])
  {
    exit, steps := None, 0;
    while steps < |passes|
      invariant steps <= |passes| && watch.Valid() && exit.None?
      invariant screen.rows == watch.sizeY && screen.cols == watch.sizeX
      invariant Classify(StopwatchResizeMinimums, watch.sizeX, watch.sizeY) == Success(watch.textSize)
      invariant forall i :: 0 <= i < steps ==> !PassStops(passes[i])
    {
      exit := WatchTick(watch, screen, passes[steps]);
      steps := steps + 1;
      if exit.Some? {
        return;
      }
    }
  }
}
