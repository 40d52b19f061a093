/**
 * main_clock as a whole: the start-up size check, then the `while True`
 * loop whose passes run the resize check, the redraw step and the key step
 * on a Clock.
 */
module ClockMain {
  import opened Wrappers
  import opened Sizing
  import opened Terminal
  import opened ClockState
  import opened Glyphs
  import opened ClockLoop
  import opened Render
  import opened Fit

  /** What one pass of the loop reads: the time, the terminal's new
      (width, height) when it was resized, and the key (NO_KEY for none). */
  datatype Input = Input(now: Instant, resized: Option<(nat, nat)>, key: int)

  /** How the loop ends: by break, or by raising CTClockError. */
  datatype LoopExit = Broke | Raised(message: string)

  /** The pass ends the loop: a resize to a too-small terminal, or a key
      that quits. */
  predicate Stops(screensaver: bool, input: Input)
  {
    (input.resized.Some? && Classify(ClockMinimums, input.resized.value.0, input.resized.value.1).Failure?) ||
    (screensaver && input.key != NO_KEY) || input.key == KEY_Q || input.key == KEY_LOWER_Q
  }

  /** main_clock up to its loop: read the terminal's size with getmaxyx,
      choose the text size, failing when the terminal is too small, and set
      up the loop's variables. */
  method StartClock(args: Args, screen: Screen, now: Instant) returns (r: Result<Clock, string>)
    requires ValidArgs(args)
    ensures r.Success? <==> Classify(ClockMinimums, screen.cols, screen.rows).Success?
    ensures r.Failure? ==> r.error == TooSmall
    ensures r.Success? ==>
      fresh(r.value) && r.value.Valid() && r.value.Settings() == Initial(args) &&
      r.value.textSize == Classify(ClockMinimums, screen.cols, screen.rows).value &&
      r.value.sizeX == screen.cols && r.value.sizeY == screen.rows && r.value.screensaver == args.screensaver &&
      Classify(ClockMinimums, r.value.sizeX, r.value.sizeY) == Success(r.value.textSize)
  {
    var sizeY, sizeX := screen.rows, screen.cols;
    var chosen := Classify(ClockMinimums, sizeX, sizeY);
    if chosen.Failure? {
      return Failure(chosen.error);
    }
    var clock := new Clock(args, chosen.value, sizeX, sizeY, now);
    InitialValid(args);
    return Success(clock);
  }

  /** The face a redraw of the loop paints is on the screen, above the
      bottom row: the loop keeps the recorded text size the one the chain
      chose for the recorded size (`Tick`, `Run`). */
  lemma RedrawOnScreen(s: Options, reading: string, size: Size, sizeX: int, sizeY: int,
                       testMode: bool, now: Instant, p: Plot)
    requires ClockState.Valid(s) && IsTimeString(reading)
    requires Classify(ClockMinimums, sizeX, sizeY) == Success(size)
    requires p in Face(ClockView(s, reading, size, sizeX, sizeY, testMode, now))
    ensures 0 <= p.row < sizeY - 1 && 0 <= p.col < sizeX
  {
    ChosenFaceOnScreen(ClockMinimums, ClockView(s, reading, size, sizeX, sizeY, testMode, now), p);
  }

  /** One pass of the loop: the resize check, the redraw step and the
      key step. Returns how the loop ends, if it does. The clock's recorded
      size is the screen's size before and after the pass. */
  method Tick(clock: Clock, screen: Screen, input: Input) returns (exit: Option<LoopExit>)
    requires clock.Valid() && Sound(input.now)
    requires screen.rows == clock.sizeY && screen.cols == clock.sizeX
    requires Classify(ClockMinimums, clock.sizeX, clock.sizeY) == Success(clock.textSize)
    modifies clock, screen
    ensures exit.Some? <==> Stops(clock.screensaver, input)
    ensures input.resized.Some? && Classify(ClockMinimums, input.resized.value.0, input.resized.value.1).Failure?
      ==> exit == Some(Raised(TooSmall))
    ensures exit.None? ==> clock.Valid()
    ensures exit.None? ==> Classify(ClockMinimums, clock.sizeX, clock.sizeY) == Success(clock.textSize)
    ensures screen.rows == clock.sizeY && screen.cols == clock.sizeX
    ensures (screen.cols, screen.rows) ==
      if input.resized.Some? then input.resized.value else (old(screen.cols), old(screen.rows))
  {
    if input.resized.Some? {
      screen.ChangeSize(input.resized.value.1, input.resized.value.0);
      var r := clock.Resize(screen);
      if r.Failure? {
        return Some(Raised(r.error));
      }
    }
    clock.Refresh(screen, input.now);
    QuitKeys(clock.Settings(), input.key, clock.screensaver);
    var quit := clock.HandleKey(input.key);
    if quit {
      return Some(Broke);
    }
    return None;
  }

  /** The `while True` loop over a sequence of passes: it stops at the
      first pass that ends it, or when the passes run out. */
  method Run(clock: Clock, screen: Screen, inputs: seq<Input>) returns (exit: Option<LoopExit>, steps: nat)
    requires clock.Valid()
    requires forall i :: 0 <= i < |inputs| ==> Sound(inputs[i].now)
    requires screen.rows == clock.sizeY && screen.cols == clock.sizeX
    requires Classify(ClockMinimums, clock.sizeX, clock.sizeY) == Success(clock.textSize)
    modifies clock, screen
    ensures screen.rows == clock.sizeY && screen.cols == clock.sizeX
    ensures steps <= |inputs|
    ensures exit.None? ==> steps == |inputs| && clock.Valid()
    ensures exit.None? ==> Classify(ClockMinimums, clock.sizeX, clock.sizeY) == Success(clock.textSize)
    ensures exit.Some? ==> 0 < steps && Stops(clock.screensaver, inputs[steps - 1])
    ensures forall i :: 0 <= i < steps && (exit.None? || i < steps - 1) ==> !Stops(clock.screensaver, inputs[i])
  {
    exit, steps := None, 0;
    while steps < |inputs|
      invariant steps <= |inputs| && clock.Valid() && exit.None?
      invariant screen.rows == clock.sizeY && screen.cols == clock.sizeX
      invariant Classify(ClockMinimums, clock.sizeX, clock.sizeY) == Success(clock.textSize)
      invariant forall i :: 0 <= i < steps ==> !Stops(clock.screensaver, inputs[i])
    {
      exit := Tick(clock, screen, inputs[steps]);
      steps := steps + 1;
      if exit.Some? {
        return;
      }
    }
  }
}
