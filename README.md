# ct_clock in Dafny

A model of `ct_clock.py`, a terminal seven-segment clock and stop watch
drawn with curses, together with proofs about it. The model covers:

- the glyph tables and lookups (`SmSeg`, `MedSeg`, `LrgSeg`, `get_segments`,
  `get_offset`, `get_space_size`);
- the choice of text size from the terminal's size, in `main_clock` and in
  `main_stopwatch`;
- `display` and `fill_background`, as the sequence of `addstr` calls they make;
- the `main_clock` loop: a redraw step, then a key step;
- the `main_stopwatch` loop;
- the `color_type` validator for colour names.

Modules, one per file:

| file | module | what it holds |
|---|---|---|
| wrappers.dfy | Wrappers | `Option` and `Result` |
| glyphs.dfy | Glyphs | segment tables, `GetSegments`, `GetOffset`, `GetSpaceSize`, table well-formedness, the seven-segment reference encoding |
| colors.dfy | Colors | the `Colour` type, `COLORS`, the key-code tables, `ColorType` |
| terminal.dfy | Terminal | `Screen`, which logs `addstr` calls and colour pairs and holds the size `getmaxyx` reports, and `FillBackground` |
| render.dfy | Render | `View` (the arguments of `display`), `Layout` (what `display` paints), and the `Display` method that paints it |
| fit.dfy | Fit | where the plots land: membership, boxes, disjointness, labels |
| sizing.dfy | Sizing | the three size-threshold chains and `Classify` |
| clock_state.dfy | ClockState | `main_clock`'s variables as a value; `OnKey` and `Redraw` as its specification |
| clock_loop.dfy | ClockLoop | class `Clock`: those variables as fields, and the loop body as methods proved against ClockState |
| clock_main.dfy | ClockMain | start-up, one pass of the loop, and the loop itself |
| stopwatch.dfy | Stopwatch | the stop watch state machine as a value (`WatchKey`), and class `StopWatch` |
| stopwatch_main.dfy | StopwatchMain | stop watch start-up, one pass, and the loop |

How the source's values are represented:

- A size string is `Size`: `Small`, `Medium`, `Large`, or `Other` for any other string.
- Python's `int(x / 2)` is `TruncHalf`, which truncates toward zero.
- The screen is a log of `Plot(row, col, text, pair)` records, with the size `getmaxyx` reports; a resize of the terminal changes that size.
- After `color_type` has accepted a colour, only the eight names of `COLORS` can occur. The model therefore holds a `Colour` and uses `ColourName` where the source uses the string.

## Model

| member | source | states |
|---|---|---|
| Glyphs.GetSegments | ct_clock.py:132-163 | returns cells exactly for the ten digits and ":"; any other string gives Python's implicit None |
| Glyphs.GlyphCells | ct_clock.py:141-163 | the if-chain over one table is defined exactly for the eleven glyph names |
| Glyphs.GetOffset | ct_clock.py:166-172 | defined exactly for the three sizes; the pitch is wider than a glyph (the values 5, 6 and 14 are stated in `Glyphs.LookupExamples`) |
| Glyphs.GetSpaceSize | ct_clock.py:175-186 | (0, 0) exactly for an unknown size; otherwise the height is the glyph height |
| Glyphs.DigitName | ct_clock.py:141-161 | every digit character names a glyph |
| Glyphs.TablesWellFormed | ct_clock.py:29-73 | in every table, each segment lies inside the glyph box and the colon lies in its gap column |
| Glyphs.DigitInBox | ct_clock.py:132-161 | every cell `get_segments` returns for a digit lies in the glyph box |
| Glyphs.ColonInGap | ct_clock.py:162-163 | the colon's cells lie in one column, past the glyph's width and before the next glyph's base |
| Glyphs.GlyphsFollowConvention | ct_clock.py:141-161 | in any table, each digit covers exactly the cells of the segments conventionally lit for it; the exception is "6", which covers those of a lower-case "b" (no top bar) |
| Glyphs.LookupExamples | ct_clock.py:132-186 | the values the unit tests check, and that an unknown size falls back to the small table |
| Colors.PaletteComplete | ct_clock.py:21 | COLORS holds each of the eight colours once, with black last |
| Colors.Named | ct_clock.py:511 | finds the colour with the given name, or none when no colour has that name |
| Colors.NamedInvertsName | ct_clock.py:21 | name and colour correspond one to one |
| Colors.KeyTablesCover | ct_clock.py:17-20 | every colour has a foreground key and a background key |
| Colors.KeyTablesDisjoint | ct_clock.py:17-20 | no key is in both colour tables or among the command keys |
| Colors.ForegroundTable | ct_clock.py:17-18 | the foreground keys are r t y u i o p [ |
| Colors.BackgroundTable | ct_clock.py:19-20 | the background keys are R T Y U I O P { |
| Colors.Lower | ct_clock.py:510 | lower-cases each character with `LowerChar`: the ASCII capitals, and the Kelvin sign to 'k' |
| Colors.LowerIdempotent | ct_clock.py:510 | lower-casing twice changes nothing more |
| Colors.NamesLowerCase | ct_clock.py:21 | every colour name is already lower case |
| Colors.ColorType | ct_clock.py:506-514 | accepts exactly the values whose lower-cased form names a colour, returning that colour; otherwise fails with "<value> is an invalid color name" |
| Colors.ColorTypeCaseInsensitive | ct_clock.py:506-514 | values equal up to case get the same verdict and colour; every colour's own name is accepted |
| Colors.ColorTypeRejects | ct_clock.py:506-514 | a value whose length and lower-cased first letter match no colour name is rejected, with the error message |
| Colors.ColorTypeAcceptsName | ct_clock.py:506-514 | a value that lower-cases to a colour's name yields that colour |
| Colors.ColorTypeAccepts | tests/argument_parsing_test.py:116-121 | "blue", "Yellow" and "GREEN" are accepted as blue, yellow and green |
| Colors.ColorTypeRejectsCases | tests/argument_parsing_test.py:124-129 | the six invalid names of the tests are rejected |
| Colors.ColorTypeKelvinSign | ct_clock.py:510-512 | "BLAC" followed by the Kelvin sign U+212A lower-cases to "black" and is accepted as black |
| Terminal.BackgroundRow | ct_clock.py:193-194 | one row of blanks in pair 3, one per column |
| Terminal.BackgroundCells | ct_clock.py:189-194 | the background covers exactly the cells of rows 0..rows-1, each a blank in pair 3 |
| Terminal.BackgroundSize | ct_clock.py:192-194 | the background paints rows × width cells, each once |
| Terminal.Screen.ChangeSize | ct_clock.py:363-364 | after a resize `getmaxyx` reports the new size; what was painted and the colour pairs are kept |
| Terminal.FillBackground | ct_clock.py:189-194 | pair 3 becomes (bg, bg); the log grows by the background of rows 0..height-2 of the size `getmaxyx` reports, leaving the bottom row alone |
| Render.TimeDigitIsGlyph | ct_clock.py:207-209 | each character of a six-digit time names a glyph, so every lookup in `display` succeeds |
| Render.TruncHalf | ct_clock.py:213-214 | Python's `int(n / 2)`: truncation toward zero, bounded on both sides |
| Render.GlyphPlots | ct_clock.py:222-223 | one plot per cell |
| Render.GlyphPlotsMember | ct_clock.py:222-223 | a glyph's plots are exactly its cells shifted to (hc, w_offset), with the glyph's text, in pair 1 |
| Render.TimeSegments | ct_clock.py:207-209 | six glyphs, one per digit |
| Render.SetColor | ct_clock.py:197-199 | pair 1 becomes (color, color) and pair 2 becomes (color, bg) |
| Render.PaintGlyph | ct_clock.py:222-223 | the loop over a glyph's cells appends exactly that glyph's plots |
| Render.SegmentTime | ct_clock.py:207-209 | the first loop of `display` looks up each of the six digits |
| Render.Display | ct_clock.py:202-262 | on a screen of the view's size, after `display` the screen holds `Painted(v)`: the background followed by the status line, the face and the captions; the pairs become `Coloured(old pairs, v)`: 1 is (color, color), 2 is (color, bg), 3 is (bg, bg) |
| Render.ClearToBackground | ct_clock.py:215-216 | after `clear` and `fill_background` the screen holds the background of the view's size alone; pair 3 is (bg, bg) |
| Render.PaintLayout | ct_clock.py:217-261 | after the background, the status line, then the face, then the captions |
| Render.PaintFace | ct_clock.py:220-253 | the running `w_offset` paints the hours, minutes and seconds and ends one pitch past the last glyph |
| Render.PaintHours | ct_clock.py:220-230 | the leading digit only when shown, the second digit, then the first colon when it is on |
| Render.PaintMinutes | ct_clock.py:231-238 | the third and fourth digits at their bases |
| Render.PaintSeconds | ct_clock.py:239-253 | with seconds shown: the colon (when on), then the fifth and sixth digits; without them, only the `w_offset` step |
| Render.PaintCaptions | ct_clock.py:254-261 | AM/PM and the date on the row below the face, then the three lines of the test-mode overlay |
| Fit.HourMembers | ct_clock.py:220-230 | a plot is among the hours exactly when it is a cell of a shown hour digit or of the shown first colon |
| Fit.MinuteMembers | ct_clock.py:231-238 | a plot is among the minutes exactly when it is a cell of digit 3 or 4 |
| Fit.SecondMembers | ct_clock.py:239-253 | a plot is among the seconds exactly when it is a cell of the shown second colon or a shown seconds digit |
| Fit.DigitPlotsMember | ct_clock.py:222-223 | a digit's plots are exactly its cells at that digit's place |
| Fit.ColonPlotsMember | ct_clock.py:228-230 | a colon's plots are exactly its cells at that glyph's place |
| Fit.FacePlotsMembers | ct_clock.py:220-253 | the face is exactly the shown digits and shown colons, each at its own place: nothing else is painted and nothing shown is left out |
| Fit.TimeSegmentsFit | ct_clock.py:207-209 | the cells looked up for a time keep to their glyph boxes, and the colon to its column |
| Fit.DigitCellsFit | ct_clock.py:208-209 | digit k's looked-up cells lie in the glyph box |
| Fit.ColonCellsFit | ct_clock.py:229 | the colon's cells lie in the colon column |
| Fit.DigitCellsInBox | ct_clock.py:208-209 | one cell of digit k lies in the glyph box |
| Fit.BasesApart | ct_clock.py:224-253 | no glyph starts left of `w_offset`; each glyph, and the colon column after it, ends before the next glyph's base; every shown glyph and shown colon ends within the face's width |
| Fit.FacePlotsInBox | ct_clock.py:211-253 | every plot of the face lies within rows hc..hc+height-1 and the face's width, in pair 1 |
| Fit.GlyphsDisjoint | ct_clock.py:220-253 | two different digits never paint the same column, nor do a digit and a colon, nor two different colons; so no cell is painted by two different glyphs |
| Fit.PaintedColours | ct_clock.py:189-261 | with the pairs `display` sets, the face shows in solid blocks of the digit colour, the background in solid blocks of the background colour, and the status line and captions in the digit colour on the background; every plot uses a pair that was set |
| Fit.BackgroundPair | ct_clock.py:194 | the background is written in pair 3 |
| Fit.FacePair | ct_clock.py:220-253 | the face is written in pair 1 |
| Fit.TextPairs | ct_clock.py:217-219 | the status line and the captions (ct_clock.py:254-261) are written in pair 2 |
| Fit.BasesFromLeft | ct_clock.py:224-251 | glyph bases increase from left to right |
| Fit.FaceInBox | ct_clock.py:211-253 | every plot of the face that `display` paints lies in the face's box |
| Fit.FaceOnScreen | ct_clock.py:347-354 | on a terminal that meets `main_clock`'s minimum for its size, every plot of the face is on the screen, above the bottom row |
| Fit.CentringOnScreen | ct_clock.py:213-214 | under `main_clock`'s minimums, hc and w_offset are not negative and the face's box ends above the bottom row and within the width |
| Fit.ChosenFaceOnScreen | ct_clock.py:347-354 | when the text size is the one `main_clock`'s chain or either stop-watch chain chose for the terminal, every plot of the face is on the screen, above the bottom row |
| Fit.ChosenSizeMeetsClock | ct_clock.py:277-298 | all three chains only pick a size whose `main_clock` minimum the terminal meets |
| Fit.FaceLabels | ct_clock.py:220-250 | outside test mode: the labels are "1".."6" and ":"; "1" appears only when the leading digit is shown, "5" and "6" only with seconds, ":" only with the colon on |
| Fit.LabelOf | ct_clock.py:221-248 | outside test mode, glyph k carries the label k+1 |
| Fit.FacePlotsTexts | ct_clock.py:220-250 | every plot of the face carries a shown glyph's text, or is a ":" painted with the colon on |
| Fit.TestModeTexts | ct_clock.py:220-250 | in test mode each glyph carries its own digit of the time |
| Sizing.ClassifyChoosesLargestFit | ct_clock.py:347-354 | the chain fails, with the too-small message, exactly when the smallest minimum is not met; otherwise it picks a size whose minimum is met, and no larger size's minimum is met |
| Sizing.ClassifyMonotone | ct_clock.py:366-373 | a larger terminal never gets a smaller size |
| Sizing.MinimumsOrdered | ct_clock.py:277-298 | all three threshold tables are ordered small ≤ medium ≤ large |
| Sizing.StopwatchChainsDiffer | ct_clock.py:277-298 | the stop watch's start-up and resize chains disagree exactly on terminals at least 46 wide and 10 or 11 high |
| ClockState.InitialValid | ct_clock.py:333-361 | the start-up state is valid: time format matching military time, pointer 0, cycle count 0, a redraw pending |
| ClockState.OnKeyPreservesValid | ct_clock.py:409-473 | every key keeps the settings valid |
| ClockState.DispatchValid | ct_clock.py:414-473 | the key chains after the quit tests keep the settings valid |
| ClockState.TimingKeysValid | ct_clock.py:468-473 | '1', '2' and '3' keep the settings valid |
| ClockState.ColourKeysValid | ct_clock.py:414-425 | the colour keys and 'c' keep the settings valid |
| ClockState.ToggleKeysValid | ct_clock.py:426-434 | 's' and 'b' keep the settings valid |
| ClockState.SettingKeysValid | ct_clock.py:435-467 | 'm', 'e', 'E', 'd' and 'n' keep the settings valid, in particular the `time_format` / `military_time` link |
| ClockState.DefaultsValid | ct_clock.py:452-463 | the defaults are valid |
| ClockState.QuitKeys | ct_clock.py:410-413 | the loop ends exactly on q or Q, or in screensaver mode on any key |
| ClockState.ModeKey | ct_clock.py:420-425 | 'c' flips the mode between 0 and 1 and asks for a redraw |
| ClockState.NegatingKeys | ct_clock.py:426-445 | 's' and 'e' negate `show_seconds` and `show_date` and ask for a redraw |
| ClockState.DateFormatKey | ct_clock.py:446-451 | 'E' moves to the next date format, wrapping after the last, only while the date is shown; otherwise nothing changes |
| ClockState.BlinkKey | ct_clock.py:429-434 | 'b' toggles blinking, forces the colon on when blinking stops, and does not ask for a redraw |
| ClockState.ColonKey | ct_clock.py:464-467 | 'n' toggles the colon, stops blinking and asks for a redraw |
| ClockState.MilitaryKey | ct_clock.py:435-442 | 'm' toggles military time, keeps `time_format` matching it, and asks for a redraw |
| ClockState.ColourKeysEffect | ct_clock.py:414-419 | a foreground key sets the digit colour only in mode 0; a background key always sets the background; both ask for a redraw |
| ClockState.PassThrough | ct_clock.py:426-473 | a key outside the command keys leaves the toggle, setting and timing chains untouched |
| ClockState.TimingKeysEffect | ct_clock.py:468-473 | '1', '2' and '3' set the cycle timing without asking for a redraw |
| ClockState.DefaultsKey | ct_clock.py:452-463 | 'd' restores the ten defaults and asks for a redraw; it leaves the cycle timing and cycle count unchanged |
| ClockState.OtherKeys | ct_clock.py:409-473 | any other key changes nothing |
| ClockState.Last2 | ct_clock.py:391 | Python's `s[-2:]`: the last two characters, or all of a shorter string |
| ClockState.First2 | ct_clock.py:396 | Python's `s[0:2]`: the first two characters, or all of a shorter string |
| ClockState.RedrawEffect | ct_clock.py:374-408 | a redraw flips the colon when blinking, advances the cycle (6 wraps to 0) exactly when `CycleAdvances`, clears the redraw request, and changes nothing else |
| ClockState.CycleNeverBlack | ct_clock.py:383-401 | in mode 1 the digit colour after a redraw is one of the first seven palette colours, never black |
| ClockState.RedrawsCount | ct_clock.py:374-403 | after n advancing redraws the cycle count is (count + n) mod 7, and a blinking colon has flipped n times |
| ClockState.CyclePeriod | ct_clock.py:374-403 | seven advancing redraws return to the same colour; two redraws return a blinking colon to where it was |
| ClockLoop.Clock.constructor | ct_clock.py:333-361 | the fields start as the start-up settings, and the displayed time is the first reading in the chosen format |
| ClockLoop.Clock.Refresh | ct_clock.py:374-408 | when a redraw is asked for or the time changed: the settings take the `Redraw` step, and the screen, whose size is the recorded one, holds `Painted` of that view with its pairs `Coloured` for it; otherwise neither the settings, the log nor the pairs change |
| ClockLoop.Clock.Step | ct_clock.py:375-403 | the settings become `Redraw(old, displayed, reading)`; returns the digit colour of the new settings |
| ClockLoop.Clock.StepColor | ct_clock.py:383-403 | the cycle count steps exactly when `CycleAdvances`; returns the digit colour |
| ClockLoop.Clock.Resize | ct_clock.py:363-373 | records the size the screen now reports, asks for a redraw, and returns the chain's verdict on it; the text size changes only on success |
| ClockLoop.Clock.ChooseSize | ct_clock.py:366-373 | the imperative chain agrees with `Classify(ClockMinimums, …)` |
| ClockLoop.Clock.HandleKey | ct_clock.py:409-473 | quits exactly when `OnKey` says Quit; otherwise the new settings are `OnKey`'s, and validity is kept |
| ClockLoop.Clock.ColourKey | ct_clock.py:414-425 | performs `ColourKeys` |
| ClockLoop.Clock.ForegroundKey | ct_clock.py:414-416 | performs `ForegroundKeys` |
| ClockLoop.Clock.BackgroundKey | ct_clock.py:417-419 | performs `BackgroundKeys` |
| ClockLoop.Clock.ColourModeKey | ct_clock.py:420-425 | performs `ModeKeys` |
| ClockLoop.Clock.TimingKey | ct_clock.py:468-473 | performs `TimingKeys` |
| ClockLoop.Clock.ToggleKey | ct_clock.py:426-434 | performs `ToggleKeys` |
| ClockLoop.Clock.SettingKey | ct_clock.py:435-467 | performs `SettingKeys` |
| ClockLoop.Clock.ToggleMilitary | ct_clock.py:435-442 | performs the 'm' case of `SettingKeys` |
| ClockLoop.Clock.RestoreDefaults | ct_clock.py:452-463 | performs `Defaults` |
| ClockLoop.Clock.RestoreTimeDefaults | ct_clock.py:453-457 | 12-hour time, no date, pointer 0, seconds on; nothing else changes |
| ClockLoop.Clock.RestoreColourDefaults | ct_clock.py:458-463 | mode 0, white on black, a steady colon, a redraw; nothing else changes |
| ClockMain.StartClock | ct_clock.py:332-361 | fails with the too-small message exactly when the chain does on the screen's size; otherwise a valid clock with the start-up settings, that size recorded, and as text size the chain's choice for it |
| ClockMain.Tick | ct_clock.py:362-473 | a pass ends the loop exactly on a too-small resize (raising) or a quitting key (break); otherwise the clock stays valid and its text size stays the chain's choice for its recorded size; a resize gives the screen its new size, and the recorded size is the screen's before and after |
| ClockMain.Run | ct_clock.py:362-476 | the loop stops at the first pass that ends it and at no earlier pass; the recorded size stays the screen's, and the text size the chain's choice for it |
| ClockMain.RedrawOnScreen | ct_clock.py:405-408 | the face a redraw of the loop paints, at a text size the chain chose for the recorded size, is on the screen above the bottom row |
| Stopwatch.StateNamesDistinct | ct_clock.py:270-323 | the status line names the three phases with three different words |
| Stopwatch.BeginConsistent | ct_clock.py:270-275 | the watch starts Running and unpaused with auto-start, otherwise Stopped and paused; a redraw is pending |
| Stopwatch.WatchKeyConsistent | ct_clock.py:306-329 | every key keeps "paused exactly when not Running" |
| Stopwatch.WatchQuitKeys | ct_clock.py:307-308 | q and Q, and only they, leave the loop |
| Stopwatch.StartPauseKey | ct_clock.py:309-319 | 'g' makes a paused watch Running with `unpause`, and a running one Paused with `pause`; it asks for a redraw |
| Stopwatch.ResetKey | ct_clock.py:320-325 | 'h' stops the watch, reads the time, resets the timer and asks for a redraw |
| Stopwatch.WatchColourKeys | ct_clock.py:326-329 | only the foreground colour keys change the digit colour, and they repaint at once |
| Stopwatch.WatchOtherKeys | ct_clock.py:306-329 | every other key, background colour keys included, changes nothing |
| Stopwatch.StartChainStatusRow | ct_clock.py:277-284 | as written, the status line falls above the screen exactly on terminals at least 46 wide and 10 high, at row -1 |
| Stopwatch.ResizeChainStatusRow | ct_clock.py:291-298 | under the resize chain the status line is on the screen: row ≥ 0, two rows above the face, within the width |
| Stopwatch.StopWatch.constructor | ct_clock.py:268-287 | the watch's fields start as `Begin`, with the first reading as the displayed time and no timer calls |
| Stopwatch.StopWatch.Resize | ct_clock.py:289-300 | records the size the screen now reports, takes the resize chain's verdict on it, and on success repaints at once at that size (`Painted` log, `Coloured` pairs); on failure neither the log nor the pairs change; the watch state is unchanged |
| Stopwatch.StopWatch.ChooseSize | ct_clock.py:291-298 | the imperative chain agrees with `Classify(StopwatchResizeMinimums, …)` |
| Stopwatch.StopWatch.Refresh | ct_clock.py:301-305 | redraws exactly when a redraw is asked for, or when the watch runs and the time changed; then the screen, whose size is the recorded one, holds `Painted` of the view with the new time, its pairs `Coloured` for it, and the request is cleared; otherwise neither the state, the log nor the pairs change |
| Stopwatch.StopWatch.HandleKey | ct_clock.py:306-329 | performs `WatchKey`: the new state, the timer call it makes, the time read by 'h', and the repaint of a colour key (`Painted` log, `Coloured` pairs); keys that do not repaint, and q/Q, leave the log and the pairs alone |
| Stopwatch.StopWatch.ColourKey | ct_clock.py:326-329 | a foreground colour key sets the digit colour and repaints, so pairs 1 and 2 take the new colour; other keys leave the colour, the log and the pairs alone |
| Stopwatch.StopWatch.Repaint | ct_clock.py:303-305 | `display` with the watch's variables: the log becomes `Painted` of the watch's view and the pairs `Coloured` for it |
| Stopwatch.StopWatch.TimerKey | ct_clock.py:309-325 | 'g' and 'h' as `WatchKey` describes them, with the timer call appended to the log |
| StopwatchMain.StartStopwatch | ct_clock.py:268-287 | fails with the too-small message exactly when the chain does on the screen's size; otherwise a valid watch in its `Begin` state, with that size recorded and as text size the chain's choice for it, whose status line is on the screen |
| StopwatchMain.WatchTick | ct_clock.py:289-329 | a pass ends the loop exactly on a too-small resize (raising) or q/Q (break); otherwise the watch stays valid and its text size stays the resize chain's choice for its recorded size; a resize gives the screen its new size, and the recorded size is the screen's before and after |
| StopwatchMain.RunWatch | ct_clock.py:288-329 | the loop stops at the first pass that ends it and at no earlier pass; the recorded size stays the screen's, and the text size the resize chain's choice for it |
| StopwatchMain.RepaintOnScreen | ct_clock.py:299-305 | at a text size the resize chain chose for the recorded size, a repaint's status line is at row 0 or below, two rows above the face, and the face is on the screen above the bottom row |

## Left out

- `MyTime` (ct_clock.py:76-129) and every time source are not modelled. `main_clock` reads an `Instant`, which gives the strftime result for each format. `main_stopwatch` reads plain time strings. The stop watch's `pause`, `unpause` and `reset` calls are kept as a log of `TimerCall`s.
- ClockLoop.Clock.Refresh: `main_clock` reads the time twice, once to test for a change (ct_clock.py:374) and once to store it (ct_clock.py:376). The model uses one reading for both, so a clock tick between the two reads is not modelled.
- Stopwatch.StopWatch.Refresh: the same double read (ct_clock.py:301-302) is modelled as one reading.
- curses is not modelled. In its place:
  - The screen is a log of `addstr` calls plus a map of colour pairs.
  - `CURSES_COLORS` (ct_clock.py:13-16) is not modelled; colour pairs hold colour names instead of curses colour numbers.
  - `curs_set`, `timeout`, `refresh` and the final `erase` (ct_clock.py:475-476) are not modelled.
  - `getch` and `is_term_resized` become inputs: a key code, and an optional new size, which `Screen.ChangeSize` gives the screen before `getmaxyx` is read.
  - No error that curses raises for a position off the window is modelled.
- `argument_parser`, `main`, `display_running_commands` and the prototype `ct-clock.py` are not modelled. `ClockState.ValidArgs` states only what argparse guarantees to `main_clock`.
- Colors.Lower: Python's `str.lower` applies the full Unicode case mapping. The model maps the ASCII capitals, and the Kelvin sign U+212A to 'k', and keeps every other character. Other non-ASCII capitals are therefore not lowered, and the case where lowering changes the length (U+0130 becomes two characters) is not modelled.
- Colors.ColorType: its verdict depends only on whether the lowered value is one of the eight ASCII colour names. The Kelvin sign is the one non-ASCII character whose lowering is an ASCII letter, so no verdict is affected by the gap in `Colors.Lower`. The model does not prove that Unicode fact. It returns the `Colour` rather than its name string; the string is `ColourName` of the result.
- `while True` is modelled over a finite sequence of passes (`ClockMain.Run`, `StopwatchMain.RunWatch`). The loop going on for ever is not modelled.
- ClockMain.Tick: its contract says when a pass ends the loop and that validity is kept. What each part of the pass does is stated by the `Clock` methods it calls.
- StopwatchMain.WatchTick: the same holds, with the `StopWatch` methods it calls.
- Python integers are unbounded, and so are Dafny's; there is no wrap-around to model.

## Findings

| source | as written | input that shows it | evidently intended | confidence | as-written member | corrected member |
|---|---|---|---|---|---|---|
| ct_clock.py:277-284 | at start-up the stop watch takes a terminal 10 rows high as medium (`size_y >= 10`) | a 46×10 terminal: the face is 7 rows high, so hc = int(3 / 2) = 1, and the status line (ct_clock.py:217-219) goes to row hc - 2 = -1, above the window | the resize chain's `size_y >= 12` (ct_clock.py:291-298), under which the status line is always on the screen | not executed | Stopwatch.StartChainStatusRow | StopwatchMain.StartStopwatch |

`StopwatchMain.StartStopwatch` uses the resize chain's minimums, and its contract states that the status line is at row 0 or below. `Stopwatch.ResizeChainStatusRow` proves this for every terminal that chain accepts. `Sizing.StopwatchChainsDiffer` shows that the two chains differ only on terminals 10 or 11 rows high, at least 46 wide. Of those, only a height of 10 puts the status line off the screen.
