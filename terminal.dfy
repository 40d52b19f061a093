/**
 * The terminal as the renderer sees it: a screen of some size that records
 * the `addstr` calls made since it was last cleared, and the colour pairs
 * defined with `init_pair`. fill_background paints it.
 */
module Terminal {

  /** One addstr call: text at (row, col) in colour pair `pair`. */
  datatype Plot = Plot(row: int, col: int, text: string, pair: int)

  class Screen {
    /** getmaxyx(): the number of rows and columns. */
    var rows: nat
    var cols: nat
    /** Colour pair number -> (foreground, background). */
    var pairs: map<int, (string, string)>
    /** The addstr calls since the last clear, in order. */
    var log: seq<Plot>

    constructor (rows: nat, cols: nat)
      ensures this.rows == rows && this.cols == cols
      ensures pairs == map[] && log == []
    {
      this.rows, this.cols := rows, cols;
      pairs, log := map[], [];
    }

    /** curses.init_pair */
    method InitPair(n: int, fg: string, bg: string)
      modifies this`pairs
      ensures pairs == old(pairs)[n := (fg, bg)] && log == old(log)
    {
      pairs := pairs[n := (fg, bg)];
    }

    /** screen.addstr */
    method AddStr(y: int, x: int, text: string, pair: int)
      modifies this`log
      ensures log == old(log) + [Plot(y, x, text, pair)] && pairs == old(pairs)
    {
      log := log + [Plot(y, x, text, pair)];
    }

    /** screen.clear */
    method Clear()
      modifies this`log
      ensures log == [] && pairs == old(pairs)
    {
      log := [];
    }

    /** The user resizes the terminal: getmaxyx() reports the new size
        from now on; what was painted is kept. */
    method ChangeSize(rows: nat, cols: nat)
      modifies this`rows, this`cols
      ensures this.rows == rows && this.cols == cols
      ensures log == old(log) && pairs == old(pairs)
    {
      this.rows, this.cols := rows, cols;
    }
  }

  /** One row of background cells: a blank in pair 3 at each column. */
  function BackgroundRow(y: int, width: nat): (r: seq<Plot>)
    ensures |r| == width
    ensures forall x :: 0 <= x < width ==> r[x] == Plot(y, x, " ", 3)
  {
    seq(width, x => Plot(y, x, " ", 3))
  }

  /** The background cells of rows 0..rows-1, row by row. */
  function Background(rows: int, width: nat): seq<Plot>
    decreases rows
  {
    if rows <= 0 then [] else Background(rows - 1, width) + BackgroundRow(rows - 1, width)
  }

  /** The background covers exactly the cells of rows 0..rows-1, with a
      blank in pair 3. */
  lemma {:induction false} BackgroundCells(rows: int, width: nat)
    ensures forall p: Plot :: p in Background(rows, width) <==>
              0 <= p.row < rows && 0 <= p.col < width && p.text == " " && p.pair == 3
  {
    if rows > 0 {
      BackgroundCells(rows - 1, width);
      forall p: Plot | 0 <= p.row < rows && 0 <= p.col < width && p.text == " " && p.pair == 3
        ensures p in Background(rows, width)
      {
        if p.row == rows - 1 {
          assert BackgroundRow(rows - 1, width)[p.col] == p;
        }
      }
    }
  }

  /** ... and paints each of them once. */
  lemma {:induction false} BackgroundSize(rows: nat, width: nat)
    ensures |Background(rows, width)| == rows * width
  {
    if rows > 0 {
      BackgroundSize(rows - 1, width);
      assert (rows - 1) * width + width == rows * width;
    }
  }

  /** fill_background: pair 3 becomes (bg, bg) and every cell of rows
      0..rows-2 gets a blank in pair 3, leaving the bottom row alone. */
  method FillBackground(screen: Screen, bgColor: string)
    modifies screen`log, screen`pairs
    ensures screen.pairs == old(screen.pairs)[3 := (bgColor, bgColor)]
    ensures screen.log == old(screen.log) + Background(screen.rows - 1, screen.cols)
  {
    screen.InitPair(3, bgColor, bgColor);
    var height: int, width := screen.rows, screen.cols;
    var y := 0;
    while y < height - 1
      invariant 0 <= y && (y <= height - 1 || y == 0)
      invariant screen.pairs == old(screen.pairs)[3 := (bgColor, bgColor)]
      invariant screen.log == old(screen.log) + Background(y, width)
    {
      var x := 0;
      while x < width
        invariant 0 <= x <= width
        invariant screen.pairs == old(screen.pairs)[3 := (bgColor, bgColor)]
        invariant screen.log == old(screen.log) + Background(y, width) + BackgroundRow(y, width)[..x]
      {
        screen.AddStr(y, x, " ", 3);
        x := x + 1;
      }
      y := y + 1;
    }
  }
}
