/**
 * Choosing the text size from the terminal's size. main_clock and
 * main_stopwatch each test three (width, height) minimums, largest size
 * first, and fail with CTClockError when even the smallest is not met.
 */
module Sizing {
  import opened Wrappers
  import opened Glyphs

  /** The message of the CTClockError raised for a too-small terminal. */
  const TooSmall := "Error screen / window is to small"

  /** A minimum terminal (width, height) for each size. */
  datatype Minimums = Minimums(large: (int, int), medium: (int, int), small: (int, int))

  /** main_clock, at start-up and on resize. */
  const ClockMinimums := Minimums((90, 20), (46, 10), (36, 8))

  /** main_stopwatch at start-up. */
  const StopwatchStartMinimums := Minimums((90, 22), (46, 10), (36, 9))

  /** main_stopwatch on resize. */
  const StopwatchResizeMinimums := Minimums((90, 22), (46, 12), (36, 9))

  function Minimum(m: Minimums, size: Size): (int, int)
    requires size != Other
  {
    match size
    case Large => m.large
    case Medium => m.medium
    case Small => m.small
  }

  /** The terminal meets the minimum of `size`. */
  predicate Meets(m: Minimums, size: Size, sizeX: int, sizeY: int)
    requires size != Other
  {
    sizeX >= Minimum(m, size).0 && sizeY >= Minimum(m, size).1
  }

  /** Sizes ranked small < medium < large. */
  function Rank(size: Size): int
  {
    match size
    case Small => 1
    case Medium => 2
    case Large => 3
    case Other => 0
  }

  /** Each size's minimum is at least the next smaller size's. */
  predicate Ordered(m: Minimums)
  {
    m.small.0 <= m.medium.0 <= m.large.0 && m.small.1 <= m.medium.1 <= m.large.1
  }

  /** The if/elif/else chain: the first size, largest first, whose minimum
      the terminal meets. */
  function Classify(m: Minimums, sizeX: int, sizeY: int): (r: Result<Size, string>)
  {
    if Meets(m, Large, sizeX, sizeY) then Success(Large)
    else if Meets(m, Medium, sizeX, sizeY) then Success(Medium)
    else if Meets(m, Small, sizeX, sizeY) then Success(Small)
    else Failure(TooSmall)
  }

  /** What the chain promises: it fails, with the too-small message, exactly
      when the smallest minimum is not met; otherwise its size is one whose
      minimum is met and no larger size's minimum is met. */
  lemma ClassifyChoosesLargestFit(m: Minimums, sizeX: int, sizeY: int)
    requires Ordered(m)
    ensures Classify(m, sizeX, sizeY).Failure? <==> !Meets(m, Small, sizeX, sizeY)
    ensures Classify(m, sizeX, sizeY).Failure? ==> Classify(m, sizeX, sizeY).error == TooSmall
    ensures Classify(m, sizeX, sizeY).Success? ==>
      var s := Classify(m, sizeX, sizeY).value;
      s != Other && Meets(m, s, sizeX, sizeY) &&
      forall t :: t != Other && Rank(t) > Rank(s) ==> !Meets(m, t, sizeX, sizeY)
  {
  }

  /** A larger terminal never gets a smaller size. */
  lemma ClassifyMonotone(m: Minimums, x0: int, y0: int, x1: int, y1: int)
    requires Ordered(m)
    requires x0 <= x1 && y0 <= y1
    ensures Classify(m, x0, y0).Success? ==>
      Classify(m, x1, y1).Success? && Rank(Classify(m, x0, y0).value) <= Rank(Classify(m, x1, y1).value)
  {
  }

  /** The three tables in the source are ordered. */
  lemma MinimumsOrdered()
    ensures Ordered(ClockMinimums)
    ensures Ordered(StopwatchStartMinimums)
    ensures Ordered(StopwatchResizeMinimums)
  {
  }

  /** The stop watch's start-up and resize chains disagree only on a
      terminal at least 46 columns wide and 10 or 11 rows high: start-up picks medium, resize
      falls back to small. */
  lemma StopwatchChainsDiffer(sizeX: int, sizeY: int)
    ensures Classify(StopwatchStartMinimums, sizeX, sizeY) != Classify(StopwatchResizeMinimums, sizeX, sizeY)
        <==> 46 <= sizeX && 10 <= sizeY < 12
  {
  }
}
