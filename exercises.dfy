/**
 * `exercise1(middle)` of exercises.cpp prints a symmetric triangle of '#'
 * lines. The model returns the printed lines, each without its line end.
 */
module Exercises {
  import CppInt

  /** A line of `n` '#' characters. */
  function Hashes(n: nat): (line: string)
    ensures |line| == n && forall k :: 0 <= k < n ==> line[k] == '#'
  {
    seq(n, _ => '#')
  }

  /** The width of line `k` of the figure with the given middle. */
  function Width(middle: int, k: int): nat
    requires 0 <= k < 2 * middle - 1
  {
    middle - CppInt.Abs(middle - 1 - k)
  }

  /**
   * The intended figure, written independently of the loops: `2*middle - 1`
   * lines whose widths rise by one up to `middle` and fall back to 1. With
   * `middle <= 0` only the middle line's line end is printed.
   */
  function Figure(middle: int): seq<string> {
    if middle <= 0 then [""]
    else seq(2 * middle - 1, k requires 0 <= k < 2 * middle - 1 => Hashes(Width(middle, k)))
  }

  method Exercise1(middle: int) returns (lines: seq<string>)
    ensures lines == Figure(middle)
  {
    lines := [];
    // rising part: lines of 1 .. middle-1 characters
    var i := 1;
    while i < middle
      invariant 1 <= i && (middle >= 1 ==> i <= middle) && (middle < 1 ==> i == 1)
      invariant |lines| == i - 1
      invariant forall k :: 0 <= k < |lines| ==> lines[k] == Hashes(k + 1)
    {
      var line := "";
      var j := 1;
      while j <= i
        invariant 1 <= j <= i + 1
        invariant line == Hashes(j - 1)
      {
        line := line + "#";
        j := j + 1;
      }
      lines := lines + [line];
      i := i + 1;
    }
    // the middle line
    var line := "";
    i := 0;
    while i < middle
      invariant 0 <= i && (middle >= 0 ==> i <= middle) && (middle < 0 ==> i == 0)
      invariant line == Hashes(i)
    {
      line := line + "#";
      i := i + 1;
    }
    ghost var top := |lines|;
    lines := lines + [line];
    // falling part: lines of middle-1 .. 1 characters
    i := middle - 1;
    while i > 0
      invariant middle >= 1 ==> 0 <= i <= middle - 1
      invariant middle <= 0 ==> i == middle - 1
      invariant top == (if middle >= 1 then middle - 1 else 0)
      invariant |lines| == top + 1 + (if middle >= 1 then middle - 1 - i else 0)
      invariant forall k :: 0 <= k < top ==> lines[k] == Hashes(k + 1)
      invariant lines[top] == Hashes(if middle >= 0 then middle else 0)
      invariant forall k :: top < k < |lines| ==> lines[k] == Hashes(2 * middle - 1 - k)
    {
      var down := "";
      var j := 1;
      while j <= i
        invariant 1 <= j <= i + 1
        invariant down == Hashes(j - 1)
      {
        down := down + "#";
        j := j + 1;
      }
      lines := lines + [down];
      i := i - 1;
    }
    assert |lines| == |Figure(middle)|;
    forall k | 0 <= k < |lines|
      ensures lines[k] == Figure(middle)[k]
    {
      if middle >= 1 {
        FigureAt(middle, k);
      }
    }
  }

  lemma FigureAt(middle: int, k: int)
    requires middle >= 1 && 0 <= k < 2 * middle - 1
    ensures Figure(middle)[k] == Hashes(Width(middle, k))
  {
  }

  /** For a positive middle there are exactly `2*middle - 1` lines. */
  lemma FigureLineCount(middle: int)
    ensures |Figure(middle)| == if middle >= 1 then 2 * middle - 1 else 1
  {
  }

  /** Line `k` (from 0) has `k+1` characters up to the middle line. */
  lemma FigureWidths(middle: int, k: int)
    requires middle >= 1 && 0 <= k < 2 * middle - 1
    ensures k < middle ==> Figure(middle)[k] == Hashes(k + 1)
    ensures k >= middle ==> Figure(middle)[k] == Hashes(2 * middle - 1 - k)
  {
    FigureAt(middle, k);
  }

  /** The figure reads the same from the bottom up. */
  lemma FigurePalindrome(middle: int, k: int)
    requires 0 <= k < |Figure(middle)|
    ensures Figure(middle)[k] == Figure(middle)[|Figure(middle)| - 1 - k]
  {
    if middle >= 1 {
      FigureAt(middle, k);
      FigureAt(middle, 2 * middle - 2 - k);
    }
  }

  /** The middle line is the longest, with `middle` characters. */
  lemma FigureWidest(middle: int, k: int)
    requires middle >= 1 && 0 <= k < |Figure(middle)|
    ensures |Figure(middle)[k]| <= |Figure(middle)[middle - 1]| == middle
  {
    FigureAt(middle, k);
    FigureAt(middle, middle - 1);
  }

  /** The figure in the comment at the head of exercises.cpp. */
  lemma FigureOfThree()
    ensures Figure(3) == ["#", "##", "###", "##", "#"]
  {
    var f := Figure(3);
    FigureLineCount(3);
    FigureAt(3, 0);
    FigureAt(3, 1);
    FigureAt(3, 2);
    FigureAt(3, 3);
    FigureAt(3, 4);
    assert Hashes(1) == "#" && Hashes(2) == "##" && Hashes(3) == "###";
  }
}
