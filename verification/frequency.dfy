/**
 Frequency-mode rendering: the bin buffer is cut into lines of 32 bins, each
 bin is attenuated by a per-index divisor, and each line is plotted at its own
 vertical offset. `cx` and `cy` are the canvas centre (half its width/height).
 */
module Frequency {
  import opened Canvas
  import opened LineCount

  /** Length of the transition between the margins and the middle (`transitionLength`). */
  const TransitionLength: nat := 3

  /** `frequenciesPerLine / 4`, exact because 32 is a multiple of 4. */
  const Quarter: nat := FreqsPerLine / 4

  /** `3 * (frequenciesPerLine / 4)`. */
  const ThreeQuarters: nat := 3 * Quarter

  /** Index 0 of every line is skipped, so a line has 31 points. */
  const PointsPerLine: nat := FreqsPerLine - 1

  // ---------------------------------------------------------------------------
  // The attenuation divisor in closed form

  /** The margins, attenuated ten times more than the middle. */
  predicate InMargin(j: int)
  {
    j < 8 || j > 24
  }

  /** The extra factor of the two transition windows, 8..11 and 21..24; 1 elsewhere. */
  function RampFactor(j: int): real
  {
    if 8 <= j <= 11 then 5.0 / (j - 7) as real
    else if 21 <= j <= 24 then 5.0 / (25 - j) as real
    else 1.0
  }

  /** The whole divisor applied to bin `j` of a line. */
  function Divisor(j: int, intensity: real): (d: real)
    requires intensity > 0.0
    ensures d >= intensity
  {
    (if InMargin(j) then 10.0 * intensity else intensity) * RampFactor(j)
  }

  /** The divisor as a multiple of the intensity: 10, 5, 5/2, 5/3, 5/4 or 1. */
  function Weight(j: int): real
  {
    (if InMargin(j) then 10.0 else 1.0) * RampFactor(j)
  }

  lemma DivisorIsWeighted(j: int, intensity: real)
    requires intensity > 0.0
    ensures Divisor(j, intensity) == intensity * Weight(j)
  {
  }

  /**
   The two transition windows: the left factor falls strictly from 5 to 5/4,
   the right one rises strictly from 5/4 to 5, the windows are disjoint, and
   between them only the intensity divides.
   */
  lemma RampShape(intensity: real)
    requires intensity > 0.0
    ensures RampFactor(8) == 5.0 && RampFactor(11) == 1.25
    ensures RampFactor(21) == 1.25 && RampFactor(24) == 5.0
    ensures forall j, k :: 8 <= j < k <= 11 ==> RampFactor(j) > RampFactor(k)
    ensures forall j, k :: 21 <= j < k <= 24 ==> RampFactor(j) < RampFactor(k)
    ensures forall j :: 12 <= j <= 20 ==> Divisor(j, intensity) == intensity
    ensures forall j :: InMargin(j) ==> Divisor(j, intensity) == 10.0 * intensity
    ensures forall j :: RampFactor(j) != 1.0 ==> !InMargin(j) && (j <= 11 <==> !(21 <= j))
  {
    forall j, k | 8 <= j < k <= 11
      ensures RampFactor(j) > RampFactor(k)
    {
      assert 0.0 < (j - 7) as real < (k - 7) as real;
      QuotientStrictlyAntitone(5.0, (k - 7) as real, (j - 7) as real);
    }
    forall j, k | 21 <= j < k <= 24
      ensures RampFactor(j) < RampFactor(k)
    {
      QuotientStrictlyAntitone(5.0, (25 - j) as real, (25 - k) as real);
    }
  }

  /** The divisor is mirror-symmetric about the centre of the line: j and 32 - j match. */
  lemma DivisorSymmetric(j: int, intensity: real)
    requires 1 <= j <= 31 && intensity > 0.0
    ensures Divisor(j, intensity) == Divisor(FreqsPerLine - j, intensity)
  {
  }

  /**
   The attenuation profile of a line: the divisor never grows from the left
   edge to the centre (index 16) and never shrinks from the centre to the
   right edge.
   */
  lemma DivisorProfile(j: int, k: int, intensity: real)
    requires intensity > 0.0
    ensures 1 <= j <= k <= 16 ==> Divisor(j, intensity) >= Divisor(k, intensity)
    ensures 16 <= j <= k <= 31 ==> Divisor(j, intensity) <= Divisor(k, intensity)
  {
    DivisorIsWeighted(j, intensity);
    DivisorIsWeighted(k, intensity);
    if 1 <= j <= k <= 16 {
      assert Weight(j) >= Weight(k);
    }
    if 16 <= j <= k <= 31 {
      assert Weight(j) <= Weight(k);
    }
  }

  /**
   How far a bin moves its point from the line's offset: never negative, at
   most `s / intensity`, and exactly `s / (10 * intensity)` in the margins.
   */
  lemma DisplacementBound(s: byte, j: int, intensity: real)
    requires intensity > 0.0
    ensures 0.0 <= s as real / Divisor(j, intensity) <= s as real / intensity <= 255.0 / intensity
    ensures InMargin(j) ==> s as real / Divisor(j, intensity) == s as real / (10.0 * intensity)
  {
    QuotientAntitone(s as real, Divisor(j, intensity), intensity);
    QuotientMonotone(s as real, 255.0, intensity);
  }

  // ---------------------------------------------------------------------------
  // Geometry of one frame

  /** The x of bin `j`: a quarter of the width in, then `j / 32` of half the width. */
  function PointX(j: int, cx: real): real
  {
    cx / 2.0 + (j as real) * cx / 32.0
  }

  /** The vertical offset of line `i`. */
  function LineOffset(i: int, cy: real): real
  {
    cy / 2.0 + (i as real) * cy / 50.0
  }

  /** The point plotted for bin `j` holding sample `s`. */
  function FrequencyPoint(s: byte, j: int, yOffset: real, intensity: real, invert: int, cx: real): Point
    requires intensity > 0.0
  {
    Point(PointX(j, cx), yOffset - s as real / Divisor(j, intensity) * invert as real)
  }

  /** The 31 points of one line, from its 32 bins (bin 0 is skipped). */
  function FrequencyLine(group: seq<byte>, yOffset: real, intensity: real, invert: int, cx: real): seq<Point>
    requires |group| == FreqsPerLine && intensity > 0.0
  {
    seq(PointsPerLine, k requires 0 <= k < PointsPerLine =>
      FrequencyPoint(group[k + 1], k + 1, yOffset, intensity, invert, cx))
  }

  /** The bins of line `i`: the `i`-th run of 32 consecutive samples. */
  function Group(data: seq<byte>, i: nat): seq<byte>
    requires (i + 1) * FreqsPerLine <= |data|
  {
    data[i * FreqsPerLine .. (i + 1) * FreqsPerLine]
  }

  /** Line `i < lineAmount` reads only inside the buffer: bins `i * 32` to `i * 32 + 31`. */
  lemma GroupInBounds(i: nat, lineAmount: nat, bufferLength: nat)
    requires i < lineAmount && lineAmount * FreqsPerLine <= bufferLength
    ensures (i + 1) * FreqsPerLine <= bufferLength
    ensures i * FreqsPerLine + (FreqsPerLine - 1) < bufferLength
  {
  }

  /** All lines of a frame, in increasing `i`; samples past `lineAmount * 32` are unused. */
  function FrequencyLines(data: seq<byte>, lineAmount: nat, intensity: real, invert: int, cx: real, cy: real): seq<seq<Point>>
    requires lineAmount * FreqsPerLine <= |data| && intensity > 0.0
  {
    seq(lineAmount, i requires 0 <= i < lineAmount =>
      GroupInBounds(i, lineAmount, |data|);
      FrequencyLine(Group(data, i), LineOffset(i, cy), intensity, invert, cx))
  }

  // ---------------------------------------------------------------------------
  // The script's loops

  /** Copy the buffer into `lineAmount` arrays of 32 bins (`lineArray`). */
  method SplitIntoLines(data: seq<byte>, lineAmount: nat) returns (lineArray: seq<seq<byte>>)
    requires lineAmount * FreqsPerLine <= |data|
    ensures |lineArray| == lineAmount
    ensures forall i :: 0 <= i < lineAmount ==> |lineArray[i]| == FreqsPerLine
    ensures forall i, j :: 0 <= i < lineAmount && 0 <= j < FreqsPerLine ==> lineArray[i][j] == data[i * FreqsPerLine + j]
  {
    lineArray := [];
    var i := 0;
    while i < lineAmount
      invariant 0 <= i <= lineAmount
      invariant |lineArray| == i
      invariant forall a :: 0 <= a < i ==> |lineArray[a]| == FreqsPerLine
      invariant forall a, b :: 0 <= a < i && 0 <= b < FreqsPerLine ==> lineArray[a][b] == data[a * FreqsPerLine + b]
    {
      GroupInBounds(i, lineAmount, |data|);
      var line: seq<byte> := [];
      var j := 0;
      while j < FreqsPerLine
        invariant 0 <= j <= FreqsPerLine
        invariant |line| == j
        invariant forall b :: 0 <= b < j ==> line[b] == data[i * FreqsPerLine + b]
      {
        line := line + [data[i * FreqsPerLine + j]];
        j := j + 1;
      }
      lineArray := lineArray + [line];
      i := i + 1;
    }
  }

  /**
   Plot one line the way the script does: divide by the margin or middle
   divisor, then by `5 / counterUp` across the left transition and by
   `5 / counterDown` across the right one. The counters follow a closed form,
   and the points equal the closed-form line.
   */
  method DrawFrequencyLine(group: seq<byte>, yOffset: real, intensity: real, invert: int, cx: real)
    returns (line: seq<Point>)
    requires |group| == FreqsPerLine && intensity > 0.0
    ensures line == FrequencyLine(group, yOffset, intensity, invert, cx)
  {
    line := [];
    var counterUp := 1;
    var counterDown := TransitionLength + 1;
    var j := 1;
    while j < FreqsPerLine
      invariant 1 <= j <= FreqsPerLine
      invariant counterUp == (if j <= 8 then 1 else if j <= 12 then j - 7 else 5)
      invariant counterDown == (if j <= 21 then 4 else if j <= 25 then 25 - j else 0)
      invariant 1 <= counterUp <= 5 && 0 <= counterDown <= 4
      invariant |line| == j - 1
      invariant forall k :: 0 <= k < j - 1 ==> line[k] == FrequencyPoint(group[k + 1], k + 1, yOffset, intensity, invert, cx)
    {
      ghost var up, down := counterUp, counterDown;
      var frequency := group[j] as real;
      // divide by the margin factor of `Divisor` (10 * intensity) ...
      if j < Quarter || j > ThreeQuarters {
        frequency := frequency / (10.0 * intensity);
      }
      // ... or by its middle factor (intensity)
      else {
        frequency := frequency / intensity;
      }
      // left ramp of `RampFactor`: counterUp runs 1..4 over bins 8..11
      if j >= Quarter && j <= Quarter + TransitionLength {
        frequency := frequency / (5.0 / counterUp as real);
        counterUp := counterUp + 1;
      }
      // right ramp of `RampFactor`: counterDown runs 4..1 over bins 21..24
      if j >= ThreeQuarters - TransitionLength && j <= ThreeQuarters {
        frequency := frequency / (5.0 / counterDown as real);
        counterDown := counterDown - 1;
      }
      StepMatchesDivisor(group[j] as real, j, up, down, intensity, frequency);
      var p := Point(cx / 2.0 + (j as real) * cx / 32.0, yOffset - frequency * invert as real);
      PointFromQuotient(group[j], j, yOffset, intensity, invert, cx, frequency);
      line := line + [p];
      j := j + 1;
    }
  }

  lemma PointFromQuotient(s: byte, j: int, yOffset: real, intensity: real, invert: int, cx: real, frequency: real)
    requires intensity > 0.0 && frequency == s as real / Divisor(j, intensity)
    ensures Point(cx / 2.0 + (j as real) * cx / 32.0, yOffset - frequency * invert as real)
         == FrequencyPoint(s, j, yOffset, intensity, invert, cx)
  {
  }

  /** With the counters at their closed-form values, the loop body divides by `Divisor`. */
  lemma StepMatchesDivisor(s: real, j: int, counterUp: int, counterDown: int, intensity: real, frequency: real)
    requires 1 <= j < FreqsPerLine && intensity > 0.0
    requires counterUp == (if j <= 8 then 1 else if j <= 12 then j - 7 else 5)
    requires counterDown == (if j <= 21 then 4 else if j <= 25 then 25 - j else 0)
    requires 8 <= j <= 11 ==> frequency == s / intensity / (5.0 / counterUp as real)
    requires 21 <= j <= 24 ==> frequency == s / intensity / (5.0 / counterDown as real)
    requires InMargin(j) ==> frequency == s / (10.0 * intensity)
    requires 12 <= j <= 20 ==> frequency == s / intensity
    ensures frequency == s / Divisor(j, intensity)
  {
    if 8 <= j <= 11 {
      DivideTwice(s, intensity, 5.0 / counterUp as real);
    } else if 21 <= j <= 24 {
      DivideTwice(s, intensity, 5.0 / counterDown as real);
    }
  }

  /** The whole frequency-mode frame: split the buffer, then plot every line. */
  method RenderFrequencyData(data: seq<byte>, lineAmount: nat, intensity: real, invert: int, cx: real, cy: real)
    returns (lines: seq<seq<Point>>)
    requires lineAmount * FreqsPerLine <= |data| && intensity > 0.0
    ensures lines == FrequencyLines(data, lineAmount, intensity, invert, cx, cy)
  {
    var lineArray := SplitIntoLines(data, lineAmount);
    lines := [];
    var i := 0;
    while i < lineAmount
      invariant 0 <= i <= lineAmount
      invariant |lines| == i
      invariant forall a :: 0 <= a < i ==> lines[a] == FrequencyLine(Group(data, a), LineOffset(a, cy), intensity, invert, cx)
    {
      var yOffset := cy / 2.0 + (i as real) * cy / 50.0;
      GroupInBounds(i, lineAmount, |data|);
      assert lineArray[i] == Group(data, i);
      var line := DrawFrequencyLine(lineArray[i], yOffset, intensity, invert, cx);
      lines := lines + [line];
      i := i + 1;
    }
  }

  // ---------------------------------------------------------------------------
  // Properties of a frame

  /**
   Each line has 31 points; with a positive width they run strictly left to
   right and stay inside the middle half of the canvas, `cx/2 < x < 3cx/2`.
   */
  lemma LineGeometry(group: seq<byte>, yOffset: real, intensity: real, invert: int, cx: real)
    requires |group| == FreqsPerLine && intensity > 0.0
    ensures |FrequencyLine(group, yOffset, intensity, invert, cx)| == PointsPerLine
    ensures cx > 0.0 ==> StrictlyIncreasingX(FrequencyLine(group, yOffset, intensity, invert, cx))
    ensures cx > 0.0 ==> forall k :: 0 <= k < PointsPerLine ==>
      cx / 2.0 < FrequencyLine(group, yOffset, intensity, invert, cx)[k].x < 3.0 * cx / 2.0
  {
    var line := FrequencyLine(group, yOffset, intensity, invert, cx);
    if cx > 0.0 {
      forall a, b | 0 <= a < b < |line|
        ensures line[a].x < line[b].x
      {
        PointXIncreasing(a + 1, b + 1, cx);
      }
      forall k | 0 <= k < PointsPerLine
        ensures cx / 2.0 < line[k].x < 3.0 * cx / 2.0
      {
        assert 0.0 < (k + 1) as real * cx < 32.0 * cx;
      }
    }
  }

  /**
   Each point lies within `s / intensity` of its line's offset, on the side
   `invert` selects, and within `s / (10 * intensity)` in the margins.
   */
  lemma LineDisplacement(group: seq<byte>, yOffset: real, intensity: real, invert: int, cx: real, k: nat)
    requires |group| == FreqsPerLine && intensity > 0.0 && k < PointsPerLine
    requires invert == 1 || invert == -1
    ensures var p := FrequencyLine(group, yOffset, intensity, invert, cx)[k];
      && (invert == 1 ==> yOffset - group[k + 1] as real / intensity <= p.y <= yOffset)
      && (invert == -1 ==> yOffset <= p.y <= yOffset + group[k + 1] as real / intensity)
      && (InMargin(k + 1) ==> p.y == yOffset - group[k + 1] as real / (10.0 * intensity) * invert as real)
  {
    DisplacementBound(group[k + 1], k + 1, intensity);
  }

  /** Flipping the sign mirrors every point about its line's offset, x unchanged. */
  lemma InvertMirrors(group: seq<byte>, yOffset: real, intensity: real, invert: int, cx: real)
    requires |group| == FreqsPerLine && intensity > 0.0
    ensures var line := FrequencyLine(group, yOffset, intensity, invert, cx);
      var flipped := FrequencyLine(group, yOffset, intensity, invert * -1, cx);
      && |flipped| == |line|
      && forall k :: 0 <= k < |line| ==> flipped[k].x == line[k].x && flipped[k].y - yOffset == yOffset - line[k].y
  {
  }

  lemma PointXIncreasing(j: int, k: int, cx: real)
    requires j < k && cx > 0.0
    ensures PointX(j, cx) < PointX(k, cx)
  {
    assert (j as real) * cx < (k as real) * cx;
    assert (j as real) * cx / 32.0 < (k as real) * cx / 32.0;
  }

  /** Line offsets grow strictly with the line index when the canvas has height. */
  lemma OffsetsIncrease(i: int, k: int, cy: real)
    requires i < k && cy > 0.0
    ensures LineOffset(i, cy) < LineOffset(k, cy)
  {
    assert (i as real) * cy < (k as real) * cy;
  }

  /**
   A point depends on nothing but its own bin: two buffers that agree at
   `data[i * 32 + j]` give the same point `j` on line `i`.
   */
  lemma PointDependsOnOwnBin(d1: seq<byte>, d2: seq<byte>, lineAmount: nat, intensity: real, invert: int, cx: real, cy: real, i: nat, j: nat)
    requires lineAmount * FreqsPerLine <= |d1| && lineAmount * FreqsPerLine <= |d2| && intensity > 0.0
    requires i < lineAmount && 1 <= j < FreqsPerLine
    requires i * FreqsPerLine + j < |d1| && i * FreqsPerLine + j < |d2|
    requires d1[i * FreqsPerLine + j] == d2[i * FreqsPerLine + j]
    ensures FrequencyLines(d1, lineAmount, intensity, invert, cx, cy)[i][j - 1]
         == FrequencyLines(d2, lineAmount, intensity, invert, cx, cy)[i][j - 1]
  {
    GroupInBounds(i, lineAmount, |d1|);
    GroupInBounds(i, lineAmount, |d2|);
    assert Group(d1, i)[j] == d1[i * FreqsPerLine + j];
    assert Group(d2, i)[j] == d2[i * FreqsPerLine + j];
  }

  /** Samples past the last line, and bin 0 of each line, never reach the frame. */
  lemma UnusedSamplesIgnored(d1: seq<byte>, d2: seq<byte>, lineAmount: nat, intensity: real, invert: int, cx: real, cy: real)
    requires lineAmount * FreqsPerLine <= |d1| && lineAmount * FreqsPerLine <= |d2| && intensity > 0.0
    requires forall n :: 0 <= n < lineAmount * FreqsPerLine && n % FreqsPerLine != 0 ==> d1[n] == d2[n]
    ensures FrequencyLines(d1, lineAmount, intensity, invert, cx, cy) == FrequencyLines(d2, lineAmount, intensity, invert, cx, cy)
  {
    var l1 := FrequencyLines(d1, lineAmount, intensity, invert, cx, cy);
    var l2 := FrequencyLines(d2, lineAmount, intensity, invert, cx, cy);
    forall i | 0 <= i < lineAmount
      ensures l1[i] == l2[i]
    {
      GroupInBounds(i, lineAmount, |d1|);
      forall k | 0 <= k < PointsPerLine
        ensures l1[i][k] == l2[i][k]
      {
        var n := i * FreqsPerLine + (k + 1);
        assert n % FreqsPerLine == k + 1;
        PointDependsOnOwnBin(d1, d2, lineAmount, intensity, invert, cx, cy, i, k + 1);
      }
    }
  }
}
