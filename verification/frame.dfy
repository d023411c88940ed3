/**
 One animation frame (`update`): size the buffer to the analyser's bin count,
 then draw either the frequency lines or the waveform bands, every path
 stroked with the current dash pattern. The canvas is `width` by `height`;
 its centre `(width / 2, height / 2)` positions everything.
 */
module Frame {
  import opened Canvas
  import opened LineCount
  import opened RenderState
  import opened Frequency
  import opened Waveform

  /** Attach the dash pattern set before every `beginPath` to each path. */
  function WithDash(paths: seq<seq<Point>>, dash: seq<int>): (lines: seq<Polyline>)
    ensures |lines| == |paths|
    ensures forall i :: 0 <= i < |lines| ==> lines[i].points == paths[i] && lines[i].dash == dash
  {
    seq(|paths|, i requires 0 <= i < |paths| => Polyline(paths[i], dash))
  }

  /** The paths of one frame, before dashing, in the mode the state selects. */
  function FramePaths(s: State, data: seq<byte>, width: real, height: real): seq<seq<Point>>
    requires Valid(s) && |data| == BinCount(s.numSamples)
  {
    LineAmountFits(s.numSamples);
    if !s.waveform then FrequencyLines(data, s.lineAmount, s.intensity, s.invert, width / 2.0, height / 2.0)
    else WaveformBands(data, s.lineAmount, width / 2.0, height / 2.0)
  }

  /**
   The frame drawn from a buffer of `frequencyBinCount` samples: in frequency
   mode `lineAmount` lines of 31 points, in waveform mode ceil(lineAmount / 4)
   bands of one point per sample; every path carries the dash pattern.
   */
  function RenderFrame(s: State, data: seq<byte>, width: real, height: real): (frame: seq<Polyline>)
    requires Valid(s) && |data| == BinCount(s.numSamples)
    ensures !s.waveform ==> |frame| == s.lineAmount
    ensures !s.waveform ==> forall i :: 0 <= i < |frame| ==> |frame[i].points| == PointsPerLine
    ensures s.waveform ==> |frame| == BandCount(s.lineAmount) && 1 <= |frame|
    ensures s.waveform ==> forall i :: 0 <= i < |frame| ==> |frame[i].points| == |data|
    ensures forall i :: 0 <= i < |frame| ==> frame[i].dash == DashPattern(s.dashed)
  {
    PathsShape(s, data, width, height);
    WithDash(FramePaths(s, data, width, height), DashPattern(s.dashed))
  }

  lemma PathsShape(s: State, data: seq<byte>, width: real, height: real)
    requires Valid(s) && |data| == BinCount(s.numSamples)
    ensures var paths := FramePaths(s, data, width, height);
      && (!s.waveform ==> |paths| == s.lineAmount && forall i :: 0 <= i < |paths| ==> |paths[i]| == PointsPerLine)
      && (s.waveform ==> |paths| == BandCount(s.lineAmount) && 1 <= |paths| && forall i :: 0 <= i < |paths| ==> |paths[i]| == |data|)
  {
    LineAmountFits(s.numSamples);
    if !s.waveform {
      forall i | 0 <= i < s.lineAmount
        ensures |FramePaths(s, data, width, height)[i]| == PointsPerLine
      {
        GroupInBounds(i, s.lineAmount, |data|);
      }
    } else {
      BandsShape(data, s.lineAmount, width / 2.0, height / 2.0);
    }
  }

  /** `update` as written: size the buffer, then dispatch on the mode flag. */
  method Update(s: State, data: seq<byte>, width: real, height: real) returns (frame: seq<Polyline>)
    requires Valid(s) && |data| == BinCount(s.numSamples)
    ensures frame == RenderFrame(s, data, width, height)
  {
    LineAmountFits(s.numSamples);
    var center := Point(width / 2.0, height / 2.0);
    var paths: seq<seq<Point>>;
    if !s.waveform {
      paths := RenderFrequencyData(data, s.lineAmount, s.intensity, s.invert, center.x, center.y);
    } else {
      paths := RenderWaveformData(data, s.lineAmount, center.x, center.y);
    }
    frame := WithDash(paths, DashPattern(s.dashed));
  }

  /**
   Every sample a frequency frame reads lies inside the buffer: for each line
   `i < lineAmount` and bin `j < 32`, `i * 32 + j < frequencyBinCount`.
   */
  lemma FrequencyReadsInBounds(s: State, i: nat, j: nat)
    requires Valid(s) && i < s.lineAmount && j < FreqsPerLine
    ensures i * FreqsPerLine + j < BinCount(s.numSamples)
  {
    LineAmountFits(s.numSamples);
    GroupInBounds(i, s.lineAmount, BinCount(s.numSamples));
  }

  /**
   Flipping `invert` in frequency mode mirrors every point about its line's
   offset and changes nothing else; flipping it twice restores the frame.
   */
  lemma InvertMirrorsFrame(s: State, data: seq<byte>, width: real, height: real)
    requires Valid(s) && |data| == BinCount(s.numSamples) && !s.waveform
    ensures var f := RenderFrame(s, data, width, height);
      var g := RenderFrame(ToggleInvert(s), data, width, height);
      && |g| == |f|
      && forall i, k :: 0 <= i < |f| && 0 <= k < |f[i].points| ==>
           && |g[i].points| == |f[i].points|
           && g[i].points[k].x == f[i].points[k].x
           && g[i].points[k].y - LineOffset(i, height / 2.0) == LineOffset(i, height / 2.0) - f[i].points[k].y
    ensures RenderFrame(ToggleInvert(ToggleInvert(s)), data, width, height) == RenderFrame(s, data, width, height)
  {
    LineAmountFits(s.numSamples);
    var f := RenderFrame(s, data, width, height);
    var g := RenderFrame(ToggleInvert(s), data, width, height);
    forall i | 0 <= i < |f|
      ensures |g[i].points| == |f[i].points|
      ensures forall k :: 0 <= k < |f[i].points| ==>
           g[i].points[k].x == f[i].points[k].x
           && g[i].points[k].y - LineOffset(i, height / 2.0) == LineOffset(i, height / 2.0) - f[i].points[k].y
    {
      GroupInBounds(i, s.lineAmount, |data|);
      InvertMirrors(Group(data, i), LineOffset(i, height / 2.0), s.intensity, s.invert, width / 2.0);
    }
    TogglesAreInvolutions(s);
  }

  /** Waveform frames ignore the sign and the intensity. */
  lemma WaveformIgnoresInvertAndIntensity(s: State, data: seq<byte>, width: real, height: real, invert: int, intensity: real)
    requires Valid(s) && |data| == BinCount(s.numSamples) && s.waveform
    requires (invert == 1 || invert == -1) && intensity > 0.0
    ensures RenderFrame(s.(invert := invert, intensity := intensity), data, width, height) == RenderFrame(s, data, width, height)
  {
  }

  /** The reverb flag never changes what is drawn. */
  lemma ReverbDoesNotChangeFrame(s: State, data: seq<byte>, width: real, height: real)
    requires Valid(s) && |data| == BinCount(s.numSamples)
    ensures RenderFrame(ToggleReverb(s), data, width, height) == RenderFrame(s, data, width, height)
  {
  }

  /**
   Toggling the dash flag keeps every point and switches every path between
   solid and `[1, 10]`; toggling twice restores the frame.
   */
  lemma DashToggleSwitchesPattern(s: State, data: seq<byte>, width: real, height: real)
    requires Valid(s) && |data| == BinCount(s.numSamples)
    ensures var f := RenderFrame(s, data, width, height);
      var g := RenderFrame(ToggleDash(s), data, width, height);
      && |g| == |f|
      && forall i :: 0 <= i < |f| ==> g[i].points == f[i].points && (g[i].dash == [] <==> f[i].dash == [1, 10])
    ensures RenderFrame(ToggleDash(ToggleDash(s)), data, width, height) == RenderFrame(s, data, width, height)
  {
    TogglesAreInvolutions(s);
  }

  /** Toggling the waveform flag twice restores the mode, and so the frame. */
  lemma WaveformToggleTwiceRestoresFrame(s: State, data: seq<byte>, width: real, height: real)
    requires Valid(s) && |data| == BinCount(s.numSamples)
    ensures RenderFrame(ToggleWaveform(ToggleWaveform(s)), data, width, height) == RenderFrame(s, data, width, height)
  {
    TogglesAreInvolutions(s);
  }

  /**
   A frequency frame depends only on bins 1..31 of the first `lineAmount`
   groups; the rest of the buffer can hold anything.
   */
  lemma FrequencyFrameIgnoresUnusedSamples(s: State, d1: seq<byte>, d2: seq<byte>, width: real, height: real)
    requires Valid(s) && !s.waveform
    requires |d1| == BinCount(s.numSamples) && |d2| == BinCount(s.numSamples)
    requires forall n :: 0 <= n < s.lineAmount * FreqsPerLine && n % FreqsPerLine != 0 ==> d1[n] == d2[n]
    ensures RenderFrame(s, d1, width, height) == RenderFrame(s, d2, width, height)
  {
    LineAmountFits(s.numSamples);
    UnusedSamplesIgnored(d1, d2, s.lineAmount, s.intensity, s.invert, width / 2.0, height / 2.0);
  }

  /** On a canvas of positive width every point of every path lies strictly inside it horizontally. */
  lemma PointsInsideCanvas(s: State, data: seq<byte>, width: real, height: real)
    requires Valid(s) && |data| == BinCount(s.numSamples) && width > 0.0
    ensures var f := RenderFrame(s, data, width, height);
      forall i, k :: 0 <= i < |f| && 0 <= k < |f[i].points| ==> 0.0 < f[i].points[k].x < width
  {
    LineAmountFits(s.numSamples);
    var f := RenderFrame(s, data, width, height);
    forall i | 0 <= i < |f|
      ensures forall k :: 0 <= k < |f[i].points| ==> 0.0 < f[i].points[k].x < width
    {
      if !s.waveform {
        GroupInBounds(i, s.lineAmount, |data|);
        LineGeometry(Group(data, i), LineOffset(i, height / 2.0), s.intensity, s.invert, width / 2.0);
      } else {
        BandGeometry(data, i, width / 2.0, height / 2.0);
      }
    }
  }
}
