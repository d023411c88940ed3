/**
 Waveform-mode rendering: a number of stacked bands, each of which replots
 the whole time-domain buffer. Neither `invert` nor the intensity applies.
 `cx` and `cy` are the canvas centre.
 */
module Waveform {
  import opened Canvas

  /**
   The number of bands the loop `for (i = 0; i < lineAmount / 4; i++)` draws:
   the guard divides over reals, so the count is the ceiling of lineAmount / 4.
   */
  function BandCount(lineAmount: nat): nat
  {
    (lineAmount + 3) / 4
  }

  /** The loop guard holds exactly for the band indices below `BandCount`. */
  lemma BandGuard(i: nat, lineAmount: nat)
    ensures (i as real) < (lineAmount as real) / 4.0 <==> i < BandCount(lineAmount)
  {
    assert (i as real) < (lineAmount as real) / 4.0 <==> 4 * i < lineAmount;
  }

  /**
   `BandCount` is the ceiling: the smallest count c with lineAmount <= 4c.
   With the default 46 lines this is 12 bands, one more than 46 / 4 rounded down.
   */
  lemma BandCountIsCeiling(lineAmount: nat)
    ensures lineAmount <= 4 * BandCount(lineAmount)
    ensures BandCount(lineAmount) == 0 || 4 * (BandCount(lineAmount) - 1) < lineAmount
    ensures BandCount(46) == 12 && 46 / 4 == 11
  {
  }

  /** The x of sample `k` out of `n`: the buffer spans half the canvas width from `cx / 2`. */
  function SampleX(k: int, n: nat, cx: real): real
    requires n > 0
  {
    cx / 2.0 + (k as real) * cx / (n as real)
  }

  /** The vertical offset of band `i`. */
  function BandOffset(i: int, cy: real): real
  {
    cy + (i as real) * cy / 15.0
  }

  /** Every sample of the buffer, raised by its value above the offset `yOffset`. */
  function Trace(data: seq<byte>, yOffset: real, cx: real): seq<Point>
  {
    seq(|data|, k requires 0 <= k < |data| =>
      Point(SampleX(k, |data|, cx), yOffset - data[k] as real))
  }

  /** Band `i`: the trace drawn at the band's own offset. */
  function WaveformBand(data: seq<byte>, i: nat, cx: real, cy: real): seq<Point>
  {
    Trace(data, BandOffset(i, cy), cx)
  }

  /** All bands of a frame. */
  function WaveformBands(data: seq<byte>, lineAmount: nat, cx: real, cy: real): seq<seq<Point>>
  {
    seq(BandCount(lineAmount), i requires 0 <= i < BandCount(lineAmount) => WaveformBand(data, i, cx, cy))
  }

  /** The inner loop: one `lineTo` per sample. */
  method DrawTrace(data: seq<byte>, yOffset: real, cx: real) returns (band: seq<Point>)
    ensures band == Trace(data, yOffset, cx)
  {
    band := [];
    var k := 0;
    while k < |data|
      invariant 0 <= k <= |data|
      invariant |band| == k
      invariant forall a :: 0 <= a < k ==> band[a] == Point(SampleX(a, |data|, cx), yOffset - data[a] as real)
    {
      band := band + [Point(cx / 2.0 + (k as real) * cx / (|data| as real), yOffset - data[k] as real)];
      k := k + 1;
    }
  }

  /** The script's nested loops, with the outer guard over reals. */
  method RenderWaveformData(data: seq<byte>, lineAmount: nat, cx: real, cy: real) returns (bands: seq<seq<Point>>)
    ensures bands == WaveformBands(data, lineAmount, cx, cy)
  {
    bands := [];
    var i := 0;
    BandGuard(i, lineAmount);
    while (i as real) < (lineAmount as real) / 4.0
      invariant 0 <= i <= BandCount(lineAmount)
      invariant |bands| == i
      invariant forall b :: 0 <= b < i ==> bands[b] == WaveformBand(data, b, cx, cy)
      invariant (i as real) < (lineAmount as real) / 4.0 <==> i < BandCount(lineAmount)
      decreases BandCount(lineAmount) - i
    {
      var yOffset := cy + (i as real) * cy / 15.0;
      var band := DrawTrace(data, yOffset, cx);
      bands := bands + [band];
      i := i + 1;
      BandGuard(i, lineAmount);
    }
  }

  /**
   Shape of the waveform frame: ceil(lineAmount / 4) bands of one point per
   sample, band `i` being band 0 moved down by `i * cy / 15`, and every
   point between 255 above its band's offset and the offset itself.
   */
  lemma BandsShape(data: seq<byte>, lineAmount: nat, cx: real, cy: real)
    ensures var bands := WaveformBands(data, lineAmount, cx, cy);
      && |bands| == BandCount(lineAmount)
      && (forall i :: 0 <= i < |bands| ==> |bands[i]| == |data|)
      && (forall i, k :: 0 <= i < |bands| && 0 <= k < |data| ==>
            bands[i][k].x == bands[0][k].x && bands[i][k].y == bands[0][k].y + (i as real) * cy / 15.0)
      && (forall i, k :: 0 <= i < |bands| && 0 <= k < |data| ==>
            BandOffset(i, cy) - 255.0 <= bands[i][k].y <= BandOffset(i, cy))
  {
    var bands: seq<seq<Point>> := WaveformBands(data, lineAmount, cx, cy);
    forall i, k | 0 <= i < |bands| && 0 <= k < |data|
      ensures bands[i][k].y == bands[0][k].y + (i as real) * cy / 15.0
    {
      assert BandOffset(i, cy) == BandOffset(0, cy) + (i as real) * cy / 15.0;
    }
  }

  /** Within a band the samples run strictly left to right across the middle half of the canvas. */
  lemma BandGeometry(data: seq<byte>, i: nat, cx: real, cy: real)
    requires cx > 0.0
    ensures StrictlyIncreasingX(WaveformBand(data, i, cx, cy))
    ensures forall k :: 0 <= k < |data| ==> cx / 2.0 <= WaveformBand(data, i, cx, cy)[k].x < 3.0 * cx / 2.0
  {
    var band: seq<Point> := WaveformBand(data, i, cx, cy);
    var n := |data| as real;
    forall a, b | 0 <= a < b < |band|
      ensures band[a].x < band[b].x
    {
      assert (a as real) * cx < (b as real) * cx;
      QuotientStrictlyMonotone((a as real) * cx, (b as real) * cx, n);
    }
    forall k | 0 <= k < |data|
      ensures cx / 2.0 <= band[k].x < 3.0 * cx / 2.0
    {
      assert 0.0 <= (k as real) * cx < n * cx;
      QuotientMonotone(0.0, (k as real) * cx, n);
      QuotientStrictlyMonotone((k as real) * cx, n * cx, n);
    }
  }
}
