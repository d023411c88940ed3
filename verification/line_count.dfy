/**
 The sample-window options and the number of frequency lines derived from the
 selected window (`numSamples`, `frequenciesPerLine`, `lineAmount`).
 */
module LineCount {

  /** The select's option values: powers of two from 64 below 8192. */
  const SampleWindows: seq<nat> := [64, 128, 256, 512, 1024, 2048, 4096]

  /** The exclusive upper bound of the option loop (`max`). */
  const MaxWindow: nat := 8192

  /** The window selected at start-up. */
  const DefaultWindow: nat := 4096

  /** Samples per frequency line (`frequenciesPerLine`). */
  const FreqsPerLine: nat := 32

  /** The analyser's `frequencyBinCount` for a given `fftSize`: half the window. */
  function BinCount(window: nat): nat
  {
    window / 2
  }

  /** The option-generating loop: start at 64, double while below 8192. */
  method ListSamples() returns (options: seq<nat>)
    ensures options == SampleWindows
    ensures forall k :: 0 <= k < |options| ==> options[k] == 64 * Pow2(k) < MaxWindow
    ensures |options| > 0 && options[|options| - 1] * 2 == MaxWindow
    ensures DefaultWindow in options
  {
    options := [];
    var i: nat := 64;
    while i < MaxWindow
      invariant |options| <= |SampleWindows|
      invariant options == SampleWindows[..|options|]
      invariant |options| < |SampleWindows| ==> i == SampleWindows[|options|]
      invariant |options| == |SampleWindows| ==> i == MaxWindow
      decreases MaxWindow - i
    {
      options := options + [i];
      i := i * 2;
    }
    OptionsDouble();
  }

  /** Powers of two, used to state how far apart two options are. */
  function Pow2(k: int): nat
  {
    if k <= 0 then 1 else 2 * Pow2(k - 1)
  }

  /** Each option doubles the previous one, and doubling the last reaches 8192. */
  lemma OptionsDouble()
    ensures forall k :: 0 <= k < |SampleWindows| ==> SampleWindows[k] == 64 * Pow2(k)
  {
    assert Pow2(1) == 2 && Pow2(2) == 4 && Pow2(3) == 8 && Pow2(4) == 16;
    assert Pow2(5) == 32 && Pow2(6) == 64;
  }

  /**
   The line count as the script computes it, over JavaScript numbers:
   `numSamples / frequenciesPerLine / 2`, minus `parseInt` of that over 3.5.
   For the non-negative values that occur, `parseInt` truncates, which is `Floor`.
   */
  function LineAmountJs(window: nat): real
  {
    var raw := window as real / FreqsPerLine as real / 2.0;
    raw - (raw / 3.5).Floor as real
  }

  /**
   The line count in integers: with m = window / 64 groups, drop
   floor(m / 3.5) = floor(2m / 7) of the lowest, barely moving lines.
   */
  function LineAmount(window: nat): int
  {
    var m := window / 64;
    m - (2 * m) / 7
  }

  /** `Floor` of m / 3.5 is the integer quotient 2m / 7. */
  lemma FloorOfThreeAndAHalf(m: nat)
    ensures (m as real / 3.5).Floor == (2 * m) / 7
  {
    var q := (2 * m) / 7;
    var r := (2 * m) % 7;
    assert 2 * m == 7 * q + r && 0 <= r < 7;
    assert m as real / 3.5 == q as real + r as real / 7.0;
  }

  /**
   For every window that is a multiple of 64, and so for every selectable one,
   the script's floating computation yields exactly the integer line count.
   */
  lemma LineAmountMatchesScript(window: nat)
    requires window % 64 == 0
    ensures LineAmountJs(window) == LineAmount(window) as real
  {
    var m := window / 64;
    assert window as real / 32.0 / 2.0 == m as real;
    FloorOfThreeAndAHalf(m);
  }

  /**
   Every selectable window yields at least one line, and the lines read no
   further than the buffer: `lineAmount * 32 <= frequencyBinCount`.
   */
  lemma LineAmountFits(window: nat)
    requires window in SampleWindows
    ensures 1 <= LineAmount(window)
    ensures LineAmount(window) * FreqsPerLine <= BinCount(window)
  {
  }

  /** The general bound: with m >= 1 groups, between 1 and m lines are kept. */
  lemma LineAmountBetweenOneAndGroups(window: nat)
    requires window >= 64
    ensures 1 <= LineAmount(window) <= window / 64
    ensures LineAmount(window) * FreqsPerLine <= BinCount(window)
  {
    var m := window / 64;
    assert (2 * m) / 7 < m;
    assert m * 32 <= window / 2;
  }

  /** The line count for every option: 1, 2, 3, 6, 12, 23 and 46. */
  lemma LineAmountTable()
    ensures LineAmount(64) == 1 && LineAmount(128) == 2 && LineAmount(256) == 3
    ensures LineAmount(512) == 6 && LineAmount(1024) == 12 && LineAmount(2048) == 23
    ensures LineAmount(4096) == 46
  {
  }

  /** Larger windows never give fewer lines. */
  lemma LineAmountMonotone(w1: nat, w2: nat)
    requires w1 <= w2
    ensures LineAmount(w1) <= LineAmount(w2)
  {
    var m1, m2 := w1 / 64, w2 / 64;
    assert m1 <= m2;
    var d1, d2 := (2 * m1) / 7, (2 * m2) / 7;
    assert d2 - d1 <= (2 * (m2 - m1)) / 7 + 1;
    assert (2 * (m2 - m1)) / 7 + 1 <= m2 - m1 || m2 - m1 == 0;
  }
}
