# Unknown-Visualizer frame renderer in Dafny

This project models the per-frame transform of a browser audio visualizer.
Each animation frame takes one byte buffer from the audio analyser and draws
a set of polylines on a canvas. The model describes this as pure functions
that return the points each polyline would receive from `lineTo`, together
with its dash pattern. It also models the control handlers that change the
render parameters.

Modules, one per part of `script.js`:

- `Canvas`: the `byte` sample type, `Point`, `Polyline`, and small lemmas about real division.
- `LineCount`: the sample-window options (64 to 4096), the analyser's bin count (`fftSize / 2`), and the line count.
  The line count is `lineAmount = n/64 - floor((n/64)/3.5)`.
  It is stated twice: once over reals as the script computes it, and once in integers.
  The two are proved equal for every window that is a multiple of 64, and so for every selectable option. Elsewhere they differ: for window 100 the real form gives 1.5625 and the integer form 1.
- `RenderState`: the render parameters and their invariant.
  It also has the checkbox, select and slider handlers, and a dispatcher for sequences of control events.
- `Frequency`: frequency mode.
  The buffer is split into `lineAmount` groups of 32 bins. Each bin is divided by a per-index divisor, in closed form `Divisor`.
  The script's loop with `counterUp`/`counterDown` (`DrawFrequencyLine`) is proved to compute exactly that closed form.
  Line `i` sits at `cy/2 + i*cy/50`, and point `j` at `cx/2 + j*cx/32`.
- `Waveform`: waveform mode.
  It draws ceil(lineAmount/4) bands. Each band replots the whole buffer at `cy + i*cy/15`, with no sign flip and no intensity scaling.
- `Frame`: one call of `update`. It sizes the buffer to the bin count, dispatches on the mode, and dashes every path.

Some points of the code, as modelled here:

- The waveform loop guard `i < lineAmount / 4` divides over reals. So the band count is the ceiling of `lineAmount / 4`, not the floor: 12 bands for the default 46 lines.
- In both modes the buffer has `frequencyBinCount` samples, which is half the window. Waveform mode therefore draws only the first half of the time-domain window.
- Each transition window covers four indices, 8..11 and 21..24, even though `transitionLength` is 3.
  Across a window the extra divisor steps through 5, 5/2, 5/3 and 5/4. It never reaches 1.
  The whole divisor falls from `10*I` at the edges to `I` at index 12, then rises again symmetrically.

## Model

| member | source | states |
|---|---|---|
| LineCount.ListSamples | script.js:73-81 | the option loop yields exactly 64, 128, …, 4096: each option is 64·2^k, all are below 8192, the last doubled is 8192, and the default 4096 is among them |
| LineCount.LineAmountMatchesScript | script.js:46-49 | for every window that is a multiple of 64, the floating `n/32/2 - parseInt(n/32/2/3.5)` equals the integer `m - floor(2m/7)` with m = n/64 |
| LineCount.FloorOfThreeAndAHalf | script.js:49 | `parseInt`/floor of m/3.5 is the integer quotient 2m/7 |
| LineCount.LineAmountFits | script.js:185 | every selectable window gives at least one line, and `lineAmount*32` never exceeds the bin count `n/2` |
| LineCount.LineAmountBetweenOneAndGroups | script.js:240-243 | for any window of at least 64, the line count lies between 1 and n/64, so the lines fit in the n/2 bins |
| LineCount.LineAmountTable | script.js:73-81 | the line counts of the options are 1, 2, 3, 6, 12, 23 and 46 (46 for 4096, 3 for 256) |
| LineCount.LineAmountMonotone | script.js:242-243 | a larger window never gives fewer lines |
| RenderState.Init | script.js:33-49 | the start-up state is valid: sign +1, frequency mode, no reverb, solid, intensity 2, window 4096, and 46 lines as the script's own formula gives |
| RenderState.DashPattern | script.js:121 | the pattern is non-empty exactly when dashed, and then it is `[1, 10]` |
| RenderState.ToggleInvert | script.js:203-205 | the sign flips to its negation, validity is kept, and no other parameter changes |
| RenderState.ToggleWaveform | script.js:208-210 | the mode flips, validity is kept, and nothing else changes |
| RenderState.ToggleReverb | script.js:213-215 | the reverb flag flips, validity is kept, and nothing else changes |
| RenderState.ToggleDash | script.js:224-226 | the dash flag flips and so does the dash pattern, and nothing else changes |
| RenderState.SelectSamples | script.js:239-244 | the window is stored and the line count is recomputed in the same step, equal to the script's floating formula, at least 1 and fitting the buffer; nothing else changes |
| RenderState.SetIntensity | script.js:252-254 | a positive slider value becomes the intensity, and nothing else changes |
| RenderState.TogglesAreInvolutions | script.js:203-226 | each checkbox handler applied twice gives back the original state |
| RenderState.Apply | script.js:203-254 | every well-formed control event keeps the state valid; because `Valid` ties the line count to the window, the count keeps matching the window |
| RenderState.SessionKeepsValid | script.js:239-244 | after any sequence of control events the state is valid and the line count equals the script's formula for the current window |
| RenderState.DoubleToggleCancels | script.js:203-226 | the same checkbox event fired twice in a row is a no-op |
| Frequency.Divisor | script.js:136-153 | the divisor of every bin is at least the intensity |
| Frequency.DivisorIsWeighted | script.js:136-153 | the divisor is the intensity times a per-index weight that does not depend on it |
| Frequency.RampShape | script.js:144-153 | the left extra divisor falls strictly from 5 to 5/4 over 8..11; the right one rises strictly from 5/4 to 5 over 21..24; between them only `I` applies; the margins get `10*I`; the two windows are disjoint and lie outside the margins |
| Frequency.DivisorSymmetric | script.js:136-153 | the divisor of bin j equals that of bin 32 - j for 1 ≤ j ≤ 31 |
| Frequency.DivisorProfile | script.js:136-153 | the divisor never increases from bin 1 to the centre bin 16, and never decreases from 16 to 31 |
| Frequency.DisplacementBound | script.js:136-156 | a byte sample moves its point by between 0 and `s/I` ≤ `255/I`, and by exactly `s/(10*I)` in the margins |
| Frequency.GroupInBounds | script.js:111-116 | line `i < lineAmount` reads bins `i*32` to `i*32+31`, all inside a buffer of at least `lineAmount*32` |
| Frequency.SplitIntoLines | script.js:108-116 | `lineArray` has `lineAmount` rows of 32 bins, and row i, entry j is `data[i*32 + j]` |
| Frequency.DrawFrequencyLine | script.js:124-157 | the counter-driven loop produces exactly the closed-form line: 31 points, point j being bin j divided by `Divisor(j, I)`; its loop invariants (not its ensures) keep the counters at their closed-form values, within 1..5 and 0..4 |
| Frequency.StepMatchesDivisor | script.js:133-153 | with the counters at their closed-form values, the margin/middle division followed by the transition division is the division by `Divisor` |
| Frequency.PointFromQuotient | script.js:156 | the point plotted from an attenuated bin is the closed-form point of that bin |
| Frequency.RenderFrequencyData | script.js:106-161 | the split-then-plot loops produce exactly the closed-form frequency frame |
| Frequency.LineGeometry | script.js:132-156 | each line has 31 points, and on a canvas of positive width their x strictly increases and stays within `(cx/2, 3cx/2)` |
| Frequency.PointXIncreasing | script.js:156 | a larger bin index is plotted further right when the width is positive |
| Frequency.LineDisplacement | script.js:136-156 | each point lies within `s/I` of its line's offset, on the side the sign selects, and exactly `s/(10*I)` away in the margins |
| Frequency.InvertMirrors | script.js:156 | flipping the sign keeps every x and mirrors every y about the line's offset |
| Frequency.OffsetsIncrease | script.js:119-120 | line offsets strictly increase with the line index when the canvas has height |
| Frequency.PointDependsOnOwnBin | script.js:111-156 | point j of line i depends on no sample but `data[i*32 + j]` |
| Frequency.UnusedSamplesIgnored | script.js:108-132 | buffers that agree on bins 1..31 of the first `lineAmount` groups give the same lines |
| Waveform.BandGuard | script.js:166 | the real-valued guard `i < lineAmount/4` holds exactly for `i < ceil(lineAmount/4)` |
| Waveform.BandCountIsCeiling | script.js:166 | the band count is the least c with lineAmount ≤ 4c; for 46 lines it is 12, one more than the floor |
| Waveform.DrawTrace | script.js:172-175 | the inner loop plots one point per sample, k at `cx/2 + k*cx/n`, raised by the sample's value |
| Waveform.RenderWaveformData | script.js:164-179 | the nested loops with the real guard produce exactly ceil(lineAmount/4) bands, each band the whole trace at its offset |
| Waveform.BandsShape | script.js:166-174 | there are ceil(lineAmount/4) bands of one point per sample; band i is band 0 moved down by `i*cy/15`; every y lies between 255 above the band's offset and the offset itself |
| Waveform.BandGeometry | script.js:172-174 | within a band the x strictly increases across `[cx/2, 3cx/2)` |
| Frame.WithDash | script.js:121 | every path keeps its points and carries the given dash pattern |
| Frame.RenderFrame | script.js:182-197 | frequency mode draws `lineAmount` paths of 31 points; waveform mode draws ceil(lineAmount/4) ≥ 1 paths of `n/2` points; every path carries the current dash pattern |
| Frame.PathsShape | script.js:182-197 | the undashed paths of a frame have these counts and lengths in each mode |
| Frame.Update | script.js:182-197 | the dispatch on the mode flag, run over the script's loops, produces exactly the closed-form frame |
| Frame.FrequencyReadsInBounds | script.js:185 | every read `data[i*32 + j]` with `i < lineAmount` and `j < 32` is below the bin count |
| Frame.InvertMirrorsFrame | script.js:203-205 | in frequency mode, flipping the sign mirrors every point about its line's offset; flipping it twice restores the frame |
| Frame.WaveformIgnoresInvertAndIntensity | script.js:167-174 | a waveform frame is the same for any sign and any positive intensity |
| Frame.ReverbDoesNotChangeFrame | script.js:213-221 | toggling reverb leaves the drawn frame unchanged |
| Frame.DashToggleSwitchesPattern | script.js:224-226 | toggling dash keeps every point and switches each path between solid and `[1, 10]`; toggling twice restores the frame |
| Frame.WaveformToggleTwiceRestoresFrame | script.js:208-210 | toggling the mode twice restores the frame |
| Frame.FrequencyFrameIgnoresUnusedSamples | script.js:111-116 | a frequency frame does not depend on bin 0 of any line or on samples past `lineAmount*32` |
| Frame.PointsInsideCanvas | script.js:93-96 | on a canvas of positive width, every point of every path lies strictly inside it horizontally |
| LineCount.BinCount | script.js:185 | definition: the analyser's `frequencyBinCount`, half the window; related to the line count by LineCount.LineAmountFits |
| LineCount.LineAmountJs | script.js:48-49 | definition: the script's floating formula, with `parseInt` as `Floor`; related to the integer count by LineCount.LineAmountMatchesScript |
| LineCount.LineAmount | script.js:242-243 | definition: m - floor(2m/7) with m = n/64; related to the script by LineCount.LineAmountMatchesScript, bounded by LineCount.LineAmountFits and LineCount.LineAmountBetweenOneAndGroups |
| RenderState.Valid | script.js:33-49 | definition: the state invariant (sign ±1, positive intensity, window an option, line count matching the window); kept by RenderState.Apply and RenderState.SessionKeepsValid |
| RenderState.ApplyAll | script.js:203-254 | definition: the control events of a session applied in order; related to validity by RenderState.SessionKeepsValid |
| Frequency.FrequencyPoint | script.js:156 | definition: the closed-form point of bin j; related to the script's `lineTo` arguments by Frequency.PointFromQuotient |
| Frequency.FrequencyLine | script.js:132-157 | definition: the closed-form 31-point line; related to the script's counter loop by Frequency.DrawFrequencyLine |
| Frequency.FrequencyLines | script.js:111-160 | definition: the closed-form frequency frame; related to the script's loops by Frequency.RenderFrequencyData |
| Waveform.BandCount | script.js:166 | definition: ceil(lineAmount/4); related to the real loop guard by Waveform.BandGuard and Waveform.BandCountIsCeiling |
| Waveform.Trace | script.js:172-175 | definition: one point per sample at a given offset; related to the inner loop by Waveform.DrawTrace |
| Waveform.WaveformBands | script.js:166-178 | definition: all bands of a waveform frame; related to the script's loops by Waveform.RenderWaveformData |
| Frame.FramePaths | script.js:187-197 | definition: the paths of the selected mode; related to the script's dispatch by Frame.Update and Frame.PathsShape |
| Frequency.InMargin | script.js:136 | definition: the margin test, bins below 8 or above 24; related to the divisor by Frequency.RampShape (margins get `10*I`) and Frequency.StepMatchesDivisor |
| Frequency.RampFactor | script.js:144-153 | definition: the closed form of the `5 / counterUp` and `5 / counterDown` divisions, 5/(j-7) on 8..11 and 5/(25-j) on 21..24; related to the counter loop by Frequency.StepMatchesDivisor and Frequency.DrawFrequencyLine, shaped by Frequency.RampShape |
| Frequency.PointX | script.js:156 | definition: the x of bin j, `cx/2 + j*cx/32`; related to the line's order by Frequency.PointXIncreasing and Frequency.LineGeometry |
| Frequency.LineOffset | script.js:120 | definition: `yOffset` of line i, `cy/2 + i*cy/50`; related to the stacking by Frequency.OffsetsIncrease and to the sign flip by Frame.InvertMirrorsFrame |
| Frequency.Group | script.js:111-116 | definition: row i of `lineArray`, the 32 samples from `i*32`; related to the copy loops by Frequency.SplitIntoLines and kept in bounds by Frequency.GroupInBounds |
| Waveform.SampleX | script.js:174 | definition: the x of sample k, `cx/2 + k*cx/n`; related to the band's order by Waveform.BandGeometry |
| Waveform.BandOffset | script.js:167 | definition: `yOffset` of band i, `cy + i*cy/15`; related to the band positions by Waveform.BandsShape |
| Waveform.WaveformBand | script.js:166-175 | definition: band i, the trace at its own offset; related to the script's loops by Waveform.RenderWaveformData and shaped by Waveform.BandsShape |

## Left out

- The audio graph is not modelled: the `AudioContext`, the analyser, the source node, the convolver and its random impulse buffer, and the reverb connect/disconnect. These are platform calls and randomness. Only the reverb flag is kept.
- `getByteFrequencyData` and `getByteTimeDomainData` are not modelled. The buffer is an arbitrary sequence of bytes whose length is the bin count.
- Canvas primitives are replaced by point sequences and dash patterns: `clearRect`, `beginPath`, `lineTo`, `stroke` and `setLineDash`. Stroke colour and line width are left out because they do not change any point.
- `requestAnimationFrame` scheduling, resizing, DOM lookups, the minimize bar, spacebar play/pause, the song path and the hex-colour string are left out. They are UI and I/O glue with no effect on the transform.
- String-to-number coercion of the select and slider values is left out. The window is assumed to be one of the options, and the intensity a positive number.
- RenderState.SetIntensity: requires a positive intensity. A zero or negative slider value would make the script divide by zero or flip the plot, and IEEE infinities and NaN are not modelled.
- IEEE-754 rounding is not modelled. Coordinates and divisors are exact reals.
- `parseInt` is modelled as `Floor`. This matches the script for the non-negative values that occur, none of which print in exponent notation.
