/**
 The renderer's parameters (`invert`, `waveform`, `reverb`, `dashed`,
 `lineIntensity`, `numSamples`, `lineAmount`) and the control handlers that
 change them. The reverb handler's audio-graph side effect is not modelled;
 only its flag is.
 */
module RenderState {
  import opened LineCount

  datatype State = State(
    invert: int,        // +1 or -1, multiplies the frequency displacement
    waveform: bool,     // false: frequency mode, true: waveform mode
    reverb: bool,       // convolver connected to the output
    dashed: bool,       // dash pattern [1, 10] instead of a solid stroke
    intensity: real,    // `lineIntensity`, the attenuation divisor
    numSamples: nat,    // the analyser window (`fftSize`)
    lineAmount: int     // lines drawn in frequency mode
  )

  /** The invariant every handler keeps: the line count always matches the window. */
  predicate Valid(s: State)
  {
    && (s.invert == 1 || s.invert == -1)
    && s.intensity > 0.0
    && s.numSamples in SampleWindows
    && s.lineAmount == LineAmount(s.numSamples)
  }

  /** The defaults set when the visualizer starts. */
  function Init(): (s: State)
    ensures Valid(s)
    ensures s.lineAmount as real == LineAmountJs(DefaultWindow)
    ensures s.lineAmount == 46
    ensures s.invert == 1 && !s.waveform && !s.reverb && !s.dashed
    ensures s.intensity == 2.0 && s.numSamples == DefaultWindow
  {
    LineAmountMatchesScript(DefaultWindow);
    State(1, false, false, false, 2.0, DefaultWindow, LineAmount(DefaultWindow))
  }

  /** The stroke's dash pattern: `[1, 10]` when dashed, solid (`[]`) otherwise. */
  function DashPattern(dashed: bool): (d: seq<int>)
    ensures dashed <==> d != []
    ensures d != [] ==> d == [1, 10]
  {
    if dashed then [1, 10] else []
  }

  /** The invert checkbox: `invert *= -1`. */
  function ToggleInvert(s: State): (r: State)
    ensures Valid(s) ==> Valid(r) && r.invert != s.invert
    ensures r.invert == -s.invert
    ensures r.(invert := s.invert) == s
  {
    s.(invert := s.invert * -1)
  }

  /** The waveform checkbox: `waveform = !waveform`. */
  function ToggleWaveform(s: State): (r: State)
    ensures Valid(s) ==> Valid(r)
    ensures r.waveform != s.waveform
    ensures r.(waveform := s.waveform) == s
  {
    s.(waveform := !s.waveform)
  }

  /** The reverb checkbox's flag; (dis)connecting the convolver is not modelled. */
  function ToggleReverb(s: State): (r: State)
    ensures Valid(s) ==> Valid(r)
    ensures r.reverb != s.reverb
    ensures r.(reverb := s.reverb) == s
  {
    s.(reverb := !s.reverb)
  }

  /** The dash checkbox: `dashed = !dashed`. */
  function ToggleDash(s: State): (r: State)
    ensures Valid(s) ==> Valid(r)
    ensures r.dashed != s.dashed
    ensures DashPattern(r.dashed) != DashPattern(s.dashed)
    ensures r.(dashed := s.dashed) == s
  {
    s.(dashed := !s.dashed)
  }

  /** The sample select: store the window and recompute the line count at once. */
  function SelectSamples(s: State, window: nat): (r: State)
    requires window in SampleWindows
    ensures Valid(s) ==> Valid(r)
    ensures r.numSamples == window
    ensures r.lineAmount as real == LineAmountJs(window)
    ensures 1 <= r.lineAmount && r.lineAmount * FreqsPerLine <= BinCount(window)
    ensures r.(numSamples := s.numSamples, lineAmount := s.lineAmount) == s
  {
    LineAmountMatchesScript(window);
    LineAmountFits(window);
    s.(numSamples := window, lineAmount := LineAmount(window))
  }

  /** The intensity slider (a positive number). */
  function SetIntensity(s: State, v: real): (r: State)
    requires v > 0.0
    ensures Valid(s) ==> Valid(r)
    ensures r.intensity == v
    ensures r.(intensity := s.intensity) == s
  {
    s.(intensity := v)
  }

  /** Each checkbox handler undoes itself when fired twice. */
  lemma TogglesAreInvolutions(s: State)
    ensures ToggleInvert(ToggleInvert(s)) == s
    ensures ToggleWaveform(ToggleWaveform(s)) == s
    ensures ToggleReverb(ToggleReverb(s)) == s
    ensures ToggleDash(ToggleDash(s)) == s
  {
  }

  /** One discrete control event, as delivered by the page's handlers. */
  datatype ControlEvent =
    | InvertChanged
    | WaveformChanged
    | ReverbChanged
    | DashChanged
    | SampleSelected(window: nat)
    | IntensityInput(value: real)

  /** Values the controls can deliver: an option of the select, a positive slider value. */
  predicate WellFormed(e: ControlEvent)
  {
    match e
    case SampleSelected(w) => w in SampleWindows
    case IntensityInput(v) => v > 0.0
    case _ => true
  }

  /** Dispatch one event to its handler. */
  function Apply(s: State, e: ControlEvent): (r: State)
    requires WellFormed(e)
    ensures Valid(s) ==> Valid(r)
  {
    match e
    case InvertChanged => ToggleInvert(s)
    case WaveformChanged => ToggleWaveform(s)
    case ReverbChanged => ToggleReverb(s)
    case DashChanged => ToggleDash(s)
    case SampleSelected(w) => SelectSamples(s, w)
    case IntensityInput(v) => SetIntensity(s, v)
  }

  /** The events of a session, applied in order between frames. */
  function ApplyAll(s: State, events: seq<ControlEvent>): State
    requires forall k :: 0 <= k < |events| ==> WellFormed(events[k])
    decreases |events|
  {
    if events == [] then s else ApplyAll(Apply(s, events[0]), events[1..])
  }

  /**
   Whatever the user does, the state every frame sees is valid; in particular
   the line count always matches the selected window.
   */
  lemma {:induction false} SessionKeepsValid(s: State, events: seq<ControlEvent>)
    requires Valid(s)
    requires forall k :: 0 <= k < |events| ==> WellFormed(events[k])
    ensures Valid(ApplyAll(s, events))
    ensures ApplyAll(s, events).lineAmount as real == LineAmountJs(ApplyAll(s, events).numSamples)
    decreases |events|
  {
    if events != [] {
      SessionKeepsValid(Apply(s, events[0]), events[1..]);
    }
    var t := ApplyAll(s, events);
    LineAmountMatchesScript(t.numSamples);
  }

  /** Firing the same checkbox twice in a row leaves the state as it was. */
  lemma {:induction false} DoubleToggleCancels(s: State, e: ControlEvent)
    requires e.InvertChanged? || e.WaveformChanged? || e.ReverbChanged? || e.DashChanged?
    ensures ApplyAll(s, [e, e]) == s
  {
    assert [e, e][1..] == [e];
    assert [e][1..] == [];
    TogglesAreInvolutions(s);
    var once := Apply(s, e);
    assert ApplyAll(s, [e, e]) == ApplyAll(once, [e]);
    assert ApplyAll(once, [e]) == ApplyAll(Apply(once, e), []);
  }
}
