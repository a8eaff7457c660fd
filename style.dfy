/**
 * Per-cell styling rules of the rendered table (surf_forecast.py, lines 75-82):
 * highlighted arrow cells and the blue / warm background scales of wave height and energy.
 */
module Style {
  import opened Optional

  /** A table cell as the styler sees it: a string, or a number that may be NaN (None). */
  datatype Cell = Text(s: string) | Number(x: Option<real>)

  /** An `rgb(r,g,b)` background colour. */
  datatype Rgb = Rgb(red: int, green: int, blue: int)

  const Highlight: string := "color: #33cccc; font-weight: bold"

  /** `highlight_direction`: every string cell is highlighted, the empty string included. */
  function HighlightDirection(v: Cell): (css: string)
    ensures css != "" <==> v.Text?
    ensures css != "" ==> css == Highlight
  {
    if v.Text? then Highlight else ""
  }

  /** Python's `int(x)` on a float: truncation toward zero. */
  function Trunc(x: real): (n: int)
    ensures x >= 0.0 ==> 0 <= n && n as real <= x < n as real + 1.0
    ensures x < 0.0 ==> n <= 0 && n as real - 1.0 < x <= n as real
  {
    if x >= 0.0 then x.Floor else -((-x).Floor)
  }

  /**
   * Python's two-argument `min(a, b)`: `b` if `b < a`, else `a`. NaN (None) is never less
   * than anything, so `min(200, NaN)` is 200.
   */
  function PyMin(a: real, b: Option<real>): (m: real)
    ensures b.None? ==> m == a
    ensures b.Some? ==> m <= a && m <= b.value && (m == a || m == b.value)
  {
    if b.Some? && b.value < a then b.value else a
  }

  /** A float operation on a possibly-NaN value: NaN stays NaN. */
  function Scaled(v: Option<real>, factor: real): (r: Option<real>)
    ensures r.None? <==> v.None?
    ensures v.Some? ==> r.value == v.value * factor
  {
    if v.Some? then Some(v.value * factor) else None
  }

  /** The colour channel of `color_wave`, as written: `int(220 - min(200, val * 50))`. */
  function WaveChannel(v: Option<real>): (c: int)
    ensures 20 <= c
    ensures v.Some? && v.value >= 0.0 ==> c <= 220
  {
    Trunc(220.0 - PyMin(200.0, Scaled(v, 50.0)))
  }

  /** The colour channel of `color_energy`, as written: `int(220 - min(200, val / 4))`. */
  function EnergyChannel(v: Option<real>): (c: int)
    ensures 20 <= c
    ensures v.Some? && v.value >= 0.0 ==> c <= 220
  {
    Trunc(220.0 - PyMin(200.0, Scaled(v, 0.25)))
  }

  /** `color_wave` as written: blue-tinted, applied to every wave height cell, NaN included. */
  function ColorWave(v: Option<real>): (bg: Rgb)
    ensures bg.red == bg.green == WaveChannel(v) && bg.blue == 255
    ensures 20 <= bg.red
    ensures v.Some? && v.value >= 0.0 ==> bg.red <= 220
  {
    var c := WaveChannel(v);
    Rgb(c, c, 255)
  }

  /** `color_energy` as written: warm, applied to every energy cell, NaN included. */
  function ColorEnergy(v: Option<real>): (bg: Rgb)
    ensures bg.red == 255 && bg.green == EnergyChannel(v) && bg.blue == 150
    ensures 20 <= bg.green
    ensures v.Some? && v.value >= 0.0 ==> bg.green <= 220
  {
    Rgb(255, EnergyChannel(v), 150)
  }

  /** Deeper tint for bigger waves: the channel never increases with the height. */
  lemma WaveChannelMonotone(a: real, b: real)
    requires a <= b
    ensures WaveChannel(Some(b)) <= WaveChannel(Some(a))
  {
  }

  /** Deeper tint for more energy: the channel never increases with the energy. */
  lemma EnergyChannelMonotone(a: real, b: real)
    requires a <= b
    ensures EnergyChannel(Some(b)) <= EnergyChannel(Some(a))
  {
  }

  /** The scale's ends: calm sea is lightest, 4 m or 800 kJ/m² reach the deepest tint. */
  lemma ChannelExamples()
    ensures WaveChannel(Some(0.0)) == 220 && WaveChannel(Some(1.5)) == 145
    ensures WaveChannel(Some(4.0)) == 20 && WaveChannel(Some(10.0)) == 20
    ensures EnergyChannel(Some(0.0)) == 220 && EnergyChannel(Some(400.0)) == 120
    ensures EnergyChannel(Some(800.0)) == 20 && EnergyChannel(Some(1260.0)) == 20
  {
  }

  /**
   * As written, a missing (NaN) height or energy gets the deepest tint, the same as a 4 m wave
   * or 800 kJ/m² of energy: `NaN * 50` is NaN and `min(200, NaN)` is 200.
   */
  lemma MissingValueGetsDeepestTint()
    ensures ColorWave(None) == ColorWave(Some(4.0)) == Rgb(20, 20, 255)
    ensures ColorEnergy(None) == ColorEnergy(Some(800.0)) == Rgb(255, 20, 150)
  {
  }

  /** Wave height background, corrected: a missing height gets no background at all. */
  function WaveBackground(v: Option<real>): (bg: Option<Rgb>)
    ensures bg.None? <==> v.None?
    ensures v.Some? ==> bg == Some(ColorWave(v))
  {
    if v.Some? then Some(ColorWave(v)) else None
  }

  /** Energy background, corrected: a missing energy gets no background at all. */
  function EnergyBackground(v: Option<real>): (bg: Option<Rgb>)
    ensures bg.None? <==> v.None?
    ensures v.Some? ==> bg == Some(ColorEnergy(v))
  {
    if v.Some? then Some(ColorEnergy(v)) else None
  }

  /**
   * With the correction a missing value is never shown like a measured one, and every
   * measured non-negative value gets a channel in [20, 220].
   */
  lemma BackgroundDistinguishesMissing(h: real, e: real)
    ensures WaveBackground(None) != WaveBackground(Some(h))
    ensures EnergyBackground(None) != EnergyBackground(Some(e))
    ensures h >= 0.0 ==> 20 <= WaveBackground(Some(h)).value.red <= 220
    ensures e >= 0.0 ==> 20 <= EnergyBackground(Some(e)).value.green <= 220
  {
  }
}
