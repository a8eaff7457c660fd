/**
 * The derived columns of one location's table (surf_forecast.py, lines 62-70): compass points,
 * arrows, wave energy and power index from the unrounded inputs, then the display rounding.
 */
module Derive {
  import opened Optional
  import opened Compass
  import opened TimeWindow
  import opened Join

  /**
   * pandas' `round(decimals)` on a value, kept abstract: the caller supplies it.
   * Binary floating point and half-to-even ties are not part of this model.
   */
  type Rounding = (real, nat) -> real

  /** A row of the final per-location table, before the column selection of the renderer. */
  datatype ForecastRow = ForecastRow(
    time: int,
    windSpeed: Option<real>, windDirection: Option<real>, airTemp: Option<real>,
    waveHeight: Option<real>, waveDirection: Option<real>, wavePeriod: Option<real>,
    windCompass: string, waveCompass: string,
    windArrow: string, waveArrow: string,
    waveEnergy: Option<real>, wavePowerIndex: Option<real>,
    location: string)

  /** The compass column: a point for a present bearing, "" for a null one (lines 62-63). */
  function CompassColumn(d: Option<real>): (c: string)
    ensures c == "" <==> d.None?
    ensures d.Some? ==> c in Points && c == Points[SectorIndex(d.value)]
  {
    match d
    case None => ""
    case Some(deg) => DegreesToCompass(deg)
  }

  /** A column rounded for display; NaN stays NaN. */
  function Rounded(x: Option<real>, decimals: nat, round: Rounding): (r: Option<real>)
    ensures r.None? <==> x.None?
    ensures x.Some? ==> r == Some(round(x.value, decimals))
  {
    match x
    case None => None
    case Some(v) => Some(round(v, decimals))
  }

  /** Wave energy 125·H²·T of height H (m) and period T (s). */
  function Energy(h: real, t: real): real {
    125.0 * h * h * t
  }

  /** Wave power index H·T. */
  function Power(h: real, t: real): real {
    h * t
  }

  /** A product of two columns: NaN when either factor is NaN. */
  function Combine(h: Option<real>, t: Option<real>, f: (real, real) -> real): (e: Option<real>)
    ensures e.None? <==> h.None? || t.None?
    ensures e.Some? ==> e.value == f(h.value, t.value)
  {
    if h.Some? && t.Some? then Some(f(h.value, t.value)) else None
  }

  /** Derives every column of one joined row for location `name`. */
  function Derive(r: Joined, name: string, round: Rounding): (f: ForecastRow)
    ensures f.time == r.time && f.location == name
    ensures f.windDirection == r.weather.windDirection && f.waveDirection == r.marine.waveDirection
    // compass and arrow columns are empty exactly when the bearing is null
    ensures f.windCompass == "" <==> r.weather.windDirection.None?
    ensures f.waveCompass == "" <==> r.marine.waveDirection.None?
    ensures f.windArrow == "" <==> r.weather.windDirection.None?
    ensures f.waveArrow == "" <==> r.marine.waveDirection.None?
    ensures r.weather.windDirection.Some? ==>
              f.windCompass == DegreesToCompass(r.weather.windDirection.value)
    ensures r.marine.waveDirection.Some? ==>
              f.waveCompass == DegreesToCompass(r.marine.waveDirection.value)
    ensures r.weather.windDirection.Some? ==>
              f.windArrow == CompassToArrow(DegreesToCompass(r.weather.windDirection.value))
    ensures r.marine.waveDirection.Some? ==>
              f.waveArrow == CompassToArrow(DegreesToCompass(r.marine.waveDirection.value))
    // energy and power are null exactly when height or period is; otherwise from the UNROUNDED inputs
    ensures f.waveEnergy.None? <==> r.marine.waveHeight.None? || r.marine.wavePeriod.None?
    ensures f.wavePowerIndex.None? <==> r.marine.waveHeight.None? || r.marine.wavePeriod.None?
    ensures f.waveEnergy.Some? ==>
              f.waveEnergy.value == round(Energy(r.marine.waveHeight.value, r.marine.wavePeriod.value), 0)
    ensures f.wavePowerIndex.Some? ==>
              f.wavePowerIndex.value == round(Power(r.marine.waveHeight.value, r.marine.wavePeriod.value), 2)
    // the four display columns are rounded to one decimal exactly once
    ensures f.windSpeed == Rounded(r.weather.windSpeed, 1, round)
    ensures f.airTemp == Rounded(r.weather.airTemp, 1, round)
    ensures f.waveHeight == Rounded(r.marine.waveHeight, 1, round)
    ensures f.wavePeriod == Rounded(r.marine.wavePeriod, 1, round)
  {
    var windCompass := CompassColumn(r.weather.windDirection);
    var waveCompass := CompassColumn(r.marine.waveDirection);
    var energy := Combine(r.marine.waveHeight, r.marine.wavePeriod, Energy);
    var power := Combine(r.marine.waveHeight, r.marine.wavePeriod, Power);
    ForecastRow(
      r.time,
      Rounded(r.weather.windSpeed, 1, round), r.weather.windDirection, Rounded(r.weather.airTemp, 1, round),
      Rounded(r.marine.waveHeight, 1, round), r.marine.waveDirection, Rounded(r.marine.wavePeriod, 1, round),
      windCompass, waveCompass,
      CompassToArrow(windCompass), CompassToArrow(waveCompass),
      Rounded(energy, 0, round), Rounded(power, 2, round),
      name)
  }

  /** One location's table: window, outer join, derived columns (lines 48-70). */
  function LocationTable(w: seq<Sample<Weather>>, m: seq<Sample<Marine>>, now: int,
                         name: string, round: Rounding): (table: seq<ForecastRow>)
    ensures |table| == |JoinWindowed(w, m, now)|
    ensures forall i :: 0 <= i < |table| ==> table[i] == Derive(JoinWindowed(w, m, now)[i], name, round)
    ensures forall i :: 0 <= i < |table| ==> table[i].location == name && InWindow(table[i].time, now)
    ensures forall i, j :: 0 <= i < j < |table| ==> table[i].time < table[j].time
  {
    var rows := JoinWindowed(w, m, now);
    var table := seq(|rows|, i requires 0 <= i < |rows| => Derive(rows[i], name, round));
    assert forall i :: 0 <= i < |rows| ==> RowTimes(rows)[i] == table[i].time;
    table
  }

  /**
   * The worked example of one hour seen by both sources: 5.0 m/s from 10 degrees, 22.3 degrees C,
   * 1.2 m waves from 190 degrees every 7.0 s give N and S, energy 1260 and power index 8.4
   * before their rounding.
   */
  lemma SingleHourExample(t: int, now: int, round: Rounding)
    requires InWindow(t, now)
    ensures var w := [Sample(t, Weather(Some(5.0), Some(10.0), Some(22.3)))];
            var m := [Sample(t, Marine(Some(1.2), Some(190.0), Some(7.0)))];
            var table := LocationTable(w, m, now, "Telde", round);
            |table| == 1 &&
            table[0].time == t &&
            table[0].windCompass == "N" && table[0].waveCompass == "S" &&
            table[0].windArrow == "↓" && table[0].waveArrow == "↑" &&
            table[0].waveEnergy == Some(round(1260.0, 0)) &&
            table[0].wavePowerIndex == Some(round(8.4, 2))
  {
    var w := [Sample(t, Weather(Some(5.0), Some(10.0), Some(22.3)))];
    var m := [Sample(t, Marine(Some(1.2), Some(190.0), Some(7.0)))];
    var rows := JoinWindowed(w, m, now);
    assert Times(w) == [t] && Times(m) == [t];
    JoinWindowedTimes(w, m, now, t);
    var fw, fm := Window(w, now), Window(m, now);
    assert fw == w && fm == m;
    assert |rows| == 1 by {
      assert t in Times(w);
      assert t in RowTimes(rows);
      forall i | 0 <= i < |rows| ensures rows[i].time == t {
        JoinWindowedTimes(w, m, now, rows[i].time);
        assert RowTimes(rows)[i] == rows[i].time;
      }
      if |rows| > 1 {
        assert RowTimes(rows)[0] == t == RowTimes(rows)[1];
      }
    }
    JoinFields(fw, fm, 0);
    SectorBoundaries(10.0, 0);
    SectorBoundaries(190.0, 4);
  }
}
