/**
 * Forecast samples and the rolling 24-hour window (surf_forecast.py, lines 48-51).
 * Timestamps are integers counting microseconds on the same local clock as `now`.
 */
module TimeWindow {
  import opened Optional

  /** 24 hours, `pd.Timedelta(hours=24)`, in microseconds. */
  const Day: int := 24 * 60 * 60 * 1000000

  /** One hourly record of an upstream source: its time and that source's fields. */
  datatype Sample<F> = Sample(time: int, fields: F)

  /** The atmospheric source's fields; a JSON null is None. */
  datatype Weather = Weather(windSpeed: Option<real>, windDirection: Option<real>, airTemp: Option<real>)

  /** The marine source's fields; a JSON null is None. */
  datatype Marine = Marine(waveHeight: Option<real>, waveDirection: Option<real>, wavePeriod: Option<real>)

  /** The mask `(time >= now) & (time < now + 24h)`. */
  predicate InWindow(t: int, now: int) {
    now <= t < now + Day
  }

  /** The boolean-mask selection: the samples inside the window, in their original order. */
  function Window<F>(s: seq<Sample<F>>, now: int): (r: seq<Sample<F>>)
    ensures |r| <= |s|
    ensures forall x :: x in r ==> x in s && InWindow(x.time, now)
    ensures forall x :: x in s && InWindow(x.time, now) ==> x in r
  {
    if s == [] then []
    else if InWindow(s[0].time, now) then [s[0]] + Window(s[1..], now)
    else Window(s[1..], now)
  }

  /** `r` is `s` with some elements dropped and the rest in their original order. */
  ghost predicate Subsequence<T>(r: seq<T>, s: seq<T>)
    decreases |s|
  {
    if r == [] then true
    else if s == [] then false
    else (r[0] == s[0] && Subsequence(r[1..], s[1..])) || Subsequence(r, s[1..])
  }

  /** No two samples share a timestamp. */
  ghost predicate DistinctTimes<F>(s: seq<Sample<F>>) {
    forall i, j :: 0 <= i < j < |s| ==> s[i].time != s[j].time
  }

  /** The window keeps every in-window sample as often as it occurs and drops every other one. */
  lemma {:induction false} WindowCounts<F>(s: seq<Sample<F>>, now: int, x: Sample<F>)
    ensures multiset(Window(s, now))[x] == if InWindow(x.time, now) then multiset(s)[x] else 0
  {
    if s != [] {
      WindowCounts(s[1..], now, x);
      assert s == [s[0]] + s[1..];
      assert multiset(s) == multiset([s[0]]) + multiset(s[1..]);
    }
  }

  /** The window preserves the relative order of the samples it keeps. */
  lemma {:induction false} WindowKeepsOrder<F>(s: seq<Sample<F>>, now: int)
    ensures Subsequence(Window(s, now), s)
  {
    if s != [] {
      WindowKeepsOrder(s[1..], now);
      var r := Window(s, now);
      if InWindow(s[0].time, now) {
        assert r[0] == s[0] && r[1..] == Window(s[1..], now);
      }
    }
  }

  /** A subsequence of a sequence with distinct timestamps has distinct timestamps. */
  lemma {:induction false} SubsequenceDistinct<F>(r: seq<Sample<F>>, s: seq<Sample<F>>)
    requires Subsequence(r, s)
    requires DistinctTimes(s)
    ensures DistinctTimes(r)
    ensures forall x :: x in r ==> x in s
    decreases |s|
  {
    if r != [] {
      if r[0] == s[0] && Subsequence(r[1..], s[1..]) {
        SubsequenceDistinct(r[1..], s[1..]);
        forall j | 0 < j < |r| ensures r[0].time != r[j].time {
          assert r[j] in r[1..];
          var k :| 0 <= k < |s[1..]| && s[1..][k] == r[j];
          assert s[k + 1] == r[j];
        }
        forall i, j | 0 <= i < j < |r| ensures r[i].time != r[j].time {
          if i > 0 {
            assert r[1..][i - 1] == r[i] && r[1..][j - 1] == r[j];
          }
        }
        forall x | x in r ensures x in s {
          if x != r[0] {
            assert x in r[1..];
          }
        }
      } else {
        SubsequenceDistinct(r, s[1..]);
      }
    }
  }

  /** Filtering a source whose hours are distinct yields distinct hours. */
  lemma WindowDistinct<F>(s: seq<Sample<F>>, now: int)
    requires DistinctTimes(s)
    ensures DistinctTimes(Window(s, now))
  {
    WindowKeepsOrder(s, now);
    SubsequenceDistinct(Window(s, now), s);
  }

  /** The window is half-open: `now` is in, `now + 24h` is out, one minute before it is in. */
  lemma WindowEdges<F>(now: int, f: F)
    ensures Window([Sample(now, f)], now) == [Sample(now, f)]
    ensures Window([Sample(now + Day, f)], now) == []
    ensures Window([Sample(now + Day - 60 * 1000000, f)], now) == [Sample(now + Day - 60 * 1000000, f)]
    ensures Window([Sample(now - 1, f)], now) == []
  {
  }
}
