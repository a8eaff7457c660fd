/**
 * The full outer join of the two filtered sources on `time`, sorted by time
 * (`pd.merge(..., on="time", how="outer").sort_values("time")`, surf_forecast.py line 53).
 */
module Join {
  import opened Optional
  import opened TimeWindow

  /** One joined hour: a side without a sample for that hour contributes only nulls. */
  datatype Joined = Joined(time: int, weather: Weather, marine: Marine)

  const NoWeather: Weather := Weather(None, None, None)
  const NoMarine: Marine := Marine(None, None, None)

  /** Strictly increasing, hence also free of repeats. */
  predicate Ascending(ts: seq<int>) {
    forall i, j :: 0 <= i < j < |ts| ==> ts[i] < ts[j]
  }

  /** The `time` column of a source. */
  function Times<F>(s: seq<Sample<F>>): (ts: seq<int>)
    ensures |ts| == |s|
    ensures forall i :: 0 <= i < |s| ==> ts[i] == s[i].time
  {
    seq(|s|, i requires 0 <= i < |s| => s[i].time)
  }

  /** Adds `t` to an ascending key list unless it is already there. */
  function Insert(t: int, ts: seq<int>): (r: seq<int>)
    requires Ascending(ts)
    ensures Ascending(r)
    ensures forall u :: u in r <==> u == t || u in ts
  {
    if ts == [] then [t]
    else if t < ts[0] then [t] + ts
    else if t == ts[0] then ts
    else
      var rest := Insert(t, ts[1..]);
      assert forall u :: u in rest ==> ts[0] < u;
      assert forall k :: 0 <= k < |rest| ==> rest[k] in rest;
      [ts[0]] + rest
  }

  /** The distinct keys of `ts`, ascending: the key column of an outer join after sorting. */
  function SortedKeys(ts: seq<int>): (r: seq<int>)
    ensures Ascending(r)
    ensures forall u :: u in r <==> u in ts
  {
    if ts == [] then []
    else
      var rest := SortedKeys(ts[..|ts| - 1]);
      assert forall u :: u in ts <==> u in ts[..|ts| - 1] || u == ts[|ts| - 1] by {
        assert ts == ts[..|ts| - 1] + [ts[|ts| - 1]];
      }
      Insert(ts[|ts| - 1], rest)
  }

  /** The fields of the first sample at time `t`, if any. */
  function Find<F>(s: seq<Sample<F>>, t: int): (o: Option<F>)
    ensures o.None? <==> t !in Times(s)
    ensures o.Some? ==> Sample(t, o.value) in s
  {
    if s == [] then None
    else if s[0].time == t then Some(s[0].fields)
    else
      assert Times(s) == [s[0].time] + Times(s[1..]);
      Find(s[1..], t)
  }

  /** The joined row for key `t`. */
  function JoinAt(w: seq<Sample<Weather>>, m: seq<Sample<Marine>>, t: int): (row: Joined)
    ensures row.time == t
    ensures t !in Times(w) ==> row.weather == NoWeather
    ensures t !in Times(m) ==> row.marine == NoMarine
    ensures t in Times(w) ==> Sample(t, row.weather) in w
    ensures t in Times(m) ==> Sample(t, row.marine) in m
  {
    var wf := match Find(w, t) case Some(f) => f case None => NoWeather;
    var mf := match Find(m, t) case Some(f) => f case None => NoMarine;
    Joined(t, wf, mf)
  }

  /**
   * The time column of a joined table. A joined row is not a `Sample` (it carries both sides),
   * so this is the counterpart of `Times` for the join's output rather than the same function.
   */
  function RowTimes(rows: seq<Joined>): (ts: seq<int>)
    ensures |ts| == |rows|
    ensures forall i :: 0 <= i < |rows| ==> ts[i] == rows[i].time
  {
    seq(|rows|, i requires 0 <= i < |rows| => rows[i].time)
  }

  /** Full outer join on time, sorted ascending by time. */
  function OuterJoin(w: seq<Sample<Weather>>, m: seq<Sample<Marine>>): (rows: seq<Joined>)
    ensures Ascending(RowTimes(rows))
    ensures forall t :: t in RowTimes(rows) <==> t in Times(w) || t in Times(m)
  {
    var keys := SortedKeys(Times(w) + Times(m));
    var rows := seq(|keys|, i requires 0 <= i < |keys| => JoinAt(w, m, keys[i]));
    assert RowTimes(rows) == keys;
    rows
  }

  /** Every timestamp of either side appears exactly once, and no other timestamp appears. */
  lemma JoinExactlyOnce(w: seq<Sample<Weather>>, m: seq<Sample<Marine>>, t: int)
    ensures (exists i :: 0 <= i < |OuterJoin(w, m)| && OuterJoin(w, m)[i].time == t)
            <==> t in Times(w) || t in Times(m)
    ensures forall i, j ::
              (0 <= i < |OuterJoin(w, m)| && 0 <= j < |OuterJoin(w, m)| &&
               OuterJoin(w, m)[i].time == t && OuterJoin(w, m)[j].time == t) ==> i == j
  {
    var rows := OuterJoin(w, m);
    var ts := RowTimes(rows);
    if t in Times(w) || t in Times(m) {
      var i :| 0 <= i < |ts| && ts[i] == t;
      assert rows[i].time == t;
    }
    forall i, j | 0 <= i < |rows| && 0 <= j < |rows| && rows[i].time == t && rows[j].time == t
      ensures i == j
    {
      assert ts[i] == t && ts[j] == t;
    }
  }

  /**
   * Each row carries the sample of each side with that timestamp, or nulls for a side that
   * has none. With distinct timestamps per side the sample is the only one with that time.
   */
  lemma JoinFields(w: seq<Sample<Weather>>, m: seq<Sample<Marine>>, i: int)
    requires DistinctTimes(w) && DistinctTimes(m)
    requires 0 <= i < |OuterJoin(w, m)|
    ensures forall k :: 0 <= k < |w| && w[k].time == OuterJoin(w, m)[i].time ==> OuterJoin(w, m)[i].weather == w[k].fields
    ensures forall k :: 0 <= k < |m| && m[k].time == OuterJoin(w, m)[i].time ==> OuterJoin(w, m)[i].marine == m[k].fields
    ensures OuterJoin(w, m)[i].time !in Times(w) ==> OuterJoin(w, m)[i].weather == NoWeather
    ensures OuterJoin(w, m)[i].time !in Times(m) ==> OuterJoin(w, m)[i].marine == NoMarine
  {
  }

  /** The window followed by the join (lines 49-53). */
  function JoinWindowed(w: seq<Sample<Weather>>, m: seq<Sample<Marine>>, now: int): (rows: seq<Joined>)
    ensures forall i :: 0 <= i < |rows| ==> InWindow(rows[i].time, now)
  {
    var rows := OuterJoin(Window(w, now), Window(m, now));
    forall i | 0 <= i < |rows| ensures InWindow(rows[i].time, now) {
      assert RowTimes(rows)[i] == rows[i].time;
      assert rows[i].time in Times(Window(w, now)) || rows[i].time in Times(Window(m, now));
    }
    rows
  }

  /**
   * A timestamp appears in the windowed join exactly when some sample of either source has it
   * and it lies inside the window; a source with no hours in the window only contributes nulls.
   */
  lemma JoinWindowedTimes(w: seq<Sample<Weather>>, m: seq<Sample<Marine>>, now: int, t: int)
    ensures t in RowTimes(JoinWindowed(w, m, now)) <==>
              InWindow(t, now) && (t in Times(w) || t in Times(m))
  {
  }

  /** With no hour of either source inside the window the table is empty, not an error. */
  lemma JoinWindowedEmpty(w: seq<Sample<Weather>>, m: seq<Sample<Marine>>, now: int)
    requires forall k :: 0 <= k < |w| ==> !InWindow(w[k].time, now)
    requires forall k :: 0 <= k < |m| ==> !InWindow(m[k].time, now)
    ensures JoinWindowed(w, m, now) == []
  {
  }
}
