/**
 * The script's two loops over the configured locations (surf_forecast.py, lines 21-32, 37-73
 * and 84-125): build one derived table per location and concatenate them, then cut the
 * combined table back per location into one styled page, written to a path derived from the name.
 */
module Report {
  import opened Optional
  import opened Compass
  import opened TimeWindow
  import opened Derive
  import opened Style

  /** A configured spot: its name and coordinates. */
  datatype Location = Location(name: string, latitude: real, longitude: real)

  /** The location table, in the dictionary's insertion order. */
  const Locations: seq<Location> := [
    Location("Las Palmas", 28.1272, -15.4314),
    Location("Telde", 27.9924, -15.4192),
    Location("Arguineguín", 27.7581, -15.6835)
  ]

  /** Webcam markup per location name, embedded verbatim. */
  const Webcams: map<string, string> := map[
    "Las Palmas" := "<iframe src=\"https://in2thebeach.es/callbacks/camviewer_ext2.php?id=57\" scrolling=\"no\"></iframe>",
    "Telde" := "<iframe src=\"https://in2thebeach.es/callbacks/camviewer_ext2.php?id=43\" scrolling=\"no\"></iframe>",
    "Arguineguín" := "<iframe src=\"https://in2thebeach.es/callbacks/camviewer_ext2.php?id=71\" scrolling=\"no\"></iframe>"
  ]

  /** ASCII lowercasing of one character. */
  function LowerChar(c: char): (l: char)
    ensures !('A' <= l <= 'Z')
    ensures 'A' <= c <= 'Z' ==> l as int == c as int + 32
    ensures !('A' <= c <= 'Z') ==> l == c
  {
    if 'A' <= c <= 'Z' then (c as int + 32) as char else c
  }

  /** `name.lower()`, ASCII letters only. */
  function Lower(name: string): (s: string)
    ensures |s| == |name|
    ensures forall i :: 0 <= i < |name| ==> s[i] == LowerChar(name[i])
  {
    seq(|name|, i requires 0 <= i < |name| => LowerChar(name[i]))
  }

  /** `s.replace(' ', '_')`. */
  function SpacesToUnderscores(s: string): (r: string)
    ensures |r| == |s| && ' ' !in r
    ensures forall i :: 0 <= i < |s| ==> r[i] == if s[i] == ' ' then '_' else s[i]
  {
    seq(|s|, i requires 0 <= i < |s| => if s[i] == ' ' then '_' else s[i])
  }

  /** The output file stem `loc.lower().replace(' ', '_')` (line 102); accents are kept. */
  function Slug(name: string): (slug: string)
    ensures |slug| == |name|
    ensures ' ' !in slug
    ensures forall c :: c in slug ==> !('A' <= c <= 'Z')
    ensures forall i :: 0 <= i < |name| && name[i] == ' ' ==> slug[i] == '_'
    ensures forall i :: 0 <= i < |name| && 'A' <= name[i] <= 'Z' ==> slug[i] == LowerChar(name[i])
    ensures forall i :: 0 <= i < |name| && name[i] != ' ' && !('A' <= name[i] <= 'Z') ==> slug[i] == name[i]
  {
    SpacesToUnderscores(Lower(name))
  }

  /** The file a location's page is written to. */
  function OutputPath(name: string): string
  {
    "docs/" + Slug(name) + ".html"
  }

  /** Slugging a slug changes nothing. */
  lemma SlugIdempotent(name: string)
    ensures Slug(Slug(name)) == Slug(name)
  {
  }

  /** The slug is not one-to-one: a space and an underscore, or two cases, give the same file. */
  lemma SlugCollisions()
    ensures Slug("Playa Chica") == Slug("playa_chica")
    ensures OutputPath("Telde") == OutputPath("TELDE")
  {
  }

  /** No two locations share a name. */
  ghost predicate NamesDistinct(locs: seq<Location>) {
    forall i, j :: 0 <= i < j < |locs| ==> locs[i].name != locs[j].name
  }

  /** The configured slugs; they differ, so no page overwrites another. */
  lemma ConfiguredLocations()
    ensures NamesDistinct(Locations)
    ensures forall loc :: loc in Locations ==> loc.name in Webcams
    ensures Slug("Las Palmas") == "las_palmas"
    ensures Slug("Telde") == "telde"
    ensures Slug("Arguineguín") == "arguineguín"
    ensures forall i, j :: 0 <= i < j < |Locations| ==> OutputPath(Locations[i].name) != OutputPath(Locations[j].name)
  {
    assert Lower("Las Palmas") == "las palmas";
    assert Lower("Telde") == "telde";
    assert Lower("Arguineguín") == "arguineguín";
    assert SpacesToUnderscores("las palmas") == "las_palmas";
    assert SpacesToUnderscores("telde") == "telde";
    assert SpacesToUnderscores("arguineguín") == "arguineguín";
  }

  /** What one iteration of the first loop takes from outside: both parsed responses and the clock. */
  datatype Fetched = Fetched(weather: seq<Sample<Weather>>, marine: seq<Sample<Marine>>, now: int)

  /** The derived table of one location (one `df` of the first loop). */
  function TableOf(loc: Location, input: Fetched, round: Rounding): (table: seq<ForecastRow>)
    ensures forall i :: 0 <= i < |table| ==> table[i].location == loc.name
  {
    LocationTable(input.weather, input.marine, input.now, loc.name, round)
  }

  /** `pd.concat(dfs)`: the tables one after another. */
  function Concat(tables: seq<seq<ForecastRow>>): (all: seq<ForecastRow>)
  {
    if tables == [] then [] else Concat(tables[..|tables| - 1]) + tables[|tables| - 1]
  }

  /** `df_all[df_all["Location"] == loc]`: the rows of one location, in order. */
  function SelectLocation(all: seq<ForecastRow>, name: string): (rows: seq<ForecastRow>)
    ensures |rows| <= |all|
    ensures forall i :: 0 <= i < |rows| ==> rows[i].location == name && rows[i] in all
  {
    if all == [] then []
    else if all[0].location == name then [all[0]] + SelectLocation(all[1..], name)
    else SelectLocation(all[1..], name)
  }

  /** Selection distributes over concatenation. */
  lemma {:induction false} SelectAppend(a: seq<ForecastRow>, b: seq<ForecastRow>, name: string)
    ensures SelectLocation(a + b, name) == SelectLocation(a, name) + SelectLocation(b, name)
  {
    if a == [] {
      assert a + b == b;
    } else {
      assert (a + b)[0] == a[0] && (a + b)[1..] == a[1..] + b;
      SelectAppend(a[1..], b, name);
    }
  }

  /** A table whose rows all carry `name` is selected whole; one with none of them not at all. */
  lemma {:induction false} SelectUniform(t: seq<ForecastRow>, name: string)
    ensures (forall i :: 0 <= i < |t| ==> t[i].location == name) ==> SelectLocation(t, name) == t
    ensures (forall i :: 0 <= i < |t| ==> t[i].location != name) ==> SelectLocation(t, name) == []
  {
    if t != [] {
      SelectUniform(t[1..], name);
      assert forall i :: 1 <= i < |t| ==> t[1..][i - 1] == t[i];
    }
  }

  /** Table k's rows all carry name k (line 70). */
  ghost predicate Tagged(names: seq<string>, tables: seq<seq<ForecastRow>>)
    requires |names| == |tables|
  {
    forall k, i :: 0 <= k < |tables| && 0 <= i < |tables[k]| ==> tables[k][i].location == names[k]
  }

  /**
   * Cutting the concatenation back by location returns each location's own table, provided
   * the names are distinct and every table is tagged with its own name.
   */
  lemma {:induction false} SelectConcat(names: seq<string>, tables: seq<seq<ForecastRow>>, j: int)
    requires |names| == |tables| && Tagged(names, tables)
    requires forall a, b :: 0 <= a < b < |names| ==> names[a] != names[b]
    requires 0 <= j < |names|
    ensures SelectLocation(Concat(tables), names[j]) == tables[j]
  {
    var n := |tables| - 1;
    var front, last := tables[..n], tables[n];
    assert Concat(tables) == Concat(front) + last;
    assert Tagged(names[..n], front);
    SelectAppend(Concat(front), last, names[j]);
    if j == n {
      SelectUniform(last, names[j]);
      assert names[j] !in names[..n];
      ConcatOthers(names[..n], front, names[j]);
    } else {
      assert forall i :: 0 <= i < |last| ==> last[i].location != names[j];
      SelectUniform(last, names[j]);
      SelectConcat(names[..n], front, j);
    }
  }

  /** No row of tables tagged with other names is selected. */
  lemma {:induction false} ConcatOthers(names: seq<string>, tables: seq<seq<ForecastRow>>, name: string)
    requires |names| == |tables| && Tagged(names, tables)
    requires name !in names
    ensures SelectLocation(Concat(tables), name) == []
  {
    if tables != [] {
      var n := |tables| - 1;
      var front, last := tables[..n], tables[n];
      assert Concat(tables) == Concat(front) + last;
      assert Tagged(names[..n], front);
      SelectAppend(Concat(front), last, name);
      assert forall i :: 0 <= i < |last| ==> last[i].location != name;
      SelectUniform(last, name);
      ConcatOthers(names[..n], front, name);
    }
  }

  /** The tables the first loop builds, one per location. */
  function Tables(locs: seq<Location>, inputs: seq<Fetched>, round: Rounding): (tables: seq<seq<ForecastRow>>)
    requires |inputs| == |locs|
    ensures |tables| == |locs|
  {
    seq(|locs|, j requires 0 <= j < |locs| => TableOf(locs[j], inputs[j], round))
  }

  /**
   * The first loop (lines 37-73): one table per location, appended to `dfs`, then concatenated.
   * Cutting the result by a location's name gives back exactly that location's table.
   */
  method BuildAll(locs: seq<Location>, inputs: seq<Fetched>, round: Rounding) returns (all: seq<ForecastRow>)
    requires |inputs| == |locs|
    ensures all == Concat(Tables(locs, inputs, round))
    ensures NamesDistinct(locs) ==>
              forall j :: 0 <= j < |locs| ==> SelectLocation(all, locs[j].name) == TableOf(locs[j], inputs[j], round)
  {
    var dfs: seq<seq<ForecastRow>> := [];
    var i := 0;
    while i < |locs|
      invariant 0 <= i <= |locs|
      invariant dfs == Tables(locs[..i], inputs[..i], round)
    {
      var df := TableOf(locs[i], inputs[i], round);
      dfs := dfs + [df];
      i := i + 1;
    }
    assert locs[..i] == locs && inputs[..i] == inputs;
    all := Concat(dfs);
    if NamesDistinct(locs) {
      var names := seq(|locs|, j requires 0 <= j < |locs| => locs[j].name);
      forall j | 0 <= j < |locs|
        ensures SelectLocation(all, locs[j].name) == TableOf(locs[j], inputs[j], round)
      {
        SelectConcat(names, dfs, j);
      }
    }
  }

  /** The nine columns the page shows, in order (lines 85-89). */
  datatype DisplayRow = DisplayRow(
    time: int,
    windSpeed: Option<real>, windArrow: string, airTemp: Option<real>,
    waveHeight: Option<real>, waveArrow: string,
    wavePeriod: Option<real>, wavePowerIndex: Option<real>, waveEnergy: Option<real>)

  /** The column selection of one row. */
  function Display(f: ForecastRow): (d: DisplayRow)
    ensures d.time == f.time && d.windArrow == f.windArrow && d.waveArrow == f.waveArrow
    ensures d.waveHeight == f.waveHeight && d.waveEnergy == f.waveEnergy
    ensures d.windSpeed == f.windSpeed && d.airTemp == f.airTemp
    ensures d.wavePeriod == f.wavePeriod && d.wavePowerIndex == f.wavePowerIndex
  {
    DisplayRow(f.time, f.windSpeed, f.windArrow, f.airTemp, f.waveHeight, f.waveArrow,
               f.wavePeriod, f.wavePowerIndex, f.waveEnergy)
  }

  /** A displayed row with the style of each styled cell (lines 96-98). */
  datatype StyledRow = StyledRow(
    row: DisplayRow, windArrowCss: string, waveArrowCss: string,
    waveHeightBg: Option<Rgb>, waveEnergyBg: Option<Rgb>)

  /** Styles one row: both arrow cells highlighted, height and energy tinted when present. */
  function StyleRow(d: DisplayRow): (s: StyledRow)
    ensures s.row == d
    ensures s.windArrowCss == Highlight && s.waveArrowCss == Highlight
    ensures s.waveHeightBg.None? <==> d.waveHeight.None?
    ensures s.waveEnergyBg.None? <==> d.waveEnergy.None?
    ensures d.waveHeight.Some? ==> s.waveHeightBg == Some(ColorWave(d.waveHeight))
    ensures d.waveEnergy.Some? ==> s.waveEnergyBg == Some(ColorEnergy(d.waveEnergy))
    ensures d.waveHeight.Some? && d.waveHeight.value >= 0.0 ==> 20 <= s.waveHeightBg.value.red <= 220
    ensures d.waveEnergy.Some? && d.waveEnergy.value >= 0.0 ==> 20 <= s.waveEnergyBg.value.green <= 220
  {
    StyledRow(d, HighlightDirection(Text(d.windArrow)), HighlightDirection(Text(d.waveArrow)),
              WaveBackground(d.waveHeight), EnergyBackground(d.waveEnergy))
  }

  /** The styled table of a page. */
  function StyledTable(rows: seq<ForecastRow>): (t: seq<StyledRow>)
    ensures |t| == |rows|
    ensures forall i :: 0 <= i < |rows| ==> t[i] == StyleRow(Display(rows[i]))
  {
    seq(|rows|, i requires 0 <= i < |rows| => StyleRow(Display(rows[i])))
  }

  /** What one page holds: where it goes, its title, the webcam markup and the styled table. */
  datatype Page = Page(path: string, title: string, webcam: string, rows: seq<StyledRow>)

  /** The second loop (lines 84-125): one page per location, from that location's rows only. */
  method RenderAll(locs: seq<Location>, webcams: map<string, string>, all: seq<ForecastRow>)
    returns (pages: seq<Page>)
    requires forall k :: 0 <= k < |locs| ==> locs[k].name in webcams
    ensures |pages| == |locs|
    ensures forall j :: 0 <= j < |locs| ==>
              pages[j].path == OutputPath(locs[j].name) &&
              pages[j].title == "Surf Forecast " + locs[j].name &&
              pages[j].webcam == webcams[locs[j].name] &&
              pages[j].rows == StyledTable(SelectLocation(all, locs[j].name))
  {
    pages := [];
    for i := 0 to |locs|
      invariant |pages| == i
      invariant forall j :: 0 <= j < i ==>
                  pages[j].path == OutputPath(locs[j].name) &&
                  pages[j].title == "Surf Forecast " + locs[j].name &&
                  pages[j].webcam == webcams[locs[j].name] &&
                  pages[j].rows == StyledTable(SelectLocation(all, locs[j].name))
    {
      var loc := locs[i].name;
      var page := Page(OutputPath(loc), "Surf Forecast " + loc, webcams[loc],
                       StyledTable(SelectLocation(all, loc)));
      pages := pages + [page];
    }
  }

  /**
   * The whole script over the configured locations, given what each iteration fetched and read
   * from the clock: every page shows exactly its own location's derived table.
   */
  method Run(inputs: seq<Fetched>, round: Rounding) returns (pages: seq<Page>)
    requires |inputs| == |Locations|
    ensures |pages| == |Locations|
    ensures forall j :: 0 <= j < |Locations| ==>
              pages[j].path == OutputPath(Locations[j].name) &&
              pages[j].title == "Surf Forecast " + Locations[j].name &&
              pages[j].webcam == Webcams[Locations[j].name] &&
              pages[j].rows == StyledTable(TableOf(Locations[j], inputs[j], round))
  {
    ConfiguredLocations();
    var all := BuildAll(Locations, inputs, round);
    pages := RenderAll(Locations, Webcams, all);
  }
}
