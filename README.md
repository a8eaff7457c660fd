# Surf forecast: a Dafny model of the per-location forecast pipeline

`surf_forecast.py` fetches an hourly atmospheric forecast and an hourly marine forecast for
three spots on Gran Canaria. It keeps the next 24 hours of each, outer-joins them on the hour
and derives compass points, arrow glyphs, wave energy and a wave power index. It then writes
one styled HTML page per spot. This project models the deterministic part of that script:

- `compass.dfy` (module `Compass`): `degrees_to_compass` and `compass_to_arrow`.
- `window.dfy` (module `TimeWindow`): the sample records and the half-open window `[now, now + 24h)`.
- `join.dfy` (module `Join`): the full outer join on `time`, sorted by time.
- `derive.dfy` (module `Derive`): the derived columns and the display rounding of one table.
- `style.dfy` (module `Style`): `highlight_direction`, `color_wave` and `color_energy`.
- `report.dfy` (module `Report`): the location and webcam tables, the output slug, and the two
  loops over locations. The first loop builds and concatenates the tables. The second cuts
  the combined table back per location into one page each.
- `optional.dfy` (module `Optional`): `Option`. A NaN cell in pandas is `None` here.

Numbers are Dafny `real`s and timestamps are integers counting microseconds. The clock
reading `now` is a parameter of every location, because the script reads the clock again in
each iteration. pandas' `round` is a parameter `round: (real, nat) -> real`, kept abstract.

Some behaviour of the script that a reader might expect to be otherwise, modelled as the code has it:

- The slug keeps accents: `Arguineguín` is written to `docs/arguineguín.html`, not stripped to ASCII.
- `highlight_direction` styles every string cell, so an empty arrow cell is highlighted too.
- The page title is `Surf Forecast <name>`.
- For H = 1.5 m and T = 8 s the energy before rounding is 125 · 2.25 · 8 = 2250.

## Model

| member | source | states |
|---|---|---|
| `Compass.SectorIndex` | surf_forecast.py:10 | the sector index `floor((deg + 22.5) / 45) mod 8` lies in [0, 8) for every real bearing, negative ones included |
| `Compass.DegreesToCompass` | surf_forecast.py:8-11 | total: every bearing maps to one of N, NE, E, SE, S, SW, W, NW |
| `Compass.PointsDistinct` | surf_forecast.py:9 | the eight compass points are pairwise distinct |
| `Compass.SectorBoundaries` | surf_forecast.py:9-11 | a bearing in [45k - 22.5, 45k + 22.5) maps to point k mod 8, for every integer k |
| `Compass.CompassIsSector` | surf_forecast.py:9-11 | both directions: a bearing maps to point i exactly when it lies in some sector k with k mod 8 = i |
| `Compass.Periodic` | surf_forecast.py:10 | period 360: `compass(deg + 360) == compass(deg)` |
| `Compass.CompassExamples` | surf_forecast.py:8-11 | 0 and 22.4 give N, 22.5 gives NE, 360 gives N, -22.5 gives N, -22.6 gives NW, 190 gives S |
| `Compass.CompassToArrow` | surf_forecast.py:13-18 | a single-glyph arrow for each of the eight points and `""` for every other key |
| `Compass.ArrowPointsAway` | surf_forecast.py:14-17 | each point's glyph points towards the opposite point, checked against an independent table of headings |
| `Compass.ArrowInjective` | surf_forecast.py:14-17 | different points get different glyphs |
| `Compass.ArrowOfBearing` | surf_forecast.py:8-18 | every bearing gets a non-empty arrow, and a full turn gives the same arrow |
| `TimeWindow.Window` | surf_forecast.py:49-51 | keeps exactly the samples with `now <= time < now + 24h` |
| `TimeWindow.WindowCounts` | surf_forecast.py:49-51 | each in-window sample is kept as many times as it occurs, and every other sample is dropped |
| `TimeWindow.WindowKeepsOrder` | surf_forecast.py:50-51 | the kept samples are a subsequence of the input: relative order is preserved |
| `TimeWindow.WindowDistinct` | surf_forecast.py:50-51 | a source with distinct hours still has distinct hours after the window |
| `TimeWindow.WindowEdges` | surf_forecast.py:48-51 | a sample at `now` is kept, one at `now + 24h` is dropped, one a minute earlier is kept, one before `now` is dropped |
| `Join.SortedKeys` | surf_forecast.py:53 | the join's key column is strictly ascending and holds exactly the keys of the input |
| `Join.Find` | surf_forecast.py:53 | finds a sample with the given time exactly when the source has that time |
| `Join.JoinAt` | surf_forecast.py:53 | a joined row carries a side's sample for its time, or all nulls for a side lacking that time |
| `Join.OuterJoin` | surf_forecast.py:53 | times strictly ascending; a time appears exactly when one side or the other has it |
| `Join.JoinExactlyOnce` | surf_forecast.py:53 | every timestamp of either side appears in exactly one row, and no other timestamp appears |
| `Join.JoinFields` | surf_forecast.py:53 | with distinct times per side, a row holds the fields of the sample with its time, and nulls for a side lacking it |
| `Join.JoinWindowed` | surf_forecast.py:48-53 | every row of the windowed join lies inside the window |
| `Join.JoinWindowedTimes` | surf_forecast.py:48-53 | a time appears in the windowed join exactly when it is in the window and some sample of either side has it |
| `Join.JoinWindowedEmpty` | surf_forecast.py:48-53 | with no hour of either source in the window the table is empty, not an error |
| `Derive.CompassColumn` | surf_forecast.py:62-63 | the compass column is `""` exactly when the bearing is null, and the bearing's point otherwise |
| `Derive.Rounded` | surf_forecast.py:68-69 | display rounding keeps a null null and rounds a present value to the given decimals |
| `Derive.Combine` | surf_forecast.py:66-67 | a product of two columns is null exactly when either factor is null |
| `Derive.Derive` | surf_forecast.py:62-70 | compass and arrow are `""` exactly when their bearing is null, and otherwise the bearing's `degrees_to_compass` point and that point's arrow; energy and power are null exactly when height or period is, and otherwise are `round(125·H²·T, 0)` and `round(H·T, 2)` of the unrounded H and T; the four display columns are rounded once to one decimal; directions unchanged; location tagged |
| `Derive.LocationTable` | surf_forecast.py:48-70 | one derived row per joined row, all tagged with the location, all inside the window, times strictly ascending |
| `Derive.SingleHourExample` | surf_forecast.py:48-67 | one hour from both sources (10 and 190 degrees, 1.2 m, 7.0 s) gives one row with N, S, their arrows, energy `round(1260, 0)` and power `round(8.4, 2)` |
| `Style.HighlightDirection` | surf_forecast.py:75-76 | every string cell, the empty string included, gets the highlight; no other cell does |
| `Style.Trunc` | surf_forecast.py:78 | Python's `int()` truncates toward zero |
| `Style.PyMin` | surf_forecast.py:78 | Python's `min(a, b)` returns `a` when `b` is NaN, and otherwise the smaller value |
| `Style.WaveChannel` | surf_forecast.py:77-78 | the `color_wave` channel is at least 20 for every input, NaN included, and at most 220 for a non-negative height |
| `Style.EnergyChannel` | surf_forecast.py:80-81 | the `color_energy` channel is at least 20 for every input, and at most 220 for non-negative energy |
| `Style.ColorWave` | surf_forecast.py:77-79 | a blue tint `rgb(c, c, 255)` whose c is the `color_wave` channel, in [20, 220] for a non-negative height |
| `Style.ColorEnergy` | surf_forecast.py:80-82 | a warm tint `rgb(255, c, 150)` whose c is the `color_energy` channel, in [20, 220] for non-negative energy |
| `Style.WaveChannelMonotone` | surf_forecast.py:78 | the wave channel never increases as the height grows |
| `Style.EnergyChannelMonotone` | surf_forecast.py:81 | the energy channel never increases as the energy grows |
| `Style.ChannelExamples` | surf_forecast.py:77-82 | heights 0, 1.5, 4 and 10 give 220, 145, 20 and 20; energies 0, 400, 800 and 1260 give 220, 120, 20 and 20 |
| `Style.MissingValueGetsDeepestTint` | surf_forecast.py:77-82 | as written, a NaN height or energy gets the same deepest tint as a 4 m wave or 800 kJ/m² |
| `Style.WaveBackground` | surf_forecast.py:77-79 | corrected: no background for a missing height, `color_wave`'s otherwise |
| `Style.EnergyBackground` | surf_forecast.py:80-82 | corrected: no background for missing energy, `color_energy`'s otherwise |
| `Style.BackgroundDistinguishesMissing` | surf_forecast.py:77-82 | corrected: a missing value never looks like a measured one, and measured non-negative values get a channel in [20, 220] |
| `Report.LowerChar` | surf_forecast.py:102 | lowercases A-Z by 32 code points and leaves every other character alone |
| `Report.Lower` | surf_forecast.py:102 | `lower()` keeps the length and lowercases each character |
| `Report.SpacesToUnderscores` | surf_forecast.py:102 | `replace(' ', '_')` keeps the length and leaves no space |
| `Report.Slug` | surf_forecast.py:102 | the slug has the name's length and no spaces; A-Z become a-z and spaces become `_`; accents and every other character are kept |
| `Report.SlugIdempotent` | surf_forecast.py:102 | slugging a slug changes nothing |
| `Report.SlugCollisions` | surf_forecast.py:102 | the slug is not one-to-one: `Playa Chica` and `playa_chica`, `Telde` and `TELDE` share a file |
| `Report.ConfiguredLocations` | surf_forecast.py:21-32 | the three names are distinct and each has a webcam; their slugs are `las_palmas`, `telde` and `arguineguín`; their output paths are pairwise distinct |
| `Report.TableOf` | surf_forecast.py:39-70 | every row of a location's table carries that location's name |
| `Report.SelectLocation` | surf_forecast.py:85 | selecting by location yields only rows of that location, drawn from the combined table |
| `Report.SelectAppend` | surf_forecast.py:73 | selection distributes over concatenation |
| `Report.SelectConcat` | surf_forecast.py:70-85 | with distinct names, selecting one location from the concatenation returns exactly that location's table |
| `Report.BuildAll` | surf_forecast.py:37-73 | the first loop returns the concatenation of the per-location tables; with distinct names, selecting any location from it returns that location's table |
| `Report.Display` | surf_forecast.py:85-89 | the nine shown columns (time, wind speed, wind arrow, air temperature, wave height, wave arrow, wave period, power index, energy) are those of the derived row |
| `Report.StyleRow` | surf_forecast.py:96-98 | both arrow cells highlighted; a height or energy background exactly when the value is present, and then it is `color_wave` of the height and `color_energy` of the energy, with channel in [20, 220] for non-negative values |
| `Report.StyledTable` | surf_forecast.py:85-100 | one styled row per selected row, in order |
| `Report.RenderAll` | surf_forecast.py:84-125 | one page per location, at its slug path, with its title and webcam, showing the styled rows of that location only |
| `Report.Run` | surf_forecast.py:37-125 | over the configured locations, every page has its slug path, title `Surf Forecast <name>` and webcam, and its rows are exactly the styled derived table of its own location |

## Left out

- The HTTP requests and JSON decoding (surf_forecast.py:40-46) are network I/O. Their parsed result is the input `Report.Fetched`.
- `datetime.now()` (line 48) is a clock. Each location's clock reading is a field of `Report.Fetched`.
- Time zones are not modelled. The API's times are naive local times of each spot, and `now` is the machine's local time. The model puts both on one integer clock.
- The column renames (lines 54-61) carry no behaviour. The model's field names stand for the renamed columns.
- Row labels are not modelled. Line 73's `reset_index(drop=True)` overrides line 53's and numbers the combined table's rows 0, 1, 2, … across all locations. Line 85's selection keeps those labels, so the index column that `to_html` (line 100) prints on a later location's page continues from the earlier locations' rows instead of starting at 0. The model leaves this out with the rest of the rendering.
- pandas `round` is kept abstract as a parameter: binary floating point and half-to-even ties are not modelled. The `{:.1f}` and `{:.0f}` cell formatting (lines 90-95) is left out too.
- Floating-point arithmetic in `degrees_to_compass`, energy and power is modelled over exact reals.
- `Report.LowerChar`: does not model Unicode-aware `lower()`. Only A-Z are lowercased, which agrees with Python on the three configured names.
- `Join.Find`: does not model the cross product `pd.merge` makes for a timestamp repeated on one side. It takes the first sample, and the join lemmas assume distinct times per side.
- Style rendering is not modelled: Styler's `to_html`, the CSS text `background-color: rgb(...)` made from an `Rgb` value, and the HTML template (lines 100-124). A page is modelled by its path, title, webcam markup and styled rows.
- `os.makedirs`, the file writes and the console message (lines 35, 102-125) are filesystem and console I/O.
- The coordinates in the location table are only used to build the request URLs. They are kept as constants.
- `Report.StyleRow` uses the corrected backgrounds of the finding below. It does not reproduce the deepest tint that the script gives a missing height or energy. `Style.ColorWave` and `Style.ColorEnergy` model that behaviour as written.

## Findings

| source | as written | input that shows it | evidently intended | confidence | as-written member | corrected member |
|---|---|---|---|---|---|---|
| surf_forecast.py:77-82 | `color_wave` and `color_energy` are applied to every cell, NaN included. `NaN * 50` is NaN and `min(200, NaN)` is 200, so the channel is 20, the deepest tint | an hour that only the atmospheric source reports: wave height and energy are NaN, and the cell is tinted like a wave of 4 m or more | a missing value gets no background, so it is not shown as the biggest sea | medium, not executed | `Style.MissingValueGetsDeepestTint` | `Style.BackgroundDistinguishesMissing` |
