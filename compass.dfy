/**
 * Bearings to compass points and compass points to arrow glyphs
 * (`degrees_to_compass` and `compass_to_arrow` in surf_forecast.py).
 */
module Compass {

  /** The eight compass points, clockwise from north; index i covers the bearings around 45·i degrees. */
  const Points: seq<string> := ["N", "NE", "E", "SE", "S", "SW", "W", "NW"]

  /** Index of the sector holding `deg`: floor((deg + 22.5) / 45) mod 8, Python's `//` and `%`. */
  function SectorIndex(deg: real): (ix: int)
    ensures 0 <= ix < |Points|
  {
    ((deg + 22.5) / 45.0).Floor % 8
  }

  /** The compass point for a bearing in degrees; every real bearing has one. */
  function DegreesToCompass(deg: real): (c: string)
    ensures c in Points
  {
    Points[SectorIndex(deg)]
  }

  /** Sector k (any integer, so any number of turns) is the half-open interval [45k - 22.5, 45k + 22.5). */
  ghost predicate InSector(deg: real, k: int) {
    45.0 * k as real - 22.5 <= deg < 45.0 * k as real + 22.5
  }

  /** The eight points are pairwise distinct, so an index is recovered from its point. */
  lemma PointsDistinct()
    ensures forall i, j :: 0 <= i < j < |Points| ==> Points[i] != Points[j]
  {
  }

  /** A bearing in sector k is mapped to the point k mod 8: the sector boundaries are 22.5, 67.5, 112.5, ... */
  lemma SectorBoundaries(deg: real, k: int)
    requires InSector(deg, k)
    ensures SectorIndex(deg) == k % 8
    ensures DegreesToCompass(deg) == Points[k % 8]
  {
  }

  /** Both directions: `deg` maps to point i exactly when it lies in some sector k with k mod 8 == i. */
  lemma CompassIsSector(deg: real, i: int)
    requires 0 <= i < |Points|
    ensures DegreesToCompass(deg) == Points[i] <==> exists k :: k % 8 == i && InSector(deg, k)
  {
    var k := ((deg + 22.5) / 45.0).Floor;
    assert InSector(deg, k);
    SectorBoundaries(deg, k);
    PointsDistinct();
    forall k' | k' % 8 == i && InSector(deg, k')
      ensures DegreesToCompass(deg) == Points[i]
    {
      SectorBoundaries(deg, k');
    }
  }

  /** The mapping has period 360: a full turn lands in the same point. */
  lemma Periodic(deg: real)
    ensures DegreesToCompass(deg + 360.0) == DegreesToCompass(deg)
  {
    var k := ((deg + 22.5) / 45.0).Floor;
    assert InSector(deg, k);
    assert InSector(deg + 360.0, k + 8);
    SectorBoundaries(deg, k);
    SectorBoundaries(deg + 360.0, k + 8);
  }

  /** Fixed points of the mapping: a bearing at exactly 22.5 already belongs to NE. */
  lemma CompassExamples()
    ensures DegreesToCompass(0.0) == "N"
    ensures DegreesToCompass(22.4) == "N"
    ensures DegreesToCompass(22.5) == "NE"
    ensures DegreesToCompass(360.0) == "N"
    ensures DegreesToCompass(-22.5) == "N"
    ensures DegreesToCompass(-22.6) == "NW"
    ensures DegreesToCompass(190.0) == "S"
  {
    SectorBoundaries(0.0, 0);
    SectorBoundaries(22.4, 0);
    SectorBoundaries(22.5, 1);
    SectorBoundaries(360.0, 8);
    SectorBoundaries(-22.5, 0);
    SectorBoundaries(-22.6, -1);
    SectorBoundaries(190.0, 4);
  }

  /** The glyph for each point; it points opposite to the named direction (the wind or swell flows from there). */
  const Arrows: map<string, string> := map[
    "N" := "↓", "NE" := "↙", "E" := "←", "SE" := "↖",
    "S" := "↑", "SW" := "↗", "W" := "→", "NW" := "↘"
  ]

  /** Arrow lookup with an empty-string default, like `dict.get(key, "")`. */
  function CompassToArrow(dir: string): (a: string)
    ensures a != "" <==> dir in Points
    ensures dir in Points ==> |a| == 1
    ensures dir !in Points ==> a == ""
  {
    if dir in Arrows then Arrows[dir] else ""
  }

  /** Glyphs pointing TOWARDS each point, indexed like Points: an independent reference table. */
  const Heading: seq<char> := ['↑', '↗', '→', '↘', '↓', '↙', '←', '↖']

  /** Each point's arrow is the glyph heading towards the opposite point (i + 4 mod 8). */
  lemma ArrowPointsAway(i: int)
    requires 0 <= i < |Points|
    ensures CompassToArrow(Points[i]) == [Heading[(i + 4) % 8]]
  {
  }

  /** Different points get different glyphs. */
  lemma ArrowInjective(i: int, j: int)
    requires 0 <= i < |Points| && 0 <= j < |Points| && i != j
    ensures CompassToArrow(Points[i]) != CompassToArrow(Points[j])
  {
    ArrowPointsAway(i);
    ArrowPointsAway(j);
  }

  /** Every bearing gets a non-empty arrow, and a full turn gives the same arrow. */
  lemma ArrowOfBearing(deg: real)
    ensures CompassToArrow(DegreesToCompass(deg)) != ""
    ensures CompassToArrow(DegreesToCompass(deg + 360.0)) == CompassToArrow(DegreesToCompass(deg))
  {
    Periodic(deg);
  }
}
