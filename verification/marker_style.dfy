/** The style of one earthquake marker: colour from depth, size from
    magnitude, fixed opacity and stroke weight. */
module MarkerStyle {
  import opened Palette
  import opened DepthColor

  /** Circle radius for a magnitude: magnitudes are small numbers, so
      they are scaled by a fixed factor. */
  const RadiusScale: real := 4.0

  function ChooseRadius(magnitude: real): (radius: real)
    ensures radius / RadiusScale == magnitude
    ensures radius < 0.0 <==> magnitude < 0.0
  {
    magnitude * RadiusScale
  }

  lemma RadiusOfZero()
    ensures ChooseRadius(0.0) == 0.0
  {
  }

  lemma RadiusMonotone(m1: real, m2: real)
    ensures m1 <= m2 <==> ChooseRadius(m1) <= ChooseRadius(m2)
  {
  }

  lemma RadiusAdditive(a: real, b: real)
    ensures ChooseRadius(a + b) == ChooseRadius(a) + ChooseRadius(b)
  {
  }

  /** A GeoJSON point feature as the style callback receives it:
      `coords` is the geometry's coordinate list (longitude, latitude,
      depth in km, ...), `mag` the magnitude; `place` and `time` are
      carried for the popup and play no part in the style. */
  datatype Feature = Feature(coords: seq<real>, mag: real, place: string, time: int)
  {
    predicate Valid() {
      |coords| >= 3
    }

    function Depth(): real
      requires Valid()
    {
      coords[2]
    }
  }

  /** The path options handed to the map library for one marker. */
  datatype Style = Style(color: string, fillColor: string, fillOpacity: real, weight: real, radius: real)

  const FillOpacity: real := 0.8
  const Weight: real := 0.5

  /** The style of an earthquake marker: stroke and fill share the depth
      colour, the radius follows the magnitude. */
  function StyleInfo(f: Feature): (s: Style)
    requires f.Valid()
    ensures s.color == s.fillColor
    ensures s.color in Codes
    ensures FromHex(s.color) == Some(DepthBucket(f.coords[2]))
    ensures s.radius / RadiusScale == f.mag
    ensures s.fillOpacity == 0.8 && s.weight == 0.5
  {
    Style(
      color := ChooseColor(f.Depth()),
      fillColor := ChooseColor(f.Depth()),
      fillOpacity := FillOpacity,
      weight := Weight,
      radius := ChooseRadius(f.mag))
  }

  /** The style reads nothing but the depth and the magnitude: features
      that differ only in longitude, latitude, further coordinates, place
      or time get the same style, and features with different styles
      differ in depth colour or magnitude. */
  lemma StyleDependsOnlyOnDepthAndMag(f: Feature, g: Feature)
    requires f.Valid() && g.Valid()
    ensures StyleInfo(f) == StyleInfo(g) <==>
      DepthBucket(f.coords[2]) == DepthBucket(g.coords[2]) && f.mag == g.mag
  {
  }

  /** A shallow magnitude-3 event: first colour, radius 12. */
  lemma ShallowExample(lon: real, lat: real, place: string, time: int)
    ensures StyleInfo(Feature([lon, lat, 5.0], 3.0, place, time))
      == Style("#F75D59", "#F75D59", 0.8, 0.5, 12.0)
  {
  }
}
