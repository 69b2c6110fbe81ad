/** Sources/Location/Region.swift: circular geofences and their platform form. */
module Regions {
  import opened Geodesy

  /** A circular region; the defaults are those of `Region.init`. */
  datatype Region = Region(id: string := "", center: Coordinates := Coordinates(), radius: real := 100.0)

  /** `Region.coordinates`, the alias the emulated backend measures distances from. */
  function CoordinatesOf(r: Region): (c: Coordinates)
    ensures c == r.center
  {
    r.center
  }

  lemma RegionDefaults()
    ensures Region().id == "" && Region().center == Coordinates(0.0, 0.0) && Region().radius == 100.0
  {
  }

  /** The platform's `CLCircularRegion`. */
  datatype CLCircularRegion = CLCircularRegion(center: Coordinates, radius: real, identifier: string)

  /** The platform's `CLRegion`: region callbacks may deliver kinds other than circular ones. */
  datatype CLRegion =
    | Circular(circular: CLCircularRegion)
    | NonCircular(identifier: string)

  /** `Region.init(_ region: CLCircularRegion)`. */
  function FromCircular(c: CLCircularRegion): (r: Region)
    ensures r.id == c.identifier && r.center == c.center && r.radius == c.radius
  {
    Region(id := c.identifier, center := c.center, radius := c.radius)
  }

  /** `CLCircularRegion.init(_ region: Region)`. */
  function ToCircular(r: Region): (c: CLCircularRegion)
    ensures c.identifier == r.id && c.center == r.center && c.radius == r.radius
  {
    CLCircularRegion(r.center, r.radius, r.id)
  }

  /** The two conversions are inverse to each other. */
  lemma CircularRoundTrip(r: Region, c: CLCircularRegion)
    ensures FromCircular(ToCircular(r)) == r
    ensures ToCircular(FromCircular(c)) == c
  {
  }
}
