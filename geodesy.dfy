/** Points on the WGS-84 ellipsoid (Sources/Location/Coordinates.swift). */
module Geodesy {

  /** A latitude/longitude pair in degrees; `Coordinates()` defaults to (0, 0). */
  datatype Coordinates = Coordinates(latitude: real := 0.0, longitude: real := 0.0)

  /**
   * A distance in meters between a region's center and a location's coordinates.
   * The emulated backend computes it with the haversine formula on floating
   * point; the model leaves it open and only compares it with a radius.
   */
  type DistanceFunction = (Coordinates, Coordinates) -> real
}
