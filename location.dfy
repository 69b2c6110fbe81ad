/** Sources/Location/Location.swift: a positioning sample and its platform form. */
module Locations {
  import opened Wrappers
  import opened Geodesy

  /**
   * One positioning sample. `timestamp` is a `Date`, as seconds since a
   * reference date; the optional fields are nil when the platform reported
   * them as unknown.
   */
  datatype Location = Location(
    coordinates: Coordinates,
    timestamp: real,
    altitude: real,
    course: Option<real>,
    horizontalAccuracy: Option<real>,
    verticalAccuracy: Option<real>,
    speed: Option<real>)

  /**
   * `Location.init` with its defaults. The default timestamp, `Date()`, reads
   * the clock, so the caller passes the current time as `now`.
   */
  function NewLocation(now: real, coordinates: Coordinates := Coordinates(), altitude: real := 0.0,
                       course: Option<real> := None, horizontalAccuracy: Option<real> := None,
                       verticalAccuracy: Option<real> := None, speed: Option<real> := None): (l: Location)
    ensures l.timestamp == now && l.coordinates == coordinates && l.altitude == altitude
    ensures l.course == course && l.speed == speed
    ensures l.horizontalAccuracy == horizontalAccuracy && l.verticalAccuracy == verticalAccuracy
  {
    Location(coordinates, now, altitude, course, horizontalAccuracy, verticalAccuracy, speed)
  }

  lemma LocationDefaults(now: real, c: Coordinates)
    ensures NewLocation(now, c).altitude == 0.0
    ensures NewLocation(now, c).course.None? && NewLocation(now, c).speed.None?
    ensures NewLocation(now, c).horizontalAccuracy.None? && NewLocation(now, c).verticalAccuracy.None?
  {
  }

  /** The platform's `CLLocation`, where a negative value means "unknown". */
  datatype CLLocation = CLLocation(
    coordinate: Coordinates,
    altitude: real,
    horizontalAccuracy: real,
    verticalAccuracy: real,
    course: real,
    speed: real,
    timestamp: real)

  /** Reading a platform value: kept when `>= 0`, nil when negative. */
  function Decode(x: real): (o: Option<real>)
    ensures o.Some? <==> x >= 0.0
    ensures o.Some? ==> o.value == x
  {
    if x >= 0.0 then Some(x) else None
  }

  /** Writing a platform value: `value ?? -1.0`. */
  function Encode(o: Option<real>): (x: real)
    ensures o.None? ==> x == -1.0
    ensures o.Some? ==> x == o.value
  {
    o.GetOr(-1.0)
  }

  /** An optional field that the platform can carry: nil, or a non-negative value. */
  predicate Representable(o: Option<real>) {
    o.None? || o.value >= 0.0
  }

  /** The field-wise round trip: identity on representable values, nil otherwise. */
  lemma DecodeEncode(o: Option<real>)
    ensures Decode(Encode(o)) == if Representable(o) then o else None
  {
  }

  /** The other round trip: every negative sentinel is normalised to -1.0. */
  lemma EncodeDecode(x: real)
    ensures Encode(Decode(x)) == if x >= 0.0 then x else -1.0
  {
  }

  /** `Location.init(_ location: CLLocation)`. */
  function FromPlatform(c: CLLocation): (l: Location)
    ensures WellFormed(l)
    ensures l.coordinates == c.coordinate && l.timestamp == c.timestamp && l.altitude == c.altitude
  {
    Location(
      coordinates := c.coordinate,
      timestamp := c.timestamp,
      altitude := c.altitude,
      course := Decode(c.course),
      horizontalAccuracy := Decode(c.horizontalAccuracy),
      verticalAccuracy := Decode(c.verticalAccuracy),
      speed := Decode(c.speed))
  }

  /** `CLLocation.init(_ location: Location)`. */
  function ToPlatform(l: Location): (c: CLLocation)
    ensures c.coordinate == l.coordinates && c.timestamp == l.timestamp && c.altitude == l.altitude
  {
    CLLocation(
      coordinate := l.coordinates,
      altitude := l.altitude,
      horizontalAccuracy := Encode(l.horizontalAccuracy),
      verticalAccuracy := Encode(l.verticalAccuracy),
      course := Encode(l.course),
      speed := Encode(l.speed),
      timestamp := l.timestamp)
  }

  /** Every optional field is nil or non-negative. */
  predicate WellFormed(l: Location) {
    Representable(l.course) && Representable(l.horizontalAccuracy)
    && Representable(l.verticalAccuracy) && Representable(l.speed)
  }

  /** `l` with every negative optional value replaced by nil. */
  function Normalized(l: Location): Location {
    l.(course := if Representable(l.course) then l.course else None,
       horizontalAccuracy := if Representable(l.horizontalAccuracy) then l.horizontalAccuracy else None,
       verticalAccuracy := if Representable(l.verticalAccuracy) then l.verticalAccuracy else None,
       speed := if Representable(l.speed) then l.speed else None)
  }

  /** Location -> platform -> Location drops exactly the negative values it cannot carry. */
  lemma RoundTrip(l: Location)
    ensures FromPlatform(ToPlatform(l)) == Normalized(l)
    ensures WellFormed(l) ==> FromPlatform(ToPlatform(l)) == l
  {
    DecodeEncode(l.course);
    DecodeEncode(l.horizontalAccuracy);
    DecodeEncode(l.verticalAccuracy);
    DecodeEncode(l.speed);
  }

  /** Platform -> Location -> platform keeps everything but the spelling of "unknown". */
  lemma PlatformRoundTrip(c: CLLocation)
    ensures ToPlatform(FromPlatform(c)) == c.(
      horizontalAccuracy := if c.horizontalAccuracy >= 0.0 then c.horizontalAccuracy else -1.0,
      verticalAccuracy := if c.verticalAccuracy >= 0.0 then c.verticalAccuracy else -1.0,
      course := if c.course >= 0.0 then c.course else -1.0,
      speed := if c.speed >= 0.0 then c.speed else -1.0)
  {
  }
}
