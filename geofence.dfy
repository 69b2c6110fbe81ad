/**
 * Sources/Location/GeoFence.swift: geofence events, their routing key, and the
 * `monitorRegion` pipeline both backends build on their geofence subject
 * (filter by id, turn `.failed` into a stream failure, `mapError(LocationError.init)`).
 */
module GeoFences {
  import opened Wrappers
  import opened Errors
  import opened Regions
  import opened Streams

  datatype GeoFence =
    | Entered(region: Region)
    | Exited(region: Region)
    | Failed(region: Region, error: LocationError)

  /** `GeoFence.id`: the id of the region the event is about, whatever its kind. */
  function Id(g: GeoFence): (id: string)
    ensures g.Entered? ==> id == g.region.id
    ensures g.Exited? ==> id == g.region.id
    ensures g.Failed? ==> id == g.region.id
  {
    match g
    case Entered(r) => r.id
    case Exited(r) => r.id
    case Failed(r, _) => r.id
  }

  /** The error a failure carries never takes part in routing. */
  lemma FailedIdIgnoresError(r: Region, e1: LocationError, e2: LocationError)
    ensures Id(Failed(r, e1)) == Id(Failed(r, e2)) == Id(Entered(r)) == Id(Exited(r)) == r.id
  {
  }

  /** What one more event on the geofence subject does to a monitor of `region`. */
  function Step(s: Stream<GeoFence>, g: GeoFence, region: Region): (s': Stream<GeoFence>)
    ensures !s.IsOpen() || Id(g) != region.id ==> s' == s
    ensures s.IsOpen() && Id(g) == region.id && g.Failed? ==> s' == Stream(s.values, Failure(g.error))
    ensures s.IsOpen() && Id(g) == region.id && !g.Failed? ==> s' == Stream(s.values + [g], Open)
  {
    if !s.IsOpen() || Id(g) != region.id then s
    else match g
      case Failed(_, e) => Stream(s.values, Failure(FromError(Location(e))))
      case _ => Stream(s.values + [g], Open)
  }

  /** `monitorRegion(region)` as seen by its subscriber, given the events sent since it subscribed. */
  function Route(events: seq<GeoFence>, region: Region): (s: Stream<GeoFence>)
    ensures forall i :: 0 <= i < |s.values| ==> Id(s.values[i]) == region.id && !s.values[i].Failed?
    ensures s.termination.Open? || s.termination.Failure?
    ensures |s.values| <= |events|
  {
    if events == [] then Stream([], Open)
    else Step(Route(events[..|events| - 1], region), events[|events| - 1], region)
  }

  /** One more event extends the route by exactly one step. */
  lemma RouteAppend(events: seq<GeoFence>, g: GeoFence, region: Region)
    ensures Route(events + [g], region) == Step(Route(events, region), g, region)
  {
    assert (events + [g])[..|events|] == events;
  }

  /** The events with the given id, in order. */
  function WithId(events: seq<GeoFence>, id: string): (f: seq<GeoFence>)
    ensures forall i :: 0 <= i < |f| ==> Id(f[i]) == id
  {
    if events == [] then []
    else WithId(events[..|events| - 1], id) + (if Id(events[|events| - 1]) == id then [events[|events| - 1]] else [])
  }

  predicate NoFailure(events: seq<GeoFence>) {
    forall i :: 0 <= i < |events| ==> !events[i].Failed?
  }

  /**
   * Routing only ever looks at the monitored id; while no failure for that id
   * has arrived the monitor stays open and has received exactly the events
   * with its id.
   */
  lemma {:induction false} RouteSeesOnlyItsId(events: seq<GeoFence>, region: Region)
    ensures Route(events, region) == Route(WithId(events, region.id), region)
    ensures NoFailure(WithId(events, region.id)) ==> Route(events, region) == Stream(WithId(events, region.id), Open)
  {
    if events != [] {
      var init, g := events[..|events| - 1], events[|events| - 1];
      var id := region.id;
      RouteSeesOnlyItsId(init, region);
      assert Route(events, region) == Step(Route(init, region), g, region);
      if Id(g) == id {
        assert WithId(events, id) == WithId(init, id) + [g];
        RouteAppend(WithId(init, id), g, region);
        assert NoFailure(WithId(events, id)) ==> NoFailure(WithId(init, id)) && !g.Failed?;
      } else {
        assert WithId(events, id) == WithId(init, id);
      }
    }
  }

  /**
   * The first failure for the monitored id ends the stream with its error;
   * the values are the events for that id before it, and nothing after it is seen.
   */
  lemma {:induction false} RouteStopsAtFailure(before: seq<GeoFence>, r: Region, e: LocationError, after: seq<GeoFence>, region: Region)
    requires r.id == region.id
    requires NoFailure(WithId(before, region.id))
    ensures Route(before + [Failed(r, e)] + after, region) == Stream(WithId(before, region.id), Failure(e))
  {
    RouteSeesOnlyItsId(before, region);
    RouteAppend(before, Failed(r, e), region);
    RoutePastTermination(before + [Failed(r, e)], after, region);
  }

  /** Once terminated, a monitor ignores every later event. */
  lemma {:induction false} RoutePastTermination(events: seq<GeoFence>, more: seq<GeoFence>, region: Region)
    requires !Route(events, region).IsOpen()
    ensures Route(events + more, region) == Route(events, region)
  {
    if more == [] {
      assert events + more == events;
    } else {
      var init, g := more[..|more| - 1], more[|more| - 1];
      assert events + more == (events + init) + [g];
      RoutePastTermination(events, init, region);
      RouteAppend(events + init, g, region);
    }
  }

  /**
   * The two-monitor scenario of Tests/LocationTests/GeoFencePublisherTests.swift:
   * an entry for region one and a failure for region two leave monitor one open
   * with its entry and end monitor two with the error and no value.
   */
  lemma IndependentMonitors()
    ensures var one := Region(id := "one", center := Geodesy.Coordinates(1.0, 1.0), radius := 100.0);
            var two := Region(id := "two", center := Geodesy.Coordinates(2.0, 2.0), radius := 100.0);
            var events := [Entered(one), Failed(two, UndefinedError(None))];
            Route(events, one) == Stream([Entered(one)], Open)
            && Route(events, two) == Stream([], Failure(UndefinedError(None)))
  {
    var one := Region(id := "one", center := Geodesy.Coordinates(1.0, 1.0), radius := 100.0);
    var two := Region(id := "two", center := Geodesy.Coordinates(2.0, 2.0), radius := 100.0);
    var events := [Entered(one), Failed(two, UndefinedError(None))];
    assert "one" != "two";
    RouteAppend([Entered(one)], Failed(two, UndefinedError(None)), one);
    RouteAppend([Entered(one)], Failed(two, UndefinedError(None)), two);
    RouteAppend([], Entered(one), one);
    RouteAppend([], Entered(one), two);
    assert [Entered(one)] + [Failed(two, UndefinedError(None))] == events;
    assert [] + [Entered(one)] == [Entered(one)];
  }
}
