/**
 * Sources/LocationEmulation/EmulatedLocationManager.swift: a location manager
 * that plays back a configured script. Its subjects become fields, and every
 * value sent on a subject is recorded, in order, in `published`.
 */
module Emulation {
  import opened Wrappers
  import opened Geodesy
  import opened Streams
  import opened Authorization
  import opened Accuracies
  import opened Activities
  import opened Regions
  import opened PostalAddresses
  import opened Locations
  import opened GeoFences
  import opened LocationManagerContract
  import opened TransitionEngine

  /** What `requestAuthorization` does: grant (`authorizedAlways`) or deny (`denied`). */
  datatype AuthorizationBehavior = Success | Failure

  /** `EmulatedLocationManager.Configuration`: every setting optional. */
  datatype Configuration = Configuration(
    authorization: Option<ManagerAuthorization> := None,
    authorizationBehavior: Option<AuthorizationBehavior> := None,
    coordinates: Option<Coordinates> := None,
    geoCoding: Option<map<PostalAddress, Coordinates>> := None,
    positioning: Option<seq<Location>> := None,
    positioningRate: Option<int> := None,
    regions: Option<seq<Region>> := None)

  /** The state `requestAuthorization` moves to. */
  function Requested(behavior: AuthorizationBehavior): (a: ManagerAuthorization)
    ensures behavior == Success <==> a == AuthorizedAlways
    ensures behavior == AuthorizationBehavior.Failure <==> a == Denied
  {
    match behavior
    case Success => AuthorizedAlways
    case Failure => Denied
  }

  /** One value sent on one of the manager's subjects. */
  datatype Publication =
    | AuthorizationSent(authorization: ManagerAuthorization)
    | LocatingSent(locating: bool)
    | LocationSent(location: Option<Location>)
    | FenceSent(fence: GeoFence)

  /** The sends of `events` on the geofence subject, in order. */
  function Fenced(events: seq<GeoFence>): (ps: seq<Publication>)
    ensures |ps| == |events|
    ensures forall i :: 0 <= i < |events| ==> ps[i] == FenceSent(events[i])
  {
    seq(|events|, i requires 0 <= i < |events| => FenceSent(events[i]))
  }

  /** What a subscriber of the geofence subject hears out of a run of publications. */
  function FencesOf(ps: seq<Publication>): seq<GeoFence> {
    if ps == [] then []
    else
      FencesOf(ps[..|ps| - 1]) + match ps[|ps| - 1] { case FenceSent(g) => [g] case _ => [] }
  }

  lemma {:induction false} FencesOfConcat(a: seq<Publication>, b: seq<Publication>)
    ensures FencesOf(a + b) == FencesOf(a) + FencesOf(b)
  {
    if b == [] {
      assert a + b == a;
    } else {
      var init := b[..|b| - 1];
      assert (a + b)[..|a + b| - 1] == a + init;
      assert (a + b)[|a + b| - 1] == b[|b| - 1];
      FencesOfConcat(a, init);
    }
  }

  /** The geofence subscriber hears exactly the events sent as fences. */
  lemma {:induction false} FencesOfFenced(events: seq<GeoFence>)
    ensures FencesOf(Fenced(events)) == events
  {
    if events != [] {
      var init := events[..|events| - 1];
      assert Fenced(events)[..|events| - 1] == Fenced(init);
      FencesOfFenced(init);
    }
  }

  /** Split a transition's sends into the entries and the exits. */
  lemma FencedConcat(a: seq<GeoFence>, b: seq<GeoFence>)
    ensures Fenced(a + b) == Fenced(a) + Fenced(b)
  {
  }

  /**
   * A subscription created by `beginPositioning` (`firstOnly` false) or by
   * `currentLocation` (`firstOnly` true): how many scripted locations it has
   * consumed and what its subscriber has received.
   */
  datatype Replay = Replay(firstOnly: bool, cursor: nat, stream: Stream<Location>)

  /** A subscription to `monitorRegion(region)`, made when `since` values had been published. */
  datatype RegionMonitor = RegionMonitor(region: Region, since: nat)

  /** The two initialisers' loop: each region goes to "containing" or "not containing", in order. */
  method PartitionRegions(dist: DistanceFunction, regions: seq<Region>, c: Coordinates)
    returns (inside: seq<Region>, outside: seq<Region>)
    ensures inside == Select(dist, regions, c, true)
    ensures outside == Select(dist, regions, c, false)
  {
    inside, outside := [], [];
    for i := 0 to |regions|
      invariant inside == Select(dist, regions[..i], c, true)
      invariant outside == Select(dist, regions[..i], c, false)
    {
      var region := regions[i];
      assert regions[..i + 1] == regions[..i] + [region];
      if Inside(dist, region, c) {
        inside := inside + [region];
      } else {
        outside := outside + [region];
      }
    }
    assert regions[..|regions|] == regions;
  }

  /**
   * The emulated manager's invariant: the arrays split the configured regions
   * (when their ids are unique) and agree with the last location; before any
   * location every region is "not containing".
   */
  ghost predicate Consistent(dist: DistanceFunction, configured: seq<Region>,
                             containing: seq<Region>, notContaining: seq<Region>, last: Option<Location>)
  {
    && (UniqueIds(configured) ==> Partitioned(containing, notContaining, configured))
    && match last {
         case Some(l) => Matches(dist, containing, notContaining, l.coordinates)
         case None => containing == [] && notContaining == configured
       }
  }

  /** Both initialisers establish the invariant. */
  lemma InitialConsistent(dist: DistanceFunction, regions: seq<Region>, coordinates: Option<Coordinates>, now: real)
    ensures coordinates.Some? ==>
              Consistent(dist, regions, Select(dist, regions, coordinates.value, true),
                         Select(dist, regions, coordinates.value, false), Some(NewLocation(now, coordinates.value)))
    ensures coordinates.None? ==> Consistent(dist, regions, [], regions, None)
  {
    if coordinates.Some? {
      if UniqueIds(regions) {
        InitialPartition(dist, regions, coordinates.value);
      }
      InitialMatches(dist, regions, coordinates.value);
    } else {
      assert [] + regions == regions;
    }
  }

  /** A transition to `l` keeps the invariant, and one to the last location's coordinates moves nothing. */
  lemma TransitionConsistent(dist: DistanceFunction, configured: seq<Region>,
                             containing: seq<Region>, notContaining: seq<Region>, last: Option<Location>, l: Location)
    requires Consistent(dist, configured, containing, notContaining, last)
    ensures Consistent(dist, configured, NextContaining(dist, containing, notContaining, l.coordinates),
                       NextNotContaining(dist, containing, notContaining, l.coordinates), Some(l))
    ensures last.Some? && last.value.coordinates == l.coordinates ==>
              TransitionEvents(dist, containing, notContaining, l.coordinates) == []
              && NextContaining(dist, containing, notContaining, l.coordinates) == containing
              && NextNotContaining(dist, containing, notContaining, l.coordinates) == notContaining
  {
    if UniqueIds(configured) {
      TransitionKeepsPartition(dist, containing, notContaining, configured, l.coordinates);
    } else {
      TransitionMatches(dist, containing, notContaining, l.coordinates);
    }
    if last.Some? && last.value.coordinates == l.coordinates {
      NoEventsWhenMatching(dist, containing, notContaining, l.coordinates);
    }
  }

  /** How many locations a replay takes: one for `currentLocation`, all of them otherwise. */
  function Limit(positioning: seq<Location>, s: Replay): nat {
    if s.firstOnly then 1 else |positioning|
  }

  /**
   * A replay of a non-empty script has received exactly its first `cursor`
   * locations, and has finished exactly when it has taken all it takes.
   */
  predicate Scripted(positioning: seq<Location>, s: Replay) {
    && positioning != []
    && s.cursor <= Limit(positioning, s) <= |positioning|
    && s.stream.values == positioning[..s.cursor]
    && (s.stream.termination.Finished? <==> s.cursor == Limit(positioning, s))
    && !s.stream.termination.Failure?
  }

  /** An open replay on one timer tick: the next location is delivered, and the replay finishes after its last one. */
  function Advanced(positioning: seq<Location>, s: Replay): (s': Replay)
    requires Scripted(positioning, s) && s.stream.IsOpen()
    ensures Scripted(positioning, s')
    ensures s'.firstOnly == s.firstOnly && s'.cursor == s.cursor + 1
    ensures s'.stream.values == s.stream.values + [positioning[s.cursor]]
    ensures s'.stream.termination == if s'.cursor == Limit(positioning, s) then Finished else Open
  {
    var cursor := s.cursor + 1;
    assert positioning[..cursor] == positioning[..s.cursor] + [positioning[s.cursor]];
    Replay(s.firstOnly, cursor, Stream(s.stream.values + [positioning[s.cursor]],
                                       if cursor == Limit(positioning, s) then Finished else Open))
  }

  class EmulatedLocationManager {
    /** `distance(to:from:)`; the haversine estimate itself is not part of this model. */
    const dist: DistanceFunction
    const authorizationBehavior: AuthorizationBehavior
    const geoCoding: map<PostalAddress, Coordinates>
    const positioning: seq<Location>
    const positioningRate: int
    /** The regions configured for geofencing. */
    ghost const configured: seq<Region>

    var authorization: ManagerAuthorization
    var isLocating: bool
    var lastLocation: Option<Location>
    var published: seq<Publication>
    var containing: seq<Region>
    var notContaining: seq<Region>

    /**
     * The arrays split the configured regions (when their ids are unique), and
     * agree with the last location: before any location every region is "not
     * containing".
     */
    ghost predicate Valid()
      reads this`containing, this`notContaining, this`lastLocation
    {
      Consistent(dist, configured, containing, notContaining, lastLocation)
    }

    /** `init(authorization:authorizationBehavior:coordinates:...)` with its defaults. */
    constructor(dist: DistanceFunction, now: real,
                authorization: ManagerAuthorization := NotDetermined,
                authorizationBehavior: AuthorizationBehavior := AuthorizationBehavior.Failure,
                coordinates: Option<Coordinates> := None,
                geoCoding: map<PostalAddress, Coordinates> := map[],
                positioning: seq<Location> := [],
                positioningRate: int := 30,
                regions: seq<Region> := [])
      ensures this.dist == dist && this.authorization == authorization
      ensures this.authorizationBehavior == authorizationBehavior && this.geoCoding == geoCoding
      ensures this.positioning == positioning && this.positioningRate == positioningRate
      ensures !isLocating && published == [] && configured == regions
      ensures coordinates.Some? ==> lastLocation == Some(NewLocation(now, coordinates.value))
      ensures coordinates.Some? ==>
                containing == Select(dist, regions, coordinates.value, true)
                && notContaining == Select(dist, regions, coordinates.value, false)
      ensures coordinates.None? ==> lastLocation == None && containing == [] && notContaining == regions
      ensures Valid()
    {
      this.dist := dist;
      this.authorization := authorization;
      this.authorizationBehavior := authorizationBehavior;
      this.geoCoding := geoCoding;
      this.positioning := positioning;
      this.positioningRate := positioningRate;
      configured := regions;
      isLocating := false;
      published := [];
      if coordinates.Some? {
        lastLocation := Some(NewLocation(now, coordinates.value));
        var inside, outside := PartitionRegions(dist, regions, coordinates.value);
        containing, notContaining := inside, outside;
      } else {
        lastLocation := None;
        containing, notContaining := [], regions;
      }
      new;
      InitialConsistent(dist, regions, coordinates, now);
    }

    /** `init(configuration:)`: every missing setting takes the other initialiser's default. */
    constructor FromConfiguration(dist: DistanceFunction, now: real, configuration: Configuration)
      ensures this.dist == dist && authorization == configuration.authorization.GetOr(NotDetermined)
      ensures authorizationBehavior == configuration.authorizationBehavior.GetOr(AuthorizationBehavior.Failure)
      ensures geoCoding == configuration.geoCoding.GetOr(map[])
      ensures positioning == configuration.positioning.GetOr([])
      ensures positioningRate == configuration.positioningRate.GetOr(30)
      ensures !isLocating && published == [] && configured == configuration.regions.GetOr([])
      ensures configuration.coordinates.Some? ==>
                lastLocation == Some(NewLocation(now, configuration.coordinates.value))
                && containing == Select(dist, configured, configuration.coordinates.value, true)
                && notContaining == Select(dist, configured, configuration.coordinates.value, false)
      ensures configuration.coordinates.None? ==> lastLocation == None && containing == [] && notContaining == configured
      ensures Valid()
    {
      var regions := configuration.regions.GetOr([]);
      this.dist := dist;
      authorization := configuration.authorization.GetOr(NotDetermined);
      authorizationBehavior := configuration.authorizationBehavior.GetOr(AuthorizationBehavior.Failure);
      geoCoding := configuration.geoCoding.GetOr(map[]);
      positioning := configuration.positioning.GetOr([]);
      positioningRate := configuration.positioningRate.GetOr(30);
      configured := regions;
      isLocating := false;
      published := [];
      if configuration.coordinates.Some? {
        lastLocation := Some(NewLocation(now, configuration.coordinates.value));
        var inside, outside := PartitionRegions(dist, regions, configuration.coordinates.value);
        containing, notContaining := inside, outside;
      } else {
        lastLocation := None;
        containing, notContaining := [], regions;
      }
      new;
      InitialConsistent(dist, regions, configuration.coordinates, now);
    }

    /**
     * `requestAuthorization`: move to the behaviour's state, sending it only
     * when it differs from the current one.
     */
    method RequestAuthorization()
      modifies this`authorization, this`published
      ensures authorization == Requested(authorizationBehavior)
      ensures published == old(published)
                         + if old(authorization) == authorization then [] else [AuthorizationSent(authorization)]
    {
      var target := Requested(authorizationBehavior);
      if authorization != target {
        authorization := target;
        published := published + [AuthorizationSent(target)];
      }
    }

    /** Asking twice sends at most once: the second request finds the state already reached. */
    method RequestAuthorizationTwice()
      modifies this`authorization, this`published
      ensures authorization == Requested(authorizationBehavior)
      ensures |published| <= |old(published)| + 1
    {
      RequestAuthorization();
      var sent := published;
      RequestAuthorization();
      assert published == sent;
    }

    /** `coordinates(for:)`: the configured coordinates of an address, nil for any other address. */
    function CoordinatesFor(address: PostalAddress): (r: Option<Coordinates>)
      ensures r.Some? <==> address in geoCoding
      ensures r.Some? ==> r.value == geoCoding[address]
    {
      if address in geoCoding then Some(geoCoding[address]) else None
    }

    /** `ensureAuthorized`: request authorization, then wait for the first authorized state. */
    method EnsureAuthorized() returns (s: Stream<ManagerAuthorization>)
      modifies this`authorization, this`published
      ensures authorization == Requested(authorizationBehavior)
      ensures s == FirstAuthorized([authorization])
      ensures authorizationBehavior == Success ==> s == Stream([AuthorizedAlways], Finished)
      ensures authorizationBehavior == AuthorizationBehavior.Failure ==> s == Stream([], Open)
    {
      RequestAuthorization();
      s := FirstAuthorized([authorization]);
      assert [authorization][1..] == [];
    }

    /** Send each event on the geofence subject, in order. */
    method Send(events: seq<GeoFence>)
      modifies this`published
      ensures published == old(published) + Fenced(events)
    {
      for i := 0 to |events|
        invariant published == old(published) + Fenced(events[..i])
      {
        assert Fenced(events[..i + 1]) == Fenced(events[..i]) + [FenceSent(events[i])];
        published := published + [FenceSent(events[i])];
      }
      assert events[..|events|] == events;
    }

    /**
     * `transitionToLocation`: publish the location, send every entry and then
     * every exit, then move the regions between the arrays. The invariant
     * holds afterwards, and a location with the last location's coordinates
     * sends no event and moves nothing (no double fire).
     */
    method TransitionToLocation(l: Location)
      requires Valid()
      modifies this`lastLocation, this`published, this`containing, this`notContaining
      ensures Valid()
      ensures lastLocation == Some(l)
      ensures published == old(published) + [LocationSent(Some(l))]
                         + Fenced(TransitionEvents(dist, old(containing), old(notContaining), l.coordinates))
      ensures containing == NextContaining(dist, old(containing), old(notContaining), l.coordinates)
      ensures notContaining == NextNotContaining(dist, old(containing), old(notContaining), l.coordinates)
      ensures old(lastLocation).Some? && old(lastLocation).value.coordinates == l.coordinates ==>
                published == old(published) + [LocationSent(Some(l))]
                && containing == old(containing) && notContaining == old(notContaining)
    {
      TransitionConsistent(dist, configured, containing, notContaining, lastLocation, l);
      ApplyTransition(l);
    }

    /** The steps of `transitionToLocation`, in the order the source takes them. */
    method ApplyTransition(l: Location)
      modifies this`lastLocation, this`published, this`containing, this`notContaining
      ensures lastLocation == Some(l)
      ensures published == old(published) + [LocationSent(Some(l))]
                         + Fenced(TransitionEvents(dist, old(containing), old(notContaining), l.coordinates))
      ensures containing == NextContaining(dist, old(containing), old(notContaining), l.coordinates)
      ensures notContaining == NextNotContaining(dist, old(containing), old(notContaining), l.coordinates)
    {
      var entered := Select(dist, notContaining, l.coordinates, true);
      var exited := Select(dist, containing, l.coordinates, false);
      PublishTransition(l, entered, exited);
      MoveRegions(entered, exited);
    }

    /** The sends of `transitionToLocation`: the location, then every entry, then every exit. */
    method PublishTransition(l: Location, entered: seq<Region>, exited: seq<Region>)
      modifies this`lastLocation, this`published
      ensures lastLocation == Some(l)
      ensures published == old(published) + [LocationSent(Some(l))] + Fenced(EnteredAll(entered) + ExitedAll(exited))
    {
      ghost var before := published + [LocationSent(Some(l))];
      lastLocation := Some(l);
      published := published + [LocationSent(Some(l))];
      Send(EnteredAll(entered));
      Send(ExitedAll(exited));
      FencedConcat(EnteredAll(entered), ExitedAll(exited));
      assert published == before + Fenced(EnteredAll(entered) + ExitedAll(exited));
    }

    /** The end of `transitionToLocation`: remove the movers by id, then append them on their new side. */
    method MoveRegions(entered: seq<Region>, exited: seq<Region>)
      modifies this`containing, this`notContaining
      ensures notContaining == RemoveIds(old(notContaining), Ids(entered)) + exited
      ensures containing == RemoveIds(old(containing), Ids(exited)) + entered
    {
      notContaining := RemoveIds(notContaining, Ids(entered));
      containing := RemoveIds(containing, Ids(exited));
      notContaining := notContaining + exited;
      containing := containing + entered;
    }

    /**
     * `beginPositioning(forActivity:withAccuracy:)`. With a script, a new
     * replay starting at its first location; without one, the observation of
     * the last location, which the subscriber receives at once when there is one.
     */
    method BeginPositioning(activity: ActivityType, accuracy: Accuracy) returns (s: Replay)
      modifies this`isLocating, this`published
      ensures isLocating && published == old(published) + [LocatingSent(true)]
      ensures positioning != [] ==> s == Replay(false, 0, Stream([], Open)) && Scripted(positioning, s)
      ensures positioning == [] ==>
                s == Replay(false, 0, Stream(if lastLocation.Some? then [lastLocation.value] else [], Open))
    {
      isLocating := true;
      published := published + [LocatingSent(true)];
      if positioning != [] {
        s := Replay(false, 0, Stream([], Open));
      } else {
        s := Replay(false, 0, Stream(if lastLocation.Some? then [lastLocation.value] else [], Open));
      }
    }

    /**
     * `currentLocation(withAccuracy:)`: `beginPositioning(.other)` cut to its
     * first location. Without a script, a known last location answers at
     * once, and taking it cancels the observation.
     */
    method CurrentLocation(accuracy: Accuracy) returns (s: Replay)
      modifies this`isLocating, this`published
      ensures positioning != [] ==>
                s == Replay(true, 0, Stream([], Open)) && Scripted(positioning, s)
                && isLocating && published == old(published) + [LocatingSent(true)]
      ensures positioning == [] && old(lastLocation).Some? ==>
                s == Replay(true, 0, Stream([lastLocation.value], Finished))
                && !isLocating && published == old(published) + [LocatingSent(true), LocatingSent(false)]
      ensures positioning == [] && old(lastLocation).None? ==>
                s == Replay(true, 0, Stream([], Open))
                && isLocating && published == old(published) + [LocatingSent(true)]
    {
      s := BeginPositioning(Other, accuracy);
      s := s.(firstOnly := true);
      if positioning == [] && lastLocation.Some? {
        s := s.(stream := Stream(s.stream.values, Finished));
        isLocating := false;
        published := published + [LocatingSent(false)];
      }
    }

    /**
     * One tick of the replay timer. An open scripted replay receives its next
     * location, which the manager first transitions to; a `currentLocation`
     * replay then finishes and stops locating. Anything else ignores the tick.
     */
    method Tick(s: Replay) returns (s': Replay)
      requires Valid()
      requires positioning != [] ==> Scripted(positioning, s)
      modifies this`lastLocation, this`published, this`containing, this`notContaining, this`isLocating
      ensures Valid()
      ensures positioning == [] || !s.stream.IsOpen() ==> s' == s && unchanged(this)
      ensures positioning != [] && s.stream.IsOpen() ==>
                var l := positioning[s.cursor];
                && s' == Advanced(positioning, s)
                && lastLocation == Some(l)
                && containing == NextContaining(dist, old(containing), old(notContaining), l.coordinates)
                && notContaining == NextNotContaining(dist, old(containing), old(notContaining), l.coordinates)
                && published == old(published) + [LocationSent(Some(l))]
                               + Fenced(TransitionEvents(dist, old(containing), old(notContaining), l.coordinates))
                               + (if s.firstOnly then [LocatingSent(false)] else [])
                && isLocating == (if s.firstOnly then false else old(isLocating))
    {
      if positioning == [] || !s.stream.IsOpen() {
        return s;
      }
      s' := Deliver(s);
    }

    /** The tick of an open scripted replay. */
    method Deliver(s: Replay) returns (s': Replay)
      requires Valid() && Scripted(positioning, s) && s.stream.IsOpen()
      modifies this`lastLocation, this`published, this`containing, this`notContaining, this`isLocating
      ensures Valid()
      ensures var l := positioning[s.cursor];
              && s' == Advanced(positioning, s)
              && lastLocation == Some(l)
              && containing == NextContaining(dist, old(containing), old(notContaining), l.coordinates)
              && notContaining == NextNotContaining(dist, old(containing), old(notContaining), l.coordinates)
              && published == old(published) + [LocationSent(Some(l))]
                             + Fenced(TransitionEvents(dist, old(containing), old(notContaining), l.coordinates))
                             + (if s.firstOnly then [LocatingSent(false)] else [])
              && isLocating == (if s.firstOnly then false else old(isLocating))
    {
      TransitionConsistent(dist, configured, containing, notContaining, lastLocation, positioning[s.cursor]);
      s' := DeliverSteps(s);
    }

    /** The steps of a tick: the transition, the delivery, then the end of a `currentLocation` replay. */
    method DeliverSteps(s: Replay) returns (s': Replay)
      requires Scripted(positioning, s) && s.stream.IsOpen()
      modifies this`lastLocation, this`published, this`containing, this`notContaining, this`isLocating
      ensures var l := positioning[s.cursor];
              && s' == Advanced(positioning, s)
              && lastLocation == Some(l)
              && containing == NextContaining(dist, old(containing), old(notContaining), l.coordinates)
              && notContaining == NextNotContaining(dist, old(containing), old(notContaining), l.coordinates)
              && published == old(published) + [LocationSent(Some(l))]
                             + Fenced(TransitionEvents(dist, old(containing), old(notContaining), l.coordinates))
                             + (if s.firstOnly then [LocatingSent(false)] else [])
              && isLocating == (if s.firstOnly then false else old(isLocating))
    {
      var l := positioning[s.cursor];
      ApplyTransition(l);
      ghost var sent := published;
      s' := Advanced(positioning, s);
      Conclude(s.firstOnly);
      assert published == sent + if s.firstOnly then [LocatingSent(false)] else [];
    }

    /** After a delivery, a `currentLocation` replay's `first()` has its value and stops locating. */
    method Conclude(firstOnly: bool)
      modifies this`isLocating, this`published
      ensures published == old(published) + if firstOnly then [LocatingSent(false)] else []
      ensures isLocating == if firstOnly then false else old(isLocating)
    {
      if firstOnly {
        StopLocating();
      } else {
        assert published == published + [];
      }
    }

    /** `isLocatingSubject.send(false)`. */
    method StopLocating()
      modifies this`isLocating, this`published
      ensures !isLocating && published == old(published) + [LocatingSent(false)]
    {
      isLocating := false;
      published := published + [LocatingSent(false)];
    }

    /** Cancelling an open subscription stops locating; a finished one is past cancelling. */
    method Cancel(s: Replay) returns (s': Replay)
      modifies this`isLocating, this`published
      ensures s.stream.IsOpen() ==>
                s' == s.(stream := Stream(s.stream.values, Cancelled))
                && !isLocating && published == old(published) + [LocatingSent(false)]
      ensures !s.stream.IsOpen() ==> s' == s && unchanged(this)
      ensures Scripted(positioning, s) ==> Scripted(positioning, s')
    {
      if s.stream.IsOpen() {
        s' := s.(stream := Stream(s.stream.values, Cancelled));
        isLocating := false;
        published := published + [LocatingSent(false)];
      } else {
        s' := s;
      }
    }

    /**
     * `beginPositioning` followed by `ticks` timer ticks: the subscriber has
     * received the script's first `ticks` locations in order, and the stream
     * finishes exactly when the script is exhausted. Locating stays on.
     */
    method Replayed(activity: ActivityType, accuracy: Accuracy, ticks: nat) returns (s: Replay)
      requires Valid() && positioning != []
      modifies this`lastLocation, this`published, this`containing, this`notContaining, this`isLocating
      ensures Valid()
      ensures s.stream.values == positioning[..if ticks < |positioning| then ticks else |positioning|]
      ensures s.stream.termination == if ticks >= |positioning| then Finished else Open
      ensures isLocating
    {
      s := BeginPositioning(activity, accuracy);
      for i := 0 to ticks
        invariant Valid() && Scripted(positioning, s) && !s.firstOnly && isLocating
        invariant s.cursor == if i < |positioning| then i else |positioning|
        invariant s.stream.termination == if i >= |positioning| then Finished else Open
      {
        s := Tick(s);
      }
    }

    /**
     * `currentLocation` with a script: the first tick delivers the script's
     * first location, finishes the stream and stops locating.
     */
    method FirstScriptedLocation(accuracy: Accuracy) returns (s: Replay)
      requires Valid() && positioning != []
      modifies this`lastLocation, this`published, this`containing, this`notContaining, this`isLocating
      ensures Valid()
      ensures s.stream == Stream([positioning[0]], Finished)
      ensures lastLocation == Some(positioning[0]) && !isLocating
    {
      s := CurrentLocation(accuracy);
      s := Tick(s);
    }

    /** `monitorRegion(_:)`: a subscription to the geofence subject from now on. */
    method MonitorRegion(region: Region) returns (m: RegionMonitor)
      ensures m == RegionMonitor(region, |published|)
    {
      m := RegionMonitor(region, |published|);
    }

    /** What a monitor has received: the geofence sends since it subscribed, routed to its region. */
    function Received(m: RegionMonitor): (s: Stream<GeoFence>)
      requires m.since <= |published|
      reads this`published
      ensures forall i :: 0 <= i < |s.values| ==> Id(s.values[i]) == m.region.id && !s.values[i].Failed?
      ensures s.termination.Open? || s.termination.Failure?
    {
      Route(FencesOf(published[m.since..]), m.region)
    }
  }
}
