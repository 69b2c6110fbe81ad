/**
 * Sources/Location/CoreLocation/CoreLocationManager.swift: the adapter over
 * the platform's location manager. The platform's delegate callbacks are
 * methods taking the callback's arguments; what the adapter asks of the
 * platform is recorded, in order, in `commands`.
 */
module CoreLocationAdapter {
  import opened Wrappers
  import opened Errors
  import opened Streams
  import opened Authorization
  import opened Accuracies
  import opened Activities
  import opened Regions
  import opened Locations
  import opened GeoFences
  import opened LocationManagerContract

  // ----- The authorization gate of `currentLocation` and `beginPositioning` -----

  /** What the `tryFilter` in front of both location publishers does with one authorization state. */
  datatype GateDecision = Proceed | Wait | Reject(error: LocationError)

  function Gate(a: ManagerAuthorization): (d: GateDecision)
    ensures d == Proceed <==> Authorized(a)
    ensures d == Wait <==> a == NotDetermined
    ensures d.Reject? ==> d.error == NotAuthorized
  {
    match a
    case AuthorizedAlways => Proceed
    case AuthorizedWhenInUse => Proceed
    case NotDetermined => Wait
    case Restricted => Reject(FromError(Error.Location(NotAuthorized)))
    case Denied => Reject(FromError(Error.Location(NotAuthorized)))
  }

  /** The gate proceeds exactly when authorized, waits while undetermined, and otherwise fails with `notAuthorized`. */
  lemma GateCharacterization(a: ManagerAuthorization)
    ensures Gate(a) == Proceed <==> Authorized(a)
    ensures Gate(a) == Wait <==> a == NotDetermined
    ensures Gate(a) == Reject(NotAuthorized) <==> a == Restricted || a == Denied
    ensures Gate(a).Reject? ==> Gate(a).error == NotAuthorized
  {
    FromErrorNotAuthorized(Error.Location(NotAuthorized));
  }

  // ----- Native error classification -----

  /** `didFailWithError`: a platform `denied` error is `notAuthorized`; any other error is wrapped as undefined. */
  function Classify(e: Error): (r: LocationError)
    ensures r == NotAuthorized <==> e == Platform(CLErrorDenied)
    ensures r != NotAuthorized ==> r == UndefinedError(Some(e))
  {
    match e
    case Platform(code) => if code == CLErrorDenied then NotAuthorized else UndefinedError(Some(e))
    case _ => UndefinedError(Some(e))
  }

  /**
   * Unlike `LocationError(_:)`, the classification wraps an error that already
   * is a `LocationError`, even `notAuthorized`.
   */
  lemma ClassifyWrapsLocationErrors(le: LocationError)
    ensures Classify(Error.Location(le)) == UndefinedError(Some(Error.Location(le)))
    ensures FromError(Error.Location(le)) == le
  {
  }

  // ----- What the adapter asks of the platform -----

  /** A call into the platform's location manager. */
  datatype SensorCommand =
    | RequestWhenInUseAuthorization
      /** `beginLocationUpdates`: set the activity and accuracy, pause automatically, start. */
    | StartUpdating(activity: CLActivityType, accuracy: real, pausesAutomatically: bool)
      /** `endLocationUpdates`. */
    | StopUpdating
    | StartMonitoring(region: CLCircularRegion)
    | StopMonitoring(region: CLCircularRegion)

  // ----- One location request -----

  /** `currentLocation` takes the first location of each run; `beginPositioning` every location of the given activity. */
  datatype RequestKind = OneShot | Continuous(activity: ActivityType)

  /** The activity a request starts the sensor with: `currentLocation` always uses `.otherNavigation`. */
  function ActivityOf(kind: RequestKind): (a: ActivityType)
    ensures kind.OneShot? ==> a == OtherNavigation
    ensures kind.Continuous? ==> a == kind.activity
  {
    match kind
    case OneShot => OtherNavigation
    case Continuous(activity) => activity
  }

  /**
   * A subscription to `currentLocation` or `beginPositioning`. `listening`
   * is the location subject its inner subscription reads (the adapter
   * replaces the subject each time the gate opens), `taken` tells whether a
   * `currentLocation` run has had its one location, and `stream` is what
   * the subscriber has received.
   */
  datatype LocationRequest = LocationRequest(
    kind: RequestKind, accuracy: Accuracy, listening: Option<nat>, taken: bool, stream: Stream<Location>)

  /** A request's effect on the adapter: the request afterwards, whether a fresh subject was installed, the platform calls. */
  datatype Reaction = Reaction(request: LocationRequest, restarted: bool, commands: seq<SensorCommand>)

  /** What `endLocationUpdates` calls a terminal event makes: `currentLocation` stops on every completion, `beginPositioning` on none. */
  function StopOnCompletion(kind: RequestKind): (cs: seq<SensorCommand>)
    ensures cs == [StopUpdating] <==> kind.OneShot?
    ensures cs == [] <==> kind.Continuous?
  {
    if kind.OneShot? then [StopUpdating] else []
  }

  /**
   * A request receives one authorization state. Undetermined: nothing
   * happens. Restricted or denied: the stream fails with `notAuthorized`.
   * Authorized: the subject `generation + 1` replaces the current one, and
   * only then does the sensor start.
   */
  function Authorize(r: LocationRequest, a: ManagerAuthorization, generation: nat, k: PlatformAccuracies): (x: Reaction)
    ensures x.request.kind == r.kind && x.request.accuracy == r.accuracy
    ensures x.request.stream.values == r.stream.values
    ensures x.restarted <==> r.stream.IsOpen() && Authorized(a)
    ensures x.restarted ==>
              && x.request.listening == Some(generation + 1) && !x.request.taken && x.request.stream.IsOpen()
              && x.commands == [StartUpdating(Activities.ToPlatform(ActivityOf(r.kind)), Accuracies.ToPlatform(r.accuracy, k), true)]
    ensures !r.stream.IsOpen() || a == NotDetermined ==> x == Reaction(r, false, [])
    ensures r.stream.IsOpen() && (a == Restricted || a == Denied) ==>
              x.request.stream.termination == Failure(NotAuthorized) && x.commands == StopOnCompletion(r.kind)
  {
    if !r.stream.IsOpen() then Reaction(r, false, [])
    else
      match Gate(a)
      case Proceed =>
        Reaction(r.(listening := Some(generation + 1), taken := false), true,
                 [StartUpdating(Activities.ToPlatform(ActivityOf(r.kind)), Accuracies.ToPlatform(r.accuracy, k), true)])
      case Wait => Reaction(r, false, [])
      case Reject(e) =>
        GateCharacterization(a);
        Reaction(r.(stream := Stream(r.stream.values, Failure(e))), false, StopOnCompletion(r.kind))
  }

  /** Whether a location sent on subject `generation` reaches the request. */
  predicate Hears(r: LocationRequest, generation: nat) {
    r.stream.IsOpen() && r.listening == Some(generation) && !(r.kind.OneShot? && r.taken)
  }

  /**
   * A location sent on subject `generation`: a request that hears it
   * receives it; `currentLocation`'s `first()` then has its location, and the
   * stream stays open because the gate upstream never completes.
   */
  function Sample(r: LocationRequest, generation: nat, l: Location): (r': LocationRequest)
    ensures r'.kind == r.kind && r'.accuracy == r.accuracy && r'.listening == r.listening
    ensures r'.stream.termination == r.stream.termination
    ensures r'.stream.values == r.stream.values + if Hears(r, generation) then [l] else []
  {
    if Hears(r, generation) then r.(taken := true, stream := Stream(r.stream.values + [l], Open)) else r
  }

  /** A failure sent on subject `generation`: a request that would hear it fails, and `currentLocation` then stops the sensor. */
  function Fail(r: LocationRequest, generation: nat, e: LocationError): (x: Reaction)
    ensures x.request.stream.values == r.stream.values && !x.restarted
    ensures Hears(r, generation) ==> x.request.stream.termination == Failure(e) && x.commands == StopOnCompletion(r.kind)
    ensures !Hears(r, generation) ==> x == Reaction(r, false, [])
  {
    if Hears(r, generation) then
      Reaction(r.(stream := Stream(r.stream.values, Failure(e))), false, StopOnCompletion(r.kind))
    else Reaction(r, false, [])
  }

  /** Cancelling an open request stops the sensor, for both kinds. */
  function Cancel(r: LocationRequest): (x: Reaction)
    ensures x.request.stream.values == r.stream.values && !x.restarted
    ensures r.stream.IsOpen() ==> x.request.stream.termination == Cancelled && x.commands == [StopUpdating]
    ensures !r.stream.IsOpen() ==> x == Reaction(r, false, [])
  {
    if r.stream.IsOpen() then Reaction(r.(stream := Stream(r.stream.values, Cancelled)), false, [StopUpdating])
    else Reaction(r, false, [])
  }

  /** The request a subscription starts with, before the gate has seen anything. */
  function NewRequest(kind: RequestKind, accuracy: Accuracy): LocationRequest {
    LocationRequest(kind, accuracy, None, false, Stream([], Open))
  }

  /** Samples sent before the gate opened are not seen: a request not yet started hears nothing. */
  lemma EarlierSamplesUnseen(kind: RequestKind, accuracy: Accuracy, generation: nat, l: Location)
    ensures Sample(NewRequest(kind, accuracy), generation, l) == NewRequest(kind, accuracy)
  {
  }

  /**
   * `currentLocation` once authorized: the sensor starts for
   * `.otherNavigation`, the first location is delivered and later ones are
   * not, and the stream stays open.
   */
  lemma CurrentLocationTakesFirst(accuracy: Accuracy, a: ManagerAuthorization, generation: nat,
                                  k: PlatformAccuracies, first: Location, second: Location)
    requires Authorized(a)
    ensures var x := Authorize(NewRequest(OneShot, accuracy), a, generation, k);
            && x.commands == [StartUpdating(CLOtherNavigation, Accuracies.ToPlatform(accuracy, k), true)]
            && var r1 := Sample(x.request, generation + 1, first);
               && r1.stream == Stream([first], Open)
               && Sample(r1, generation + 1, second) == r1
  {
  }

  /** `beginPositioning` once authorized hears every location on its subject, in order. */
  lemma PositioningHearsAll(activity: ActivityType, accuracy: Accuracy, a: ManagerAuthorization, generation: nat,
                            k: PlatformAccuracies, first: Location, second: Location)
    requires Authorized(a)
    ensures var x := Authorize(NewRequest(Continuous(activity), accuracy), a, generation, k);
            Sample(Sample(x.request, generation + 1, first), generation + 1, second).stream == Stream([first, second], Open)
  {
  }

  /**
   * Teardown differs: a failure after the start stops the sensor for
   * `currentLocation` and leaves it running for `beginPositioning`; a
   * cancellation stops it for both.
   */
  lemma TeardownDiffers(kind: RequestKind, accuracy: Accuracy, a: ManagerAuthorization, generation: nat,
                        k: PlatformAccuracies, e: LocationError)
    requires Authorized(a)
    ensures var r := Authorize(NewRequest(kind, accuracy), a, generation, k).request;
            && (Fail(r, generation + 1, e).commands == [StopUpdating] <==> kind.OneShot?)
            && (Fail(r, generation + 1, e).commands == [] <==> kind.Continuous?)
            && Cancel(r).commands == [StopUpdating]
  {
  }

  /** A gate failure stops the sensor for `currentLocation` even though it was never started. */
  lemma GateFailureStops(accuracy: Accuracy, a: ManagerAuthorization, generation: nat, k: PlatformAccuracies)
    requires a == Restricted || a == Denied
    ensures Authorize(NewRequest(OneShot, accuracy), a, generation, k)
         == Reaction(LocationRequest(OneShot, accuracy, None, false, Stream([], Failure(NotAuthorized))), false, [StopUpdating])
  {
  }

  /** A terminated request ignores everything but cancellation, and cancellation too. */
  lemma TerminatedIsFinal(r: LocationRequest, a: ManagerAuthorization, generation: nat, k: PlatformAccuracies,
                          l: Location, e: LocationError)
    requires !r.stream.IsOpen()
    ensures Authorize(r, a, generation, k).request == r && Sample(r, generation, l) == r
    ensures Fail(r, generation, e).request == r && Cancel(r).request == r
    ensures Authorize(r, a, generation, k).commands == [] && Cancel(r).commands == []
  {
  }

  // ----- Region monitors -----

  /**
   * A subscription to `monitorRegion(region)`, made when `since` geofence
   * events had been sent; `cancelledAt` is the number sent when it was cancelled.
   */
  datatype Monitor = Monitor(region: Region, since: nat, cancelledAt: Option<nat>)

  predicate MonitorWithin(m: Monitor, sent: nat) {
    m.since <= sent && (m.cancelledAt.Some? ==> m.since <= m.cancelledAt.value <= sent)
  }

  /** What a monitor has received of the events `fences`, routed to its region. */
  function Received(m: Monitor, fences: seq<GeoFence>): (s: Stream<GeoFence>)
    requires MonitorWithin(m, |fences|)
    ensures forall i :: 0 <= i < |s.values| ==> Id(s.values[i]) == m.region.id && !s.values[i].Failed?
  {
    match m.cancelledAt
    case None => Route(fences[m.since..], m.region)
    case Some(k) =>
      var s := Route(fences[m.since..k], m.region);
      if s.IsOpen() then Stream(s.values, Cancelled) else s
  }

  /** The monitors a failure for the id `id` ends, as the `stopMonitoring` calls their completion makes. */
  function StopsFor(monitors: seq<Monitor>, fences: seq<GeoFence>, id: string): (cs: seq<SensorCommand>)
    requires forall i :: 0 <= i < |monitors| ==> MonitorWithin(monitors[i], |fences|)
  {
    if monitors == [] then []
    else
      var m := monitors[|monitors| - 1];
      StopsFor(monitors[..|monitors| - 1], fences, id)
        + if Received(m, fences).IsOpen() && m.region.id == id then [StopMonitoring(ToCircular(m.region))] else []
  }

  /** A failure event for a monitor's id ends it, with the failure's error. */
  lemma FailureEndsMonitor(m: Monitor, fences: seq<GeoFence>, r: Region, e: LocationError)
    requires MonitorWithin(m, |fences|) && m.region.id == r.id
    ensures Received(m, fences).IsOpen() ==>
              Received(m, fences + [Failed(r, e)]) == Stream(Received(m, fences).values, Failure(FromError(Error.Location(e))))
    ensures !Received(m, fences + [Failed(r, e)]).IsOpen()
  {
    assert (fences + [Failed(r, e)])[m.since..] == fences[m.since..] + [Failed(r, e)];
    RouteAppend(fences[m.since..], Failed(r, e), m.region);
    if m.cancelledAt.Some? {
      assert (fences + [Failed(r, e)])[m.since..m.cancelledAt.value] == fences[m.since..m.cancelledAt.value];
    }
  }

  /** An event for another id changes nothing a monitor has received. */
  lemma OtherIdUnseen(m: Monitor, fences: seq<GeoFence>, g: GeoFence)
    requires MonitorWithin(m, |fences|) && Id(g) != m.region.id
    ensures Received(m, fences + [g]) == Received(m, fences)
  {
    assert (fences + [g])[m.since..] == fences[m.since..] + [g];
    RouteAppend(fences[m.since..], g, m.region);
    if m.cancelledAt.Some? {
      assert (fences + [g])[m.since..m.cancelledAt.value] == fences[m.since..m.cancelledAt.value];
    }
  }

  // ----- The adapter -----

  class CoreLocationManager {
    /** The values of the seven `kCLLocationAccuracy...` constants. */
    const accuracies: PlatformAccuracies

    /** The platform's `authorizationStatus`. */
    var status: CLAuthorizationStatus
    /** Every value `authorizationSubject` has held, the current one last. */
    var authorizations: seq<ManagerAuthorization>
    var isLocating: bool
    /** `locationObservationSubject.value`. */
    var lastLocation: Option<Location>
    /** Which location subject is current: each replacement takes the next number. */
    var generation: nat
    var commands: seq<SensorCommand>
    /** Every event sent on `geoFenceSubject`. */
    var fences: seq<GeoFence>
    var request: Option<LocationRequest>
    var monitors: seq<Monitor>

    /**
     * The authorization subject never repeats a value, and a request that is
     * still open is not past a refusal, and waits only while undetermined.
     */
    ghost predicate Valid()
      reads this`authorizations, this`request, this`generation, this`monitors, this`fences
    {
      && authorizations != []
      && (forall i :: 0 < i < |authorizations| ==> authorizations[i] != authorizations[i - 1])
      && (request.Some? && request.value.stream.IsOpen() ==>
            && !Gate(authorizations[|authorizations| - 1]).Reject?
            && (request.value.listening.None? ==> authorizations[|authorizations| - 1] == NotDetermined)
            && (request.value.listening.Some? ==> request.value.listening.value == generation))
      && (forall i :: 0 <= i < |monitors| ==> MonitorWithin(monitors[i], |fences|))
    }

    /** The value `authorizationSubject` holds. */
    function SubjectAuthorization(): ManagerAuthorization
      requires authorizations != []
      reads this`authorizations
    {
      authorizations[|authorizations| - 1]
    }

    /** `authorization`: read from the platform, which can be ahead of the subject. */
    function CurrentAuthorization(): (a: ManagerAuthorization)
      reads this`status
      ensures a == FromStatus(status)
    {
      FromStatus(status)
    }

    /** `init()`: the subject starts from the platform's status, the observation from the platform's last location. */
    constructor(accuracies: PlatformAccuracies, status: CLAuthorizationStatus, location: Option<CLLocation>)
      ensures this.accuracies == accuracies && this.status == status
      ensures authorizations == [FromStatus(status)]
      ensures lastLocation == if location.Some? then Some(Locations.FromPlatform(location.value)) else None
      ensures !isLocating && generation == 0 && commands == [] && fences == [] && request == None && monitors == []
      ensures Valid()
    {
      this.accuracies := accuracies;
      this.status := status;
      authorizations := [FromStatus(status)];
      lastLocation := if location.Some? then Some(Locations.FromPlatform(location.value)) else None;
      isLocating := false;
      generation := 0;
      commands := [];
      fences := [];
      request := None;
      monitors := [];
    }

    /** `requestAuthorization`: ask the platform for when-in-use authorization. */
    method RequestAuthorization()
      modifies this`commands
      ensures commands == old(commands) + [RequestWhenInUseAuthorization]
    {
      commands := commands + [RequestWhenInUseAuthorization];
    }

    /** Apply a reaction of the request. */
    method Apply(x: Reaction)
      modifies this`request, this`generation, this`commands
      ensures request == Some(x.request)
      ensures generation == if x.restarted then old(generation) + 1 else old(generation)
      ensures commands == old(commands) + x.commands
    {
      request := Some(x.request);
      if x.restarted {
        generation := generation + 1;
      }
      commands := commands + x.commands;
    }

    /** The open request (if any) receives an authorization state from the subject. */
    method Deliver(a: ManagerAuthorization)
      modifies this`request, this`generation, this`commands
      ensures old(request).None? ==> request == None && unchanged(this)
      ensures old(request).Some? ==>
                var x := Authorize(old(request).value, a, old(generation), accuracies);
                && request == Some(x.request)
                && generation == (if x.restarted then old(generation) + 1 else old(generation))
                && commands == old(commands) + x.commands
    {
      if request.Some? {
        Apply(Authorize(request.value, a, generation, accuracies));
      }
    }

    /** Subscribe a request: the gate first sees the subject's current value. */
    method Subscribe(kind: RequestKind, accuracy: Accuracy)
      requires Valid()
      modifies this`request, this`generation, this`commands
      ensures Valid()
      ensures var x := Authorize(NewRequest(kind, accuracy), SubjectAuthorization(), old(generation), accuracies);
              && request == Some(x.request)
              && generation == (if x.restarted then old(generation) + 1 else old(generation))
              && commands == old(commands) + x.commands
    {
      request := Some(NewRequest(kind, accuracy));
      Deliver(SubjectAuthorization());
    }

    /** `currentLocation(withAccuracy:)`. */
    method CurrentLocation(accuracy: Accuracy)
      requires Valid()
      modifies this`request, this`generation, this`commands
      ensures Valid()
      ensures var x := Authorize(NewRequest(OneShot, accuracy), SubjectAuthorization(), old(generation), accuracies);
              && request == Some(x.request)
              && generation == (if x.restarted then old(generation) + 1 else old(generation))
              && commands == old(commands) + x.commands
    {
      Subscribe(OneShot, accuracy);
    }

    /** `beginPositioning(forActivity:withAccuracy:)`. */
    method BeginPositioning(activity: ActivityType, accuracy: Accuracy)
      requires Valid()
      modifies this`request, this`generation, this`commands
      ensures Valid()
      ensures var x := Authorize(NewRequest(Continuous(activity), accuracy), SubjectAuthorization(), old(generation), accuracies);
              && request == Some(x.request)
              && generation == (if x.restarted then old(generation) + 1 else old(generation))
              && commands == old(commands) + x.commands
    {
      Subscribe(Continuous(activity), accuracy);
    }

    /** Cancel the location request's subscription. */
    method CancelRequest()
      requires Valid()
      modifies this`request, this`commands
      ensures Valid()
      ensures old(request).None? ==> unchanged(this)
      ensures old(request).Some? ==>
                request == Some(Cancel(old(request).value).request)
                && commands == old(commands) + Cancel(old(request).value).commands
    {
      if request.Some? {
        var x := Cancel(request.value);
        request := Some(x.request);
        commands := commands + x.commands;
      }
    }

    /** `didChangeAuthorization`: a state different from the subject's is sent, and the request's gate sees it. */
    method DidChangeAuthorization(s: CLAuthorizationStatus)
      requires Valid()
      modifies this`status, this`authorizations, this`request, this`generation, this`commands
      ensures Valid()
      ensures status == s
      ensures FromStatus(s) == old(SubjectAuthorization()) ==>
                authorizations == old(authorizations) && request == old(request)
                && generation == old(generation) && commands == old(commands)
      ensures FromStatus(s) != old(SubjectAuthorization()) ==>
                authorizations == old(authorizations) + [FromStatus(s)]
                && (old(request).Some? ==>
                      var x := Authorize(old(request).value, FromStatus(s), old(generation), accuracies);
                      && request == Some(x.request)
                      && generation == (if x.restarted then old(generation) + 1 else old(generation))
                      && commands == old(commands) + x.commands)
    {
      status := s;
      var a := FromStatus(s);
      if a != SubjectAuthorization() {
        authorizations := authorizations + [a];
        Deliver(a);
      }
    }

    /** `locationManagerDidResumeLocationUpdates`. */
    method DidResume()
      modifies this`isLocating
      ensures isLocating
    {
      isLocating := true;
    }

    /** `locationManagerDidPauseLocationUpdates`. */
    method DidPause()
      modifies this`isLocating
      ensures !isLocating
    {
      isLocating := false;
    }

    /**
     * `didUpdateLocations`: an empty list changes nothing; otherwise the last
     * sample alone goes to the request and becomes the last location.
     */
    method DidUpdateLocations(locations: seq<CLLocation>)
      requires Valid()
      modifies this`request, this`lastLocation
      ensures Valid()
      ensures locations == [] ==> unchanged(this)
      ensures locations != [] ==>
                var l := Locations.FromPlatform(locations[|locations| - 1]);
                && lastLocation == Some(l)
                && request == if old(request).Some? then Some(Sample(old(request).value, generation, l)) else None
    {
      if locations == [] {
        return;
      }
      var l := Locations.FromPlatform(locations[|locations| - 1]);
      if request.Some? {
        request := Some(Sample(request.value, generation, l));
      }
      lastLocation := Some(l);
    }

    /** `didFailWithError`: the classified error fails the request that is listening. */
    method DidFailWithError(e: Error)
      requires Valid()
      modifies this`request, this`commands
      ensures Valid()
      ensures old(request).None? ==> unchanged(this)
      ensures old(request).Some? ==>
                var x := Fail(old(request).value, generation, Classify(e));
                request == Some(x.request) && commands == old(commands) + x.commands
    {
      if request.Some? {
        var x := Fail(request.value, generation, Classify(e));
        request := Some(x.request);
        commands := commands + x.commands;
      }
    }

    /** `didEnterRegion`: only a circular region becomes an event. */
    method DidEnterRegion(region: CLRegion)
      requires Valid()
      modifies this`fences
      ensures Valid()
      ensures fences == old(fences) + if region.Circular? then [Entered(FromCircular(region.circular))] else []
    {
      if region.Circular? {
        fences := fences + [Entered(FromCircular(region.circular))];
      }
    }

    /** `didExitRegion`: only a circular region becomes an event. */
    method DidExitRegion(region: CLRegion)
      requires Valid()
      modifies this`fences
      ensures Valid()
      ensures fences == old(fences) + if region.Circular? then [Exited(FromCircular(region.circular))] else []
    {
      if region.Circular? {
        fences := fences + [Exited(FromCircular(region.circular))];
      }
    }

    /**
     * `monitoringDidFailFor`: a circular region becomes a failure event, which
     * ends every monitor of its id; each one ended stops its platform monitoring.
     */
    method MonitoringDidFail(region: Option<CLRegion>, e: Error)
      requires Valid()
      modifies this`fences, this`commands
      ensures Valid()
      ensures !(region.Some? && region.value.Circular?) ==> unchanged(this)
      ensures region.Some? && region.value.Circular? ==>
                var r := FromCircular(region.value.circular);
                && fences == old(fences) + [Failed(r, UndefinedError(Some(e)))]
                && commands == old(commands) + StopsFor(monitors, old(fences), r.id)
                && (forall i :: 0 <= i < |monitors| && monitors[i].region.id == r.id ==>
                      !Received(monitors[i], fences).IsOpen())
                && (forall i :: 0 <= i < |monitors| && monitors[i].region.id != r.id ==>
                      Received(monitors[i], fences) == Received(monitors[i], old(fences)))
    {
      if !(region.Some? && region.value.Circular?) {
        return;
      }
      var r := FromCircular(region.value.circular);
      var before := fences;
      fences := fences + [Failed(r, UndefinedError(Some(e)))];
      for i := 0 to |monitors|
        invariant fences == before + [Failed(r, UndefinedError(Some(e)))]
        invariant commands == old(commands) + StopsFor(monitors[..i], before, r.id)
      {
        assert monitors[..i + 1][..i] == monitors[..i];
        var m := monitors[i];
        if Received(m, before).IsOpen() && m.region.id == r.id {
          commands := commands + [StopMonitoring(ToCircular(m.region))];
        }
      }
      assert monitors[..|monitors|] == monitors;
      assert forall i :: 0 <= i < |monitors| ==> MonitorWithin(monitors[i], |fences|) by {
        forall i | 0 <= i < |monitors| ensures MonitorWithin(monitors[i], |fences|) {
          assert MonitorWithin(monitors[i], |before|);
        }
      }
      forall i | 0 <= i < |monitors|
        ensures monitors[i].region.id == r.id ==> !Received(monitors[i], fences).IsOpen()
        ensures monitors[i].region.id != r.id ==> Received(monitors[i], fences) == Received(monitors[i], before)
      {
        if monitors[i].region.id == r.id {
          FailureEndsMonitor(monitors[i], before, r, UndefinedError(Some(e)));
        } else {
          OtherIdUnseen(monitors[i], before, Failed(r, UndefinedError(Some(e))));
        }
      }
    }

    /** `monitorRegion(_:)`: subscribing starts platform monitoring of the region. */
    method MonitorRegion(region: Region) returns (index: nat)
      requires Valid()
      modifies this`monitors, this`commands
      ensures Valid()
      ensures index == |old(monitors)| && monitors == old(monitors) + [Monitor(region, |fences|, None)]
      ensures commands == old(commands) + [StartMonitoring(ToCircular(region))]
    {
      index := |monitors|;
      monitors := monitors + [Monitor(region, |fences|, None)];
      commands := commands + [StartMonitoring(ToCircular(region))];
    }

    /** Cancelling a monitor that is still open stops platform monitoring; an ended one is past cancelling. */
    method CancelMonitor(index: nat)
      requires Valid() && index < |monitors|
      modifies this`monitors, this`commands
      ensures Valid()
      ensures Received(old(monitors)[index], fences).IsOpen() ==>
                monitors == old(monitors)[index := Monitor(old(monitors)[index].region, old(monitors)[index].since, Some(|fences|))]
                && commands == old(commands) + [StopMonitoring(ToCircular(old(monitors)[index].region))]
      ensures !Received(old(monitors)[index], fences).IsOpen() ==> unchanged(this)
    {
      var m := monitors[index];
      if Received(m, fences).IsOpen() {
        monitors := monitors[index := Monitor(m.region, m.since, Some(|fences|))];
        commands := commands + [StopMonitoring(ToCircular(m.region))];
      }
    }

    /** `ensureAuthorized`: request authorization, then observe the subject from its current value on. */
    method EnsureAuthorized() returns (since: nat)
      requires Valid()
      modifies this`commands
      ensures commands == old(commands) + [RequestWhenInUseAuthorization]
      ensures since == |authorizations| - 1
      ensures AuthorizedFrom(since) == FirstAuthorized([SubjectAuthorization()])
    {
      RequestAuthorization();
      since := |authorizations| - 1;
      assert authorizations[since..] == [SubjectAuthorization()];
    }

    /** What `ensureAuthorized` has produced from the subject values since `since`. */
    function AuthorizedFrom(since: nat): Stream<ManagerAuthorization>
      requires since < |authorizations|
      reads this`authorizations
    {
      FirstAuthorized(authorizations[since..])
    }
  }
}
