# Location: a verified model of the location managers

This project models the Swift package `Location` in Dafny. The package puts
one `LocationManager` protocol in front of two backends:

- `EmulatedLocationManager` plays back a configured script. It has an
  authorization behaviour, a geocoding table, a list of positioning samples
  replayed on a timer, and a set of regions it monitors itself. As the
  location changes, it sorts those regions into "containing" and "not
  containing" and emits `entered` / `exited` geofence events.
- `CoreLocationManager` adapts the platform's `CLLocationManager`. The
  platform's delegate callbacks drive its Combine subjects. Its location
  publishers are gated on authorization.

The model also covers the value types both backends share: `Accuracy`,
`ActivityType`, `ManagerAuthorization`, `LocationError`, `Location`, `Region`,
`PostalAddress` and `GeoFence`, together with their platform conversions. It
also covers the protocol extension (`authorized`, `ensureAuthorized`).

How the model is built:

- Each Combine publisher is a `Stream`. A stream is the finite prefix a
  subscriber has seen: the values so far, plus whether it is still open,
  finished, failed with a `LocationError`, or cancelled.
- Each subject a manager owns becomes a field. The emulated manager records
  every value it sends, on any of its subjects, in order in `published`. The
  adapter records in order every value sent on its geofence subject
  (`fences`) and its authorization subject (`authorizations`). Of its other
  subjects it keeps only the current value: `isLocating`, `lastLocation`,
  and, for the location subject, a `generation` number telling which subject
  instance is current; what a location request receives from it is kept in
  the request's own stream.
- The platform calls the adapter makes are recorded in order in `commands`.
- A timer that fires becomes an explicit `Tick`.
- A delegate callback becomes a method taking the callback's arguments.

Modules. The emulated manager's file is split between `TransitionEngine`
(its region arithmetic, as functions) and `Emulation` (the class);
`Geodesy`, `Streams` and `Wrappers` are support modules that model no
source file of their own:

| module | file |
|---|---|
| `Geodesy` | coordinates; the distance estimate as a parameter |
| `Accuracies`, `Activities`, `Authorization`, `Errors` | the enums and their platform mappings |
| `Locations`, `Regions`, `PostalAddresses` | the value records and their platform forms |
| `GeoFences` | geofence events and the `monitorRegion` routing both backends use |
| `Streams`, `Wrappers` | publisher prefixes; `Option` |
| `LocationManagerContract` | `authorized` and `ensureAuthorized` |
| `TransitionEngine` | the emulated manager's region arrays, as functions and lemmas |
| `Emulation` | `EmulatedLocationManager`, a class with the invariant `Valid` |
| `CoreLocationAdapter` | `CoreLocationManager`, a class driven by delegate callbacks |

The emulated manager's invariant (`Emulation.Consistent`) has two parts:

- When the configured regions have unique ids, the two arrays always hold
  exactly those regions. They are a permutation of the configuration and
  keep unique ids.
- Once a location is known, every region in "containing" contains it and no
  region in "not containing" does.

`TransitionToLocation` preserves this invariant. As a consequence, a second
transition to the same coordinates sends no event and moves no region.

## Model

| member | source | states |
|---|---|---|
| Authorization.FromRawValue | Sources/Location/ManagerAuthorization.swift:3-14 | a decoded raw value names the case it was decoded to |
| Authorization.RawValue | Sources/Location/ManagerAuthorization.swift:3-14 | the raw value of a case is a non-empty lower-camel-case identifier (its name) |
| Authorization.RawValueRoundTrip | Sources/Location/ManagerAuthorization.swift:3-14 | every case decodes back from its raw value, so the five raw values are distinct |
| Authorization.DescriptionsDistinct | Sources/Location/ManagerAuthorization.swift:16-31 | two cases share a description exactly when they are the same case |
| Authorization.Description | Sources/Location/ManagerAuthorization.swift:16-31 | each case is described by a fixed sentence of 60 to 109 characters |
| Authorization.FromStatus | Sources/Location/ManagerAuthorization.swift:37-50 | a known status maps to the case of the same name; every unknown status maps to notDetermined |
| Authorization.FromStatusCharacterization | Sources/Location/ManagerAuthorization.swift:37-50 | the platform mapping inverts the naming of statuses; notDetermined is produced only by its own status and by unknown ones |
| Accuracies.FromRawValue | Sources/Location/Accuracy.swift:8-16 | a decoded raw value names the case it was decoded to |
| Accuracies.RawValue | Sources/Location/Accuracy.swift:8-16 | the raw value of a case is a non-empty lower-camel-case identifier (its name) |
| Accuracies.ToPlatform | Sources/Location/Accuracy.swift:43-60 | every case other than `reduced` maps to one of the six constants the reverse mapping tests; `reduced` maps to its own constant |
| Accuracies.RawValueRoundTrip | Sources/Location/Accuracy.swift:8-16 | every case decodes back from its raw value |
| Accuracies.FromPlatform | Sources/Location/Accuracy.swift:22-39 | a value that matches none of the six listed constants is `reduced`; any other result is the case whose constant equals the value |
| Accuracies.RoundTrip | Sources/Location/Accuracy.swift:22-60 | with pairwise distinct constants, Accuracy to platform and back is the identity |
| Accuracies.ReducedRoundTrip | Sources/Location/Accuracy.swift:36-58 | `reduced` survives the round trip exactly when its constant is none of the six tested ones |
| Activities.FromRawValue | Sources/Location/ActivityType.swift:3-14 | a decoded raw value names the case it was decoded to |
| Activities.RawValue | Sources/Location/ActivityType.swift:3-14 | the raw value of a case is a non-empty lower-camel-case identifier (its name) |
| Activities.FromPlatform | Sources/Location/ActivityType.swift:19-34 | the result is `.other` exactly for the platform's `.other` and for unknown platform cases |
| Activities.ToPlatform | Sources/Location/ActivityType.swift:36-51 | never an unknown platform case, and mapping back gives the activity |
| Activities.RawValueRoundTrip | Sources/Location/ActivityType.swift:3-14 | every case decodes back from its raw value |
| Activities.RoundTrip | Sources/Location/ActivityType.swift:19-51 | ActivityType to platform and back is the identity |
| Activities.PlatformRoundTrip | Sources/Location/ActivityType.swift:19-51 | platform to ActivityType and back is the identity except on unknown platform cases, which come back as `.other` |
| Errors.FromError | Sources/Location/LocationError.swift:8-15 | a LocationError is kept as it is; any other error is wrapped as `undefinedError` carrying it |
| Errors.FromErrorKeepsLocationErrors | Sources/Location/LocationError.swift:10-11 | converting a thrown LocationError gives it back unchanged |
| Errors.FromErrorIdempotent | Sources/Location/LocationError.swift:8-15 | converting twice equals converting once |
| Errors.FromErrorNotAuthorized | Sources/Location/LocationError.swift:8-15 | the result is `notAuthorized` exactly when the error was `notAuthorized` |
| Locations.NewLocation | Sources/Location/Location.swift:30-46 | each field of the new location is the argument given for it |
| Locations.LocationDefaults | Sources/Location/Location.swift:30-38 | defaults: zero altitude and every optional measurement nil |
| Locations.Decode | Sources/Location/Location.swift:57-60 | a platform value is kept exactly when it is non-negative; a negative one is nil |
| Locations.Encode | Sources/Location/Location.swift:69-72 | nil is written as -1.0; a present value is written unchanged |
| Locations.DecodeEncode | Sources/Location/Location.swift:53-75 | the field round trip is the identity on nil and non-negative values, and turns a negative value into nil |
| Locations.EncodeDecode | Sources/Location/Location.swift:53-75 | the platform round trip keeps non-negative values and normalises every negative one to -1.0 |
| Locations.FromPlatform | Sources/Location/Location.swift:53-61 | a converted location keeps coordinates, time and altitude, and every optional field is nil or non-negative |
| Locations.ToPlatform | Sources/Location/Location.swift:65-75 | the platform form keeps coordinates, time and altitude |
| Locations.RoundTrip | Sources/Location/Location.swift:53-75 | Location to platform and back drops exactly the negative optional values; on well-formed locations it is the identity |
| Locations.PlatformRoundTrip | Sources/Location/Location.swift:53-75 | platform to Location and back changes only how "unknown" is spelt (-1.0) |
| Regions.CoordinatesOf | Sources/Location/Region.swift:22 | a region's coordinates are its center |
| Regions.RegionDefaults | Sources/Location/Region.swift:12-20 | the default region has an empty id, center (0, 0) and a 100 m radius |
| Regions.FromCircular | Sources/Location/Region.swift:29-33 | id, center and radius come from the platform region's identifier, center and radius |
| Regions.ToCircular | Sources/Location/Region.swift:37-43 | identifier, center and radius come from the region's id, center and radius |
| Regions.CircularRoundTrip | Sources/Location/Region.swift:29-43 | the two conversions are mutually inverse |
| PostalAddresses.DefaultAddressIsEmpty | Sources/Location/PostalAddress.swift:9-19 | the default address has four empty fields |
| PostalAddresses.EqualityIsStructural | Sources/Location/PostalAddress.swift:3 | two addresses are equal (the same geocoding key) exactly when all four fields agree |
| PostalAddresses.FromStreetLines | Sources/Location/PostalAddress.swift:21-32 | an empty second line leaves the street as the first line; otherwise the street is the first line, a newline and the second line, each at its position; city, state and zip code go to their fields unchanged |
| PostalAddresses.StreetLinesRoundTrip | Sources/Location/PostalAddress.swift:28 | when the first line has no newline, both street lines can be recovered from `street`, whether or not the second line is empty |
| PostalAddresses.Description | Sources/Location/PostalAddress.swift:36-38 | the description is street, ", ", city, ", ", state, " ", postal code: each segment at its position, and nothing else |
| GeoFences.Id | Sources/Location/GeoFence.swift:10-15 | every kind of event is identified by its region's id |
| GeoFences.FailedIdIgnoresError | Sources/Location/GeoFence.swift:12-13 | the error carried by a failure plays no part in its id |
| GeoFences.Step | Sources/LocationEmulation/EmulatedLocationManager.swift:212-222 | a terminated monitor or an event with another id changes nothing; a failure with the id ends the monitor with its own error; any other event with the id is received |
| GeoFences.Route | Sources/LocationEmulation/EmulatedLocationManager.swift:211-224 | a monitor receives only events with its id, never a failure as a value, and never finishes normally |
| GeoFences.RouteAppend | Sources/LocationEmulation/EmulatedLocationManager.swift:211-224 | one more event on the subject extends a monitor by exactly one routing step |
| GeoFences.RouteSeesOnlyItsId | Sources/LocationEmulation/EmulatedLocationManager.swift:212-213 | routing depends only on the events with the monitored id; without a failure among them the monitor is open and has received exactly those events |
| GeoFences.RouteStopsAtFailure | Sources/LocationEmulation/EmulatedLocationManager.swift:214-222 | the first failure for the id ends the monitor with that failure's error, after the earlier events for the id; nothing later is seen |
| GeoFences.RoutePastTermination | Sources/LocationEmulation/EmulatedLocationManager.swift:214-222 | a terminated monitor ignores every later event |
| GeoFences.IndependentMonitors | Tests/LocationTests/GeoFencePublisherTests.swift:18-51 | an entry for region one and a failure for region two leave monitor one open with its entry, and fail monitor two without a value |
| LocationManagerContract.Authorized | Sources/Location/LocationManager.swift:35 | not authorized exactly in notDetermined, restricted and denied |
| LocationManagerContract.AuthorizedCharacterization | Sources/Location/LocationManager.swift:35 | authorized exactly for authorizedAlways and authorizedWhenInUse |
| LocationManagerContract.FirstAuthorized | Sources/Location/LocationManager.swift:37-52 | finishes exactly when some delivered state is authorized, with the first such state as its single value; otherwise it stays open and empty; it never fails |
| LocationManagerContract.EnsureAuthorizedNeverFails | Sources/Location/LocationManager.swift:41-49 | denial and restriction make `ensureAuthorized` wait rather than fail |
| TransitionEngine.Select | Sources/LocationEmulation/EmulatedLocationManager.swift:232-250 | the selection holds exactly the regions of the array whose membership of the location is the one asked for |
| TransitionEngine.RemoveIds | Sources/LocationEmulation/EmulatedLocationManager.swift:256-257 | what is left holds exactly the regions whose id is not removed |
| TransitionEngine.Entering | Sources/LocationEmulation/EmulatedLocationManager.swift:232-238 | the regions entered are exactly those of "not containing" that contain the new location |
| TransitionEngine.Leaving | Sources/LocationEmulation/EmulatedLocationManager.swift:244-250 | the regions exited are exactly those of "containing" that do not contain the new location |
| TransitionEngine.NextContaining | Sources/LocationEmulation/EmulatedLocationManager.swift:256-260 | afterwards "containing" holds only regions from the two arrays that contain the location, including every entered one |
| TransitionEngine.NextNotContaining | Sources/LocationEmulation/EmulatedLocationManager.swift:256-260 | afterwards "not containing" holds only regions from the two arrays that do not contain the location, including every exited one |
| TransitionEngine.StayersKeepSide | Sources/LocationEmulation/EmulatedLocationManager.swift:256-257 | what removal by the movers' ids leaves sits on the right side of the location, whatever the ids |
| TransitionEngine.TransitionEvents | Sources/LocationEmulation/EmulatedLocationManager.swift:232-254 | one event per entered or exited region; each entry is for a region of "not containing" now containing the location, each exit for a region of "containing" no longer containing it; all entries come before all exits |
| TransitionEngine.SelectSplits | Sources/LocationEmulation/EmulatedLocationManager.swift:95-101 | each region goes to exactly one side: the two sides are a permutation of the input |
| TransitionEngine.RemoveSelected | Sources/LocationEmulation/EmulatedLocationManager.swift:256-257 | with unique ids, removing by the ids of the movers leaves exactly the stayers |
| TransitionEngine.TransitionSorts | Sources/LocationEmulation/EmulatedLocationManager.swift:229-261 | with unique ids, the new arrays are the stayers in their order followed by the movers |
| TransitionEngine.MatchesMembership | Sources/LocationEmulation/EmulatedLocationManager.swift:232-250 | the arrays match a location exactly when every containing region contains it and no other region does |
| TransitionEngine.InitialPartition | Sources/LocationEmulation/EmulatedLocationManager.swift:92-101 | the initial split of regions with unique ids keeps them all, with unique ids |
| TransitionEngine.InitialMatches | Sources/LocationEmulation/EmulatedLocationManager.swift:92-101 | the initial split matches the initial location |
| TransitionEngine.TransitionPermutes | Sources/LocationEmulation/EmulatedLocationManager.swift:256-260 | with unique ids in each array, a transition neither adds nor loses a region |
| TransitionEngine.TransitionMatches | Sources/LocationEmulation/EmulatedLocationManager.swift:256-260 | after a transition the arrays match the new location, whatever the ids |
| TransitionEngine.DuplicateIdsLoseRegion | Sources/LocationEmulation/EmulatedLocationManager.swift:256-260 | with two regions sharing an id, removal by id can drop a region from both arrays |
| TransitionEngine.TransitionKeepsPartition | Sources/LocationEmulation/EmulatedLocationManager.swift:229-261 | a transition keeps the partition and establishes that the arrays match the new location |
| TransitionEngine.NoEventsWhenMatching | Sources/LocationEmulation/EmulatedLocationManager.swift:232-254 | arrays that already match a location produce no events and stay unchanged |
| TransitionEngine.NoDoubleFire | Sources/LocationEmulation/EmulatedLocationManager.swift:229-261 | a second transition to the same coordinates sends nothing and moves nothing, whatever the ids |
| TransitionEngine.EnterThenExit | Sources/LocationEmulation/EmulatedLocationManager.swift:229-261 | near and then far from one region give one entry, then one exit, with the region moving each time |
| Emulation.Requested | Sources/LocationEmulation/EmulatedLocationManager.swift:131-146 | success leads to authorizedAlways and failure to denied, and no other pairing |
| Emulation.Fenced | Sources/LocationEmulation/EmulatedLocationManager.swift:240-254 | one send per event, in the order of the events |
| Emulation.FencesOfFenced | Sources/LocationEmulation/EmulatedLocationManager.swift:240-254 | a geofence subscriber hears exactly the events sent, in order |
| Emulation.FencesOfConcat | Sources/LocationEmulation/EmulatedLocationManager.swift:67 | what the geofence subscriber hears of two runs of sends is what it hears of each, in order |
| Emulation.PartitionRegions | Sources/LocationEmulation/EmulatedLocationManager.swift:95-101 | the loop puts exactly the regions containing the location into "containing" and the rest into "not containing", in order |
| Emulation.InitialConsistent | Sources/LocationEmulation/EmulatedLocationManager.swift:92-105 | both initial states satisfy the invariant |
| Emulation.TransitionConsistent | Sources/LocationEmulation/EmulatedLocationManager.swift:229-261 | a transition keeps the invariant; at the last location's coordinates it emits nothing and moves nothing |
| Emulation.Advanced | Sources/LocationEmulation/EmulatedLocationManager.swift:194-207 | each tick delivers the next location of the script; the stream finishes exactly when the last one it takes is delivered |
| Emulation.EmulatedLocationManager.constructor | Sources/LocationEmulation/EmulatedLocationManager.swift:77-106 | the settings are stored, the regions are split by the initial coordinates (all "not containing" without coordinates), and the invariant holds |
| Emulation.EmulatedLocationManager.FromConfiguration | Sources/LocationEmulation/EmulatedLocationManager.swift:108-129 | each missing setting takes the default of the other initialiser, and the invariant holds |
| Emulation.EmulatedLocationManager.RequestAuthorization | Sources/LocationEmulation/EmulatedLocationManager.swift:131-146 | moves to the behaviour's state; sends it only when it differs from the current state |
| Emulation.EmulatedLocationManager.RequestAuthorizationTwice | Sources/LocationEmulation/EmulatedLocationManager.swift:131-146 | asking twice sends at most one value |
| Emulation.EmulatedLocationManager.CoordinatesFor | Sources/LocationEmulation/EmulatedLocationManager.swift:148-150 | coordinates exactly for configured addresses, and they are the configured ones |
| Emulation.EmulatedLocationManager.EnsureAuthorized | Sources/Location/LocationManager.swift:37-52 | under success the stream finishes with authorizedAlways; under failure it stays open |
| Emulation.EmulatedLocationManager.Send | Sources/LocationEmulation/EmulatedLocationManager.swift:240-242 | every event is sent on the geofence subject, in order |
| Emulation.EmulatedLocationManager.TransitionToLocation | Sources/LocationEmulation/EmulatedLocationManager.swift:229-261 | publishes the location, then every entry, then every exit; moves the regions; keeps the invariant; repeating the last coordinates sends only the location |
| Emulation.EmulatedLocationManager.ApplyTransition | Sources/LocationEmulation/EmulatedLocationManager.swift:229-261 | the sends and moves of a transition, in source order |
| Emulation.EmulatedLocationManager.PublishTransition | Sources/LocationEmulation/EmulatedLocationManager.swift:230-254 | the location is published, then each entry, then each exit, in order |
| Emulation.EmulatedLocationManager.MoveRegions | Sources/LocationEmulation/EmulatedLocationManager.swift:256-260 | movers are removed by id from their old side and appended to the new one |
| Emulation.EmulatedLocationManager.BeginPositioning | Sources/LocationEmulation/EmulatedLocationManager.swift:181-209 | locating starts; with a script the replay is at its start, and without one the subscriber gets the last location if there is one |
| Emulation.EmulatedLocationManager.CurrentLocation | Sources/LocationEmulation/EmulatedLocationManager.swift:175-179 | a replay cut to one location; with no script and a known location it finishes at once and locating stops |
| Emulation.EmulatedLocationManager.Tick | Sources/LocationEmulation/EmulatedLocationManager.swift:194-207 | an open scripted replay gets its next location after the manager transitions to it; a one-shot replay then stops locating; anything else ignores the tick |
| Emulation.EmulatedLocationManager.Deliver | Sources/LocationEmulation/EmulatedLocationManager.swift:197-206 | the transition followed by the delivery, with the new state stated in full |
| Emulation.EmulatedLocationManager.DeliverSteps | Sources/LocationEmulation/EmulatedLocationManager.swift:197-206 | the steps of one tick in order: transition, delivery of the next scripted location, and the end of a one-shot replay |
| Emulation.EmulatedLocationManager.Conclude | Sources/LocationEmulation/EmulatedLocationManager.swift:204-206 | a one-shot replay that has its value stops locating and sends `false`; a continuous one changes nothing |
| Emulation.EmulatedLocationManager.StopLocating | Sources/LocationEmulation/EmulatedLocationManager.swift:204-206 | locating stops and `false` is sent |
| Emulation.EmulatedLocationManager.Cancel | Sources/LocationEmulation/EmulatedLocationManager.swift:204-206 | cancelling an open subscription stops locating; a terminated one is left alone |
| Emulation.EmulatedLocationManager.Replayed | Sources/LocationEmulation/EmulatedLocationManager.swift:194-207 | after n ticks the subscriber has the script's first n locations in order, and the stream finishes exactly when the script is exhausted |
| Emulation.EmulatedLocationManager.FirstScriptedLocation | Sources/LocationEmulation/EmulatedLocationManager.swift:175-179 | with a script, `currentLocation` yields the first scripted location, finishes and stops locating |
| Emulation.EmulatedLocationManager.MonitorRegion | Sources/LocationEmulation/EmulatedLocationManager.swift:211-224 | a monitor sees the sends made from the moment it subscribes |
| Emulation.EmulatedLocationManager.Received | Sources/LocationEmulation/EmulatedLocationManager.swift:211-224 | a monitor receives only its region's non-failure events, and ends only by failing |
| CoreLocationAdapter.Gate | Sources/Location/CoreLocation/CoreLocationManager.swift:91-100 | proceeds exactly when authorized, waits exactly while undetermined, and a rejection always carries notAuthorized |
| CoreLocationAdapter.GateCharacterization | Sources/Location/CoreLocation/CoreLocationManager.swift:91-100 | the gate proceeds exactly when authorized, waits exactly while undetermined, and otherwise fails with notAuthorized |
| CoreLocationAdapter.Classify | Sources/Location/CoreLocation/CoreLocationManager.swift:203-217 | notAuthorized exactly for the platform's denied error; every other error is wrapped as undefined |
| CoreLocationAdapter.ClassifyWrapsLocationErrors | Sources/Location/CoreLocation/CoreLocationManager.swift:206-207 | unlike `LocationError(_:)`, the callback wraps an error that already is a LocationError |
| CoreLocationAdapter.ActivityOf | Sources/Location/CoreLocation/CoreLocationManager.swift:105 | `currentLocation` always positions for `.otherNavigation`; `beginPositioning` uses the given activity |
| CoreLocationAdapter.StopOnCompletion | Sources/Location/CoreLocation/CoreLocationManager.swift:112-119 | a completion stops the sensor exactly for `currentLocation` (whose completion handler ends updates), never for `beginPositioning` |
| CoreLocationAdapter.Authorize | Sources/Location/CoreLocation/CoreLocationManager.swift:90-107 | an authorized state restarts an open request on a new subject and starts the sensor (activity, accuracy, automatic pausing); undetermined changes nothing; restricted or denied fails it with notAuthorized |
| CoreLocationAdapter.Sample | Sources/Location/CoreLocation/CoreLocationManager.swift:108-111 | a request receives a location exactly when it listens to the subject it was sent on and, for `currentLocation`, has not yet had its first |
| CoreLocationAdapter.Fail | Sources/Location/CoreLocation/CoreLocationManager.swift:112-116 | a failure on the request's subject fails it; only `currentLocation` then stops the sensor |
| CoreLocationAdapter.Cancel | Sources/Location/CoreLocation/CoreLocationManager.swift:117-119 | cancelling an open request stops the sensor |
| CoreLocationAdapter.EarlierSamplesUnseen | Sources/Location/CoreLocation/CoreLocationManager.swift:101-111 | a request whose gate has not opened hears no location |
| CoreLocationAdapter.CurrentLocationTakesFirst | Sources/Location/CoreLocation/CoreLocationManager.swift:90-121 | once authorized, `currentLocation` starts the sensor for `.otherNavigation`, receives the first location and ignores later ones |
| CoreLocationAdapter.PositioningHearsAll | Sources/Location/CoreLocation/CoreLocationManager.swift:123-143 | once authorized, `beginPositioning` receives every location, in order |
| CoreLocationAdapter.TeardownDiffers | Sources/Location/CoreLocation/CoreLocationManager.swift:112-150 | a failure stops the sensor exactly for `currentLocation`; cancelling stops it for both |
| CoreLocationAdapter.GateFailureStops | Sources/Location/CoreLocation/CoreLocationManager.swift:112-116 | a refused `currentLocation` fails with notAuthorized and still stops the sensor it never started |
| CoreLocationAdapter.TerminatedIsFinal | Sources/Location/CoreLocation/CoreLocationManager.swift:90-152 | a terminated request is changed by nothing and makes no platform call |
| CoreLocationAdapter.Received | Sources/Location/CoreLocation/CoreLocationManager.swift:154-165 | a monitor receives only its region's non-failure events |
| CoreLocationAdapter.FailureEndsMonitor | Sources/Location/CoreLocation/CoreLocationManager.swift:157-165 | a failure for a monitor's id ends it with that failure's error |
| CoreLocationAdapter.OtherIdUnseen | Sources/Location/CoreLocation/CoreLocationManager.swift:155-156 | an event for another id leaves what a monitor received unchanged |
| CoreLocationAdapter.CoreLocationManager.CurrentAuthorization | Sources/Location/CoreLocation/CoreLocationManager.swift:43 | `authorization` is the mapping of the platform's status, not the subject's value |
| CoreLocationAdapter.CoreLocationManager.constructor | Sources/Location/CoreLocation/CoreLocationManager.swift:32-39 | the subject starts from the platform's status and the observation from the platform's last location, if any |
| CoreLocationAdapter.CoreLocationManager.RequestAuthorization | Sources/Location/CoreLocation/CoreLocationManager.swift:47-49 | asks the platform for when-in-use authorization, and does nothing else |
| CoreLocationAdapter.CoreLocationManager.Subscribe | Sources/Location/CoreLocation/CoreLocationManager.swift:90-107 | a new request's gate first sees the subject's current value, and the invariant holds |
| CoreLocationAdapter.CoreLocationManager.CurrentLocation | Sources/Location/CoreLocation/CoreLocationManager.swift:90-121 | subscribing a one-shot request, gated on the current authorization |
| CoreLocationAdapter.CoreLocationManager.BeginPositioning | Sources/Location/CoreLocation/CoreLocationManager.swift:123-152 | subscribing a continuous request for the activity, gated on the current authorization |
| CoreLocationAdapter.CoreLocationManager.CancelRequest | Sources/Location/CoreLocation/CoreLocationManager.swift:117-119 | cancelling the request stops the sensor if the request is open |
| CoreLocationAdapter.CoreLocationManager.DidChangeAuthorization | Sources/Location/CoreLocation/CoreLocationManager.swift:178-183 | a new state is sent only when it differs from the subject's value, and the open request's gate sees it; the subject never repeats a value |
| CoreLocationAdapter.CoreLocationManager.DidResume | Sources/Location/CoreLocation/CoreLocationManager.swift:185-187 | resuming means locating |
| CoreLocationAdapter.CoreLocationManager.DidPause | Sources/Location/CoreLocation/CoreLocationManager.swift:189-191 | pausing means not locating |
| CoreLocationAdapter.CoreLocationManager.DidUpdateLocations | Sources/Location/CoreLocation/CoreLocationManager.swift:193-201 | an empty batch changes nothing; otherwise the last sample alone is delivered and becomes the last location |
| CoreLocationAdapter.CoreLocationManager.DidFailWithError | Sources/Location/CoreLocation/CoreLocationManager.swift:203-217 | the classified error fails a listening request |
| CoreLocationAdapter.CoreLocationManager.DidEnterRegion | Sources/Location/CoreLocation/CoreLocationManager.swift:219-227 | only a circular region becomes an `entered` event |
| CoreLocationAdapter.CoreLocationManager.DidExitRegion | Sources/Location/CoreLocation/CoreLocationManager.swift:229-237 | only a circular region becomes an `exited` event |
| CoreLocationAdapter.CoreLocationManager.MonitoringDidFail | Sources/Location/CoreLocation/CoreLocationManager.swift:239-245 | a circular region becomes a failure event that ends every monitor with its id (each stopping platform monitoring) and leaves the other monitors unchanged |
| CoreLocationAdapter.CoreLocationManager.MonitorRegion | Sources/Location/CoreLocation/CoreLocationManager.swift:154-174 | subscribing records the monitor from the current event on and starts platform monitoring of the region |
| CoreLocationAdapter.CoreLocationManager.CancelMonitor | Sources/Location/CoreLocation/CoreLocationManager.swift:170-172 | cancelling an open monitor stops platform monitoring; an ended one is left alone |
| CoreLocationAdapter.CoreLocationManager.EnsureAuthorized | Sources/Location/LocationManager.swift:37-52 | asks for authorization, then waits for the first authorized value from the subject's current value on |

## Left out

- `distance(to:from:)`: the haversine estimate of the emulated manager works on floating point, and the live one calls the platform. Both become the parameter `dist`. The model always has a distance, so the `nil` branch of the "inside" test never arises.
- `coordinates(for:)` of the live manager is left out: it geocodes over the network.
- `GeoCache`, the bundle and file-manager extensions and the `AddressCoordinates` entity are left out: they are persistence and I/O outside the core.
- Logging is left out.
- Decoding a `Configuration` from the environment is left out. `FromConfiguration` takes the decoded value.
- Combine scheduling and the timer's `positioningRate` are left out. The rate is stored but not modelled; each timer firing is one `Tick`.
- `isLocatingPublisher`, `authorizationPublisher` and `locationObservationPublisher` are modelled as the manager's fields; their subscribers are not modelled separately.
- `CoreLocationAdapter.CoreLocationManager`: holds a single location request at a time. Several concurrent `currentLocation` / `beginPositioning` subscriptions sharing the replaced subject are not modelled.
- TransitionEngine.RemoveIds, GeoFences.Step, CoreLocationAdapter.StopsFor, PostalAddresses.EqualityIsStructural and Emulation.EmulatedLocationManager.CoordinatesFor compare strings code point by code point. Swift's `String` equality and hashing use canonical equivalence, so ids such as "\u{E9}" and "e\u{301}" are equal there and different here. Two regions whose ids are only canonically equal therefore behave in Swift as two regions with the same id do in `DuplicateIdsLoseRegion`, and a monitor receives the other one's events.
- TransitionEngine.Leaving: the exit test is the negation of the entry test. Swift's is `distance > region.radius` (EmulatedLocationManager.swift:245), so a NaN distance (from a NaN coordinate, or from rounding in the haversine estimate) neither enters nor exits a region there, while the model moves a region whose distance is not within the radius.
- Locations.NewLocation: the default timestamp `Date()` reads the clock; the model takes it as the `now` argument.

Where the code differs from the intent its documentation suggests, the model follows the code:

- `currentLocation` on the live manager never finishes normally. The authorization subject never finishes, so the outer publisher stays open after the first location. `endLocationUpdates` therefore runs only on failure or cancellation.
- A later authorized value restarts a live request. The location subject is replaced (a new generation) and the sensor is started again. A later denial fails the request mid-stream.
- The live `isLocating` changes only through the pause and resume callbacks.
- `didFailWithError` wraps every non-denied error as `undefinedError`, including an error that already is a `LocationError`.
- The live `authorization` reads the platform status directly, so it can be ahead of what the subject has sent.
