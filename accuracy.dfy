/** Sources/Location/Accuracy.swift: requested precision and its platform constants. */
module Accuracies {
  import opened Wrappers

  datatype Accuracy =
    | BestForNavigation
    | Best
    | NearestTenMeters
    | HundredMeters
    | Kilometer
    | ThreeKilometers
    | Reduced

  /** The `String` raw value Swift gives each case: its own name, a lower-camel-case identifier. */
  function RawValue(a: Accuracy): (s: string)
    ensures s != [] && 'a' <= s[0] <= 'z'
    ensures forall i :: 0 <= i < |s| ==> ('a' <= s[i] <= 'z') || ('A' <= s[i] <= 'Z')
  {
    match a
    case BestForNavigation => "bestForNavigation"
    case Best => "best"
    case NearestTenMeters => "nearestTenMeters"
    case HundredMeters => "hundredMeters"
    case Kilometer => "kilometer"
    case ThreeKilometers => "threeKilometers"
    case Reduced => "reduced"
  }

  function FromRawValue(s: string): (r: Option<Accuracy>)
    ensures r.Some? ==> RawValue(r.value) == s
  {
    if s == "bestForNavigation" then Some(BestForNavigation)
    else if s == "best" then Some(Best)
    else if s == "nearestTenMeters" then Some(NearestTenMeters)
    else if s == "hundredMeters" then Some(HundredMeters)
    else if s == "kilometer" then Some(Kilometer)
    else if s == "threeKilometers" then Some(ThreeKilometers)
    else if s == "reduced" then Some(Reduced)
    else None
  }

  lemma RawValueRoundTrip(a: Accuracy)
    ensures FromRawValue(RawValue(a)) == Some(a)
  {
  }

  /**
   * The seven `kCLLocationAccuracy...` constants (values of type
   * `CLLocationAccuracy`, a Double). Their values belong to the platform.
   */
  datatype PlatformAccuracies = PlatformAccuracies(
    bestForNavigation: real,
    best: real,
    nearestTenMeters: real,
    hundredMeters: real,
    kilometer: real,
    threeKilometers: real,
    reduced: real)

  /** The six constants `init(_ accuracy: CLLocationAccuracy)` tests, in order. */
  function Listed(k: PlatformAccuracies): seq<real> {
    [k.bestForNavigation, k.best, k.nearestTenMeters, k.hundredMeters, k.kilometer, k.threeKilometers]
  }

  predicate PairwiseDistinct(k: PlatformAccuracies) {
    && (forall i, j :: 0 <= i < j < 6 ==> Listed(k)[i] != Listed(k)[j])
    && k.reduced !in Listed(k)
  }

  /** `CLLocationAccuracy.init(_ accuracy: Accuracy)`. */
  function ToPlatform(a: Accuracy, k: PlatformAccuracies): (x: real)
    ensures a != Reduced ==> x in Listed(k)
    ensures a == Reduced ==> x == k.reduced
  {
    match a
    case BestForNavigation => k.bestForNavigation
    case Best => k.best
    case NearestTenMeters => k.nearestTenMeters
    case HundredMeters => k.hundredMeters
    case Kilometer => k.kilometer
    case ThreeKilometers => k.threeKilometers
    case Reduced => k.reduced
  }

  /** `Accuracy.init(_ accuracy: CLLocationAccuracy)`: the first matching constant wins. */
  function FromPlatform(x: real, k: PlatformAccuracies): (r: Accuracy)
    ensures x !in Listed(k) ==> r == Reduced
    ensures r != Reduced ==> x == ToPlatform(r, k)
  {
    if x == k.bestForNavigation then BestForNavigation
    else if x == k.best then Best
    else if x == k.nearestTenMeters then NearestTenMeters
    else if x == k.hundredMeters then HundredMeters
    else if x == k.kilometer then Kilometer
    else if x == k.threeKilometers then ThreeKilometers
    else Reduced
  }

  /** With distinct constants, Accuracy -> platform -> Accuracy is the identity. */
  lemma RoundTrip(a: Accuracy, k: PlatformAccuracies)
    requires PairwiseDistinct(k)
    ensures FromPlatform(ToPlatform(a, k), k) == a
  {
    var l := Listed(k);
    assert l[0] == k.bestForNavigation && l[1] == k.best && l[2] == k.nearestTenMeters;
    assert l[3] == k.hundredMeters && l[4] == k.kilometer && l[5] == k.threeKilometers;
  }

  /** `reduced` survives the round trip exactly when its constant is none of the six listed ones. */
  lemma ReducedRoundTrip(k: PlatformAccuracies)
    ensures FromPlatform(ToPlatform(Reduced, k), k) == Reduced <==> k.reduced !in Listed(k)
  {
  }
}
