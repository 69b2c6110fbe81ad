/** Sources/Location/ManagerAuthorization.swift: the library's authorization states. */
module Authorization {
  import opened Wrappers

  datatype ManagerAuthorization =
    | NotDetermined
    | Restricted
    | Denied
    | AuthorizedAlways
    | AuthorizedWhenInUse

  /** A lower-case ASCII letter or an upper-case one: the characters of a Swift case name here. */
  predicate IsLetter(ch: char) {
    ('a' <= ch <= 'z') || ('A' <= ch <= 'Z')
  }

  /** The `String` raw value Swift gives each case: its own name, a lower-camel-case identifier. */
  function RawValue(a: ManagerAuthorization): (s: string)
    ensures s != [] && 'a' <= s[0] <= 'z'
    ensures forall i :: 0 <= i < |s| ==> IsLetter(s[i])
  {
    match a
    case NotDetermined => "notDetermined"
    case Restricted => "restricted"
    case Denied => "denied"
    case AuthorizedAlways => "authorizedAlways"
    case AuthorizedWhenInUse => "authorizedWhenInUse"
  }

  /** `ManagerAuthorization(rawValue:)`, used when decoding a configuration. */
  function FromRawValue(s: string): (r: Option<ManagerAuthorization>)
    ensures r.Some? ==> RawValue(r.value) == s
  {
    if s == "notDetermined" then Some(NotDetermined)
    else if s == "restricted" then Some(Restricted)
    else if s == "denied" then Some(Denied)
    else if s == "authorizedAlways" then Some(AuthorizedAlways)
    else if s == "authorizedWhenInUse" then Some(AuthorizedWhenInUse)
    else None
  }

  /** Every case is decoded from its raw value, so the five raw values are distinct. */
  lemma RawValueRoundTrip(a: ManagerAuthorization)
    ensures FromRawValue(RawValue(a)) == Some(a)
  {
  }

  const NotDeterminedDescription := "User has not yet made a choice with regards to this application"
  const RestrictedDescription := "This application is not authorized to use location services."
  const DeniedDescription := "User has explicitly denied authorization for this application, or location services are disabled in Settings."
  const AuthorizedAlwaysDescription := "User has granted authorization to use their location at any time."
  const AuthorizedWhenInUseDescription := "User has granted authorization to use their location only while they are using your app."

  /** `description`: a fixed sentence of 60 to 109 characters per case. */
  function Description(a: ManagerAuthorization): (d: string)
    ensures 60 <= |d| <= 109
  {
    DescriptionLengths();
    match a
    case NotDetermined => NotDeterminedDescription
    case Restricted => RestrictedDescription
    case Denied => DeniedDescription
    case AuthorizedAlways => AuthorizedAlwaysDescription
    case AuthorizedWhenInUse => AuthorizedWhenInUseDescription
  }

  lemma DescriptionLengths()
    ensures |NotDeterminedDescription| == 63 && |RestrictedDescription| == 60
    ensures |DeniedDescription| == 109 && |AuthorizedAlwaysDescription| == 65
    ensures |AuthorizedWhenInUseDescription| == 88
  {
  }

  /** No two cases share a description: the five sentences have five different lengths. */
  lemma DescriptionsDistinct(a: ManagerAuthorization, b: ManagerAuthorization)
    ensures Description(a) == Description(b) <==> a == b
  {
    DescriptionLengths();
  }

  /** The platform's `CLAuthorizationStatus`; `UnknownStatus` stands for values a later platform may add. */
  datatype CLAuthorizationStatus =
    | CLNotDetermined
    | CLRestricted
    | CLDenied
    | CLAuthorizedAlways
    | CLAuthorizedWhenInUse
    | UnknownStatus(raw: int)

  /** The platform status that carries the same name as `a`. */
  function StatusNamed(a: ManagerAuthorization): CLAuthorizationStatus {
    match a
    case NotDetermined => CLNotDetermined
    case Restricted => CLRestricted
    case Denied => CLDenied
    case AuthorizedAlways => CLAuthorizedAlways
    case AuthorizedWhenInUse => CLAuthorizedWhenInUse
  }

  /** `ManagerAuthorization.init(_ authorizationStatus:)`. */
  function FromStatus(s: CLAuthorizationStatus): (a: ManagerAuthorization)
    ensures !s.UnknownStatus? ==> StatusNamed(a) == s
    ensures s.UnknownStatus? ==> a == NotDetermined
  {
    match s
    case CLAuthorizedWhenInUse => AuthorizedWhenInUse
    case CLAuthorizedAlways => AuthorizedAlways
    case CLRestricted => Restricted
    case CLDenied => Denied
    case _ => NotDetermined
  }

  /**
   * The mapping inverts `StatusNamed`; the only statuses that map to
   * `notDetermined` other than its own are the unknown ones.
   */
  lemma FromStatusCharacterization(s: CLAuthorizationStatus, a: ManagerAuthorization)
    ensures FromStatus(StatusNamed(a)) == a
    ensures FromStatus(s) == a <==> s == StatusNamed(a) || (a == NotDetermined && s.UnknownStatus?)
  {
  }
}
