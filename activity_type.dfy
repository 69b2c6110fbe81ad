/** Sources/Location/ActivityType.swift: the movement hint and its platform counterpart. */
module Activities {
  import opened Wrappers

  datatype ActivityType =
    | AutomotiveNavigation
    | OtherNavigation
    | Fitness
    | Airborne
    | Other

  /** The `String` raw value Swift gives each case: its own name, a lower-camel-case identifier. */
  function RawValue(a: ActivityType): (s: string)
    ensures s != [] && 'a' <= s[0] <= 'z'
    ensures forall i :: 0 <= i < |s| ==> ('a' <= s[i] <= 'z') || ('A' <= s[i] <= 'Z')
  {
    match a
    case AutomotiveNavigation => "automotiveNavigation"
    case OtherNavigation => "otherNavigation"
    case Fitness => "fitness"
    case Airborne => "airborne"
    case Other => "other"
  }

  function FromRawValue(s: string): (r: Option<ActivityType>)
    ensures r.Some? ==> RawValue(r.value) == s
  {
    if s == "automotiveNavigation" then Some(AutomotiveNavigation)
    else if s == "otherNavigation" then Some(OtherNavigation)
    else if s == "fitness" then Some(Fitness)
    else if s == "airborne" then Some(Airborne)
    else if s == "other" then Some(Other)
    else None
  }

  lemma RawValueRoundTrip(a: ActivityType)
    ensures FromRawValue(RawValue(a)) == Some(a)
  {
  }

  /** The platform's `CLActivityType`; `UnknownActivity` stands for cases a later platform may add. */
  datatype CLActivityType =
    | CLOther
    | CLAutomotiveNavigation
    | CLFitness
    | CLOtherNavigation
    | CLAirborne
    | UnknownActivity(raw: int)

  /** `ActivityType.init(_ activityType: CLActivityType)`. */
  function FromPlatform(p: CLActivityType): (a: ActivityType)
    ensures a == Other <==> p == CLOther || p.UnknownActivity?
  {
    match p
    case CLAutomotiveNavigation => AutomotiveNavigation
    case CLOtherNavigation => OtherNavigation
    case CLFitness => Fitness
    case CLAirborne => Airborne
    case _ => Other
  }

  /** `CLActivityType.init(_ activityType: ActivityType)`. */
  function ToPlatform(a: ActivityType): (p: CLActivityType)
    ensures !p.UnknownActivity?
    ensures FromPlatform(p) == a
  {
    match a
    case AutomotiveNavigation => CLAutomotiveNavigation
    case OtherNavigation => CLOtherNavigation
    case Fitness => CLFitness
    case Airborne => CLAirborne
    case Other => CLOther
  }

  /** ActivityType -> platform -> ActivityType is the identity. */
  lemma RoundTrip(a: ActivityType)
    ensures FromPlatform(ToPlatform(a)) == a
  {
  }

  /**
   * Platform -> ActivityType -> platform is the identity except on the
   * unknown platform cases, which all come back as `.other`.
   */
  lemma PlatformRoundTrip(p: CLActivityType)
    ensures ToPlatform(FromPlatform(p)) == (if p.UnknownActivity? then CLOther else p)
    ensures p.UnknownActivity? ==> FromPlatform(p) == Other
  {
  }
}
