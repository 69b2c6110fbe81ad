/** Sources/Location/LocationError.swift and the errors it is built from. */
module Errors {
  import opened Wrappers

  /** The raw code of `CLError.Code.denied`. */
  const CLErrorDenied: int := 1

  /** Swift's existential `Error`, as far as this library inspects it. */
  datatype Error =
    | Location(location: LocationError)  // a value that is already a LocationError
    | Platform(code: int)                // a `CLError` with its code
    | Foreign(description: string)       // any other error

  datatype LocationError =
    | NotAuthorized
    | UndefinedError(cause: Option<Error>)

  /** `LocationError.init(_ error: Error)`: keep a LocationError, wrap anything else. */
  function FromError(e: Error): (r: LocationError)
    ensures e.Location? ==> r == e.location
    ensures !e.Location? ==> r == UndefinedError(Some(e))
  {
    match e
    case Location(le) => le
    case _ => UndefinedError(Some(e))
  }

  /** Throwing a LocationError and converting it back gives it unchanged. */
  lemma FromErrorKeepsLocationErrors(le: LocationError)
    ensures FromError(Location(le)) == le
    ensures FromError(Location(NotAuthorized)) == NotAuthorized
  {
  }

  /** Converting twice is the same as converting once. */
  lemma FromErrorIdempotent(e: Error)
    ensures FromError(Location(FromError(e))) == FromError(e)
  {
  }

  /** The conversion never yields `notAuthorized` from an error that was not one. */
  lemma FromErrorNotAuthorized(e: Error)
    ensures FromError(e) == NotAuthorized <==> e == Location(NotAuthorized)
  {
  }
}
