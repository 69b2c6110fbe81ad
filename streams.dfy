/**
 * A finite prefix of what a subscriber to a publisher has seen: the values
 * delivered so far and how (or whether) the stream has terminated.
 */
module Streams {
  import opened Errors

  datatype Termination =
    | Open                          // still subscribed, more values may come
    | Finished                      // completed normally
    | Failure(error: LocationError) // completed with a failure
    | Cancelled                     // the subscriber cancelled

  datatype Stream<T> = Stream(values: seq<T>, termination: Termination) {

    predicate IsOpen() {
      termination.Open?
    }
  }
}
