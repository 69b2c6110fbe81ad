/** Sources/Location/LocationManager.swift: what the protocol extension adds to every backend. */
module LocationManagerContract {
  import opened Authorization
  import opened Streams

  /** `authorized`. */
  predicate Authorized(a: ManagerAuthorization)
    ensures !Authorized(a) <==> a in {NotDetermined, Restricted, Denied}
  {
    match a
    case AuthorizedAlways => true
    case AuthorizedWhenInUse => true
    case _ => false
  }

  lemma AuthorizedCharacterization(a: ManagerAuthorization)
    ensures Authorized(a) <==> a == AuthorizedAlways || a == AuthorizedWhenInUse
    ensures !Authorized(a) <==> a in {NotDetermined, Restricted, Denied}
  {
  }

  /**
   * The pipeline `ensureAuthorized` returns once it has called
   * `requestAuthorization()`: `tryFilter` keeping the authorized states (it
   * never throws) followed by `first()`, fed with the states the
   * authorization publisher delivers.
   */
  function FirstAuthorized(observed: seq<ManagerAuthorization>): (s: Stream<ManagerAuthorization>)
    ensures s.termination == Finished || s.termination == Open
    ensures s.termination == Finished <==> exists i :: 0 <= i < |observed| && Authorized(observed[i])
    ensures s.termination == Open ==> s.values == []
    ensures s.termination == Finished ==>
      && |s.values| == 1 && Authorized(s.values[0])
      && exists i :: 0 <= i < |observed| && observed[i] == s.values[0]
                  && forall j :: 0 <= j < i ==> !Authorized(observed[j])
  {
    if observed == [] then Stream([], Open)
    else if Authorized(observed[0]) then Stream([observed[0]], Finished)
    else
      var rest := FirstAuthorized(observed[1..]);
      assert forall i :: 1 <= i < |observed| ==> observed[i] == observed[1..][i - 1];
      rest
  }

  /** `ensureAuthorized` waits through denial and restriction: it never fails. */
  lemma EnsureAuthorizedNeverFails(observed: seq<ManagerAuthorization>)
    requires forall i :: 0 <= i < |observed| ==> observed[i] in {NotDetermined, Restricted, Denied}
    ensures FirstAuthorized(observed) == Stream([], Open)
  {
  }
}
