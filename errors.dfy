/** The exceptions the orchestrators throw, as values. */
module Errors {
  import opened Wrappers
  import opened Rest
  import opened OidcException

  datatype Failure =
    /** `InvalidArgumentException` naming the parameter or value refused. */
    | InvalidArgument(name: string)
    /** `DiscoveryException`, with the REST exception it was built from, if any. */
    | DiscoveryFailure(message: string, rest: Option<RestException>)
    /** `DiscoveryResponseExpiredException`. */
    | DiscoveryResponseExpired
    | OidcFailure(oidc: OIDCException)
    /** PHP's `TypeError` for an argument its type hint refuses. */
    | TypeMismatch(name: string)

  /**
   * `ValidationUtils::validateParameter`, which is not part of this model:
   * a null or empty value is refused.
   */
  predicate Missing(v: Option<string>)
  {
    v.None? || v.value == ""
  }

  /** The value at `i` is missing and every value before it is present. */
  predicate FirstMissingAt(checks: seq<(string, Option<string>)>, i: int)
  {
    0 <= i < |checks| && Missing(checks[i].1) && forall j :: 0 <= j < i ==> !Missing(checks[j].1)
  }

  /**
   * The name of the first value in `checks` that is missing, checked in
   * order, or `None` when all are present.
   */
  function FirstMissing(checks: seq<(string, Option<string>)>): (r: Option<string>)
    ensures r.None? <==> forall i :: 0 <= i < |checks| ==> !Missing(checks[i].1)
    ensures r.Some? ==> exists i :: FirstMissingAt(checks, i) && checks[i].0 == r.value
  {
    if checks == [] then None
    else if Missing(checks[0].1) then Some(checks[0].0)
    else
      var rest := FirstMissing(checks[1..]);
      assert forall i :: 0 < i < |checks| ==> checks[i] == checks[1..][i - 1];
      rest
  }
}
