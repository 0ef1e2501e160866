/**
 * The diagnostics helpers of the client: three connection tests that report
 * success without looking at anything, and the explanation shown for an error.
 */
module ApiTesting {
  import opened Common

  const UnknownErrorMessage: string := "Unknown error occurred"
  const UnknownCause: string := "The cause could not be determined"
  const RetrySolution: string := "Please try the operation again"
  const FailedCause: string := "The operation could not be completed"
  const SupportSolution: string := "Please try again or contact support if the problem persists"

  /** An error-like value, by its `message` property (`None` when it has none). */
  datatype ErrorLike = ErrorLike(message: Option<string>)

  datatype Explanation = Explanation(message: string, cause: string, solution: string)

  datatype Connectivity = Connectivity(connected: bool, status: int, statusText: string)

  datatype ConnectionReport = ConnectionReport(success: bool, message: string, details: seq<string>, recommendation: string)

  datatype FeatureReport = FeatureReport(available: bool, reason: Option<string>)

  /**
   * `getApiErrorExplanation(error)`, where `None` is a falsy `error`. No error
   * gives the unknown-cause triple; an error gives its message when that is a
   * non-empty string, the unknown-error message otherwise, and always the same
   * cause and solution. The message shown is never empty.
   */
  function GetApiErrorExplanation(error: Option<ErrorLike>): (r: Explanation)
    ensures error.None? ==> r == Explanation(UnknownErrorMessage, UnknownCause, RetrySolution)
    ensures error.Some? ==> r.cause == FailedCause && r.solution == SupportSolution
    ensures error.Some? && error.value.message.Some? && error.value.message.value != "" ==> r.message == error.value.message.value
    ensures error.Some? && (error.value.message.None? || error.value.message.value == "") ==> r.message == UnknownErrorMessage
    ensures r.message != ""
  {
    if error.None? then
      Explanation(UnknownErrorMessage, UnknownCause, RetrySolution)
    else
      var m := error.value.message;
      Explanation(if m.Some? && m.value != "" then m.value else UnknownErrorMessage, FailedCause, SupportSolution)
  }

  /** `testNetworkConnectivity()`: always connected, with status 200 `OK`. */
  function TestNetworkConnectivity(): (r: Connectivity)
    ensures r.connected && r.status == 200 && r.statusText == "OK"
  {
    Connectivity(true, 200, "OK")
  }

  /** `testApiConnection()`: always a success, with no details and no recommendation. */
  function TestApiConnection(): (r: ConnectionReport)
    ensures r.success && r.message == "API connection is available"
    ensures r.details == [] && r.recommendation == ""
  {
    ConnectionReport(true, "API connection is available", [], "")
  }

  /** `testApiFeature(feature)`: every feature is reported available, with no reason. */
  function TestApiFeature(feature: string): (r: FeatureReport)
    ensures r.available && r.reason.None?
  {
    FeatureReport(true, None)
  }
}
