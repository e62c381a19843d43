/** What a call to the remote API or to Kubernetes can come back with. */
module ApiOutcomes {

  /** `Error(0)` stands for a failure without an HTTP status, such as a broken connection. */
  datatype Outcome = Ok | Error(status: nat)

  /** Only server errors are worth another attempt. */
  predicate IsRetryable(o: Outcome) {
    o.Error? && o.status >= 500
  }

  datatype Connection = Connected | Paused | Unresolved
}
