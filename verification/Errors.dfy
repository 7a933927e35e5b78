/** The kinds of provider failure and the three sets that drive retry, failover and the breaker. */
module Errors {

  datatype ErrorKind =
    | RateLimit | Overloaded | ServerError | Timeout | Connection
    | Auth | Quota | BadRequest | Deadline | CircuitOpen | Unknown

  const RETRYABLE: set<ErrorKind> := {RateLimit, Overloaded, ServerError, Timeout, Connection}
  const FAILOVER: set<ErrorKind> := RETRYABLE + {Auth, Quota, CircuitOpen}
  const BREAKER_COUNTED: set<ErrorKind> := RETRYABLE + {Auth, Quota}

  // ----- The kinds by what they mean ---------------------------------------------------------

  /** The same call may succeed if repeated shortly. */
  predicate Transient(k: ErrorKind) {
    k.RateLimit? || k.Overloaded? || k.ServerError? || k.Timeout? || k.Connection?
  }

  /** The provider's health and not the caller's input, nor our own deadline. */
  predicate ProvidersFault(k: ErrorKind) {
    k.RateLimit? || k.Overloaded? || k.ServerError? || k.Timeout? || k.Connection? || k.Auth? || k.Quota?
  }

  /** Another provider may well succeed. */
  predicate OthersMaySucceed(k: ErrorKind) {
    || k.RateLimit? || k.Overloaded? || k.ServerError? || k.Timeout? || k.Connection? || k.Auth? || k.Quota?
    || k.CircuitOpen?
  }
}
