/** Optional values, fallible results and failing calls, shared by every component. */
module Outcomes {
  datatype Option<+T> = None | Some(value: T)

  datatype Result<+T, +E> = Ok(value: T) | Err(error: E)

  /** Whether a call to the API server fails: never while the server is healthy. */
  method Fault(healthy: bool) returns (fails: bool)
    ensures healthy ==> !fails
  {
    fails := *;
    fails := fails && !healthy;
  }
}
