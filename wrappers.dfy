/** Small value wrappers shared by the other modules. */
module Wrappers {

  /** A value that may be absent: `null` in the original program. */
  datatype Option<+T> = None | Some(value: T)

  /** How an asynchronous call settled: its promise resolved with a value or rejected. */
  datatype Settled<+T> = Resolved(value: T) | Rejected
}
