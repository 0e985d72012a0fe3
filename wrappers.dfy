/** Small value wrappers shared by the screens. */
module Wrappers {

  /** A value that may be absent (`undefined`/`null` in the app). */
  datatype Option<+T> = None | Some(value: T)

  /** How an awaited external call settled: it resolved with a value, or it rejected (threw). */
  datatype Attempt<+T> = Resolved(value: T) | Rejected
}
