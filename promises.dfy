/**
 * Small value types shared by the modules: an optional value (a JavaScript
 * `null`, a Python `None`) and the two ways a promise settles.
 */
module Promises {

  datatype Option<+T> = None | Some(value: T)

  /** How an awaited operation ended: it resolved with a value, or it rejected (threw). */
  datatype Settled<+T> = Resolved(value: T) | Rejected
}
