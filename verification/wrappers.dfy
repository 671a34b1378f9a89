/** Small failure-compatible wrappers shared by every module of the console model. */
module Wrappers {

  /** A value that may be absent: a TypeScript `T | null | undefined`. */
  datatype Option<+T> = None | Some(value: T) {

    /** The wrapped value, or `default` when absent (TypeScript's `??`). */
    function GetOr(default: T): T {
      match this
      case Some(v) => v
      case None => default
    }
  }

  /** How a dispatched async thunk settled once `.unwrap()` was awaited. */
  datatype Settled = Resolved | Rejected(reason: string)
}
