/** The conventional optional value: used for a key that a JavaScript object may
    lack and for a server reply that may not arrive. */
module Wrappers {

  datatype Option<+T> = None | Some(value: T) {

    /** The value held, or `default` when there is none. */
    function GetOr(default: T): T {
      match this
      case Some(v) => v
      case None => default
    }
  }
}
