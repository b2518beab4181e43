/** The optional value used wherever the plugin works with a nullable reference or an absent JSON key. */
module Wrappers {

  datatype Option<+T> = None | Some(value: T) {

    /** The value, or `default` when absent (a JSON `has(...) ? get(...) : default`). */
    function GetOr(default: T): T {
      match this
      case Some(v) => v
      case None => default
    }
  }
}
