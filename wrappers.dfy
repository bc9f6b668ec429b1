/** The `undefined`-or-value results of the source (`Array.prototype.find`,
    optional event fields, a controller that may not exist yet). */
module Wrappers {

  datatype Option<T> = None | Some(value: T) {

    /** The value, or `default` when there is none (the source's `a || b`
        on a possibly-undefined `a` whose defined values are all truthy). */
    function GetOr(default: T): T {
      match this
      case Some(v) => v
      case None => default
    }
  }
}
