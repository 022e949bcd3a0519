/** Optional values and the three states of a slot in the browser's local storage. */
module Wrappers {

  /** A value that may be missing (`null`, `undefined` or an optional field). */
  datatype Option<+T> = None | Some(value: T) {

    /** The wrapped value, or `default` when there is none (JavaScript's `x || default` on objects). */
    function GetOr(default: T): T {
      match this
      case Some(v) => v
      case None => default
    }
  }

  /**
   * What reading one key of local storage and parsing it yields: nothing stored
   * (or the empty string), text that `JSON.parse` rejects, or a parsed value.
   */
  datatype Slot<+T> = Absent | Corrupt | Present(value: T)
}
