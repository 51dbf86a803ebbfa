/** An optional value: `None` stands for JavaScript's `undefined` (or NaN where noted). */
module Wrappers {
  datatype Option<+T> = None | Some(value: T) {
    function GetOr(default: T): T {
      match this
      case Some(v) => v
      case None => default
    }
  }
}
