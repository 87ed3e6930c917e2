/** A JavaScript property that may be absent (undefined) or present. */
module Wrappers {

  /** `None` stands for a property that is absent (undefined), `Some(v)` for one that is present. */
  datatype Option<+T> = None | Some(value: T) {

    /** The present value, or `default` when the property is absent. */
    function GetOr(default: T): T {
      match this
      case Some(v) => v
      case None => default
    }
  }
}
