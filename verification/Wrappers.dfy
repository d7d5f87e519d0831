/** The one wrapper the models share: JavaScript's null, undefined and missing entries. */
module Wrappers {
  datatype Option<+T> = None | Some(value: T) {
    function GetOr(default: T): T {
      if Some? then value else default
    }
  }
}
