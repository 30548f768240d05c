/** A value that may be missing: pandas marks a missing float cell as NaN. */
module Wrappers {

  datatype Option<+T> = None | Some(value: T)

}
