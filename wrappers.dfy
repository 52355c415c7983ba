/** A value that may be absent: a missing store entry, a `NaN` from `parseFloat`,
    an unsuccessful `Array.prototype.find`, a rejected form. */
module Wrappers {

  datatype Option<+T> = None | Some(value: T)

}
