/** Small failure-carrying datatypes shared by the whole model. */
module Wrappers {

  /** Python's "value or None". */
  datatype Option<+T> = None | Some(value: T)

  /** How a Python call ends: it returns a value or an exception propagates out of it.
      Only exceptions the source lets escape are modelled with Threw; the ones it
      catches become ordinary values. */
  datatype Outcome<+T> = Returned(value: T) | Threw
}
