/** Results shared by the models. */
module Wrappers {

  datatype Option<T> = None | Some(value: T)

  /** A scan that polls for cancellation either runs to its end or is cut off. */
  datatype Scan<T> = Cancelled | Done(result: T)
}
