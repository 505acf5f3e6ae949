/** Failure-carrying results used throughout the model. A Python call that
    raises is modelled as an `Err`; one that returns normally as an `Ok`. */
module Outcomes {

  /** An optional value (Python's `None` versus a present value). */
  datatype Option<+T> = None | Some(value: T)

  /** The outcome of a call that either returns `value` or raises `error`. */
  datatype Result<+T, +E> = Ok(value: T) | Err(error: E)
}
