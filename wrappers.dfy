/** Option and Result, used for JavaScript's "missing" values and for the
    error-first callback of the waveform builder. */
module Wrappers {

  datatype Option<+T> = None | Some(value: T)

  datatype Result<+R, +E> = Success(value: R) | Failure(error: E)
}
