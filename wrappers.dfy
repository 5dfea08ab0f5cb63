/** Option and Result, the two small wrappers the rest of the model uses for
    JavaScript's `undefined` and for operations that can throw. */
module Wrappers {

  /** `None` stands for a missing value (JavaScript `undefined`). */
  datatype Option<+T> = None | Some(value: T)

  /** A default that replaces a missing value only: JavaScript's `??` on
      options, and destructuring `{ key = d } = ...`, where `null` is a value
      and is kept. */
  function OrDefault<T>(v: Option<T>, d: T): T {
    if v.Some? then v.value else d
  }

  /** The outcome of a step that either produces a value or throws. */
  datatype Result<+R, +E> = Success(value: R) | Failure(error: E)
}
