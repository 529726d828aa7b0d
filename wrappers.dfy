/** The optional value and the success-or-failure value the model uses for
    JavaScript's `undefined`/`null` and for operations that throw. */
module Wrappers {

  datatype Option<+T> = None | Some(value: T)

  datatype Result<+T, +E> = Ok(value: T) | Err(error: E)
}
