/** Option and Result: the nullable values and the thrown exceptions of the
    Kotlin code become explicit values. */
module Wrappers {

  datatype Option<+T> = None | Some(value: T)

  datatype Result<+T, +E> = Ok(value: T) | Err(error: E)
}
