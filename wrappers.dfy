/** Option and Result, the two shapes the model uses for JavaScript's
    null/undefined results and for thrown errors. */
module Wrappers {

  datatype Option<+T> = None | Some(value: T)

  datatype Result<+T, +E> = Ok(value: T) | Err(error: E)

}
