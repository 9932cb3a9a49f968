/** Option and Result values used across the model: a JavaScript `undefined`/absent
    key is `None`, and a thrown exception is `Err`. */
module Wrappers {

  datatype Option<+T> = None | Some(value: T)

  datatype Result<+T, +E> = Ok(value: T) | Err(error: E)
}
