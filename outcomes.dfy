/** Option and Result values for the store's "maybe absent" inputs and its error paths. */
module Outcomes {

  datatype Option<T> = None | Some(value: T)

  datatype Result<T, E> = Ok(value: T) | Err(error: E)
}
