/** Option and Result: the absent value and the thrown-or-returned outcome of the
    JavaScript source, written as datatypes. */
module Wrappers {

  datatype Option<+T> = None | Some(value: T)

  datatype Result<+R, +E> = Ok(value: R) | Err(error: E)
}
