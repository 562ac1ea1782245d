/** Option and Result values for the topology builder: an absent channel id,
    and a construction that either yields a node or raises an error. */
module Wrappers {

  datatype Option<+T> = None | Some(value: T)

  datatype Result<+T, +E> = Ok(value: T) | Err(error: E)
}
