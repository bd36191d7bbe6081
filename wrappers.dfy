/** Optional values and results with an error, for arguments the source may leave
    out (`sample_limit=None`) and for operations that can fail. */
module Wrappers {

  datatype Option<+T> = None | Some(value: T)

  datatype Result<+R, +E> = Ok(value: R) | Err(error: E)
}
