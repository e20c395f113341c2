/** Optional values and results with an error, used for the snapshot's optional
    fields and for the renderer's (string, error) return. */
module Wrappers {

  datatype Option<+T> = None | Some(value: T)

  datatype Result<+T, +E> = Ok(value: T) | Fail(error: E)
}
