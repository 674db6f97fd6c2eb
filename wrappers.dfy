/** Option and Result values used across the model. A JavaScript `throw new Error(msg)`
    that the caller catches becomes `Err(msg)`. */
module Wrappers {

  datatype Option<+T> = None | Some(value: T)

  datatype Result<+T> = Ok(value: T) | Err(error: string)
}
