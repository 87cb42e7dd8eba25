/** The optional and fallible results, and the bytes, shared by every component. */
module Wrappers {

  datatype Option<+T> = None | Some(value: T) {
    function GetOr(default: T): T {
      if Some? then value else default
    }
  }

  type byte = b: int | 0 <= b < 256
  type Bytes = seq<byte>

  datatype Result<+T, +E> = Ok(value: T) | Err(error: E)
}
