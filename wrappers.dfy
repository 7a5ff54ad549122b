/** Option and Result values, and the metadata type, shared by every module of the model. */
module Wrappers {
  datatype Option<T> = None | Some(value: T)
  {
    function GetOr(default: T): T
    {
      if Some? then value else default
    }
  }

  datatype Result<T, E> = Ok(value: T) | Err(error: E)

  /**
   * A free-form metadata dict that is carried along but never looked up:
   * its entries in insertion order, as Python keeps them.
   */
  type Metadata = seq<(string, string)>
}
