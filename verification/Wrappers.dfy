/** Results of operations that can fail, and lists read as sets. */
module Wrappers {
  datatype Option<+T> = None | Some(value: T)

  datatype Result<+T, +E> = Ok(value: T) | Err(error: E)

  function Elements(names: seq<string>): set<string> { set n | n in names }
}
