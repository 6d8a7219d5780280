// Optional values, for the C# `TryGet…(…, out value)` pattern and for nullable results.
module Wrappers {

  datatype Option<T> = None | Some(value: T)
}
