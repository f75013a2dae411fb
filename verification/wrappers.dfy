/** The optional value used wherever the worker reads something that may be absent:
    a query parameter, a header, a request body. */
module Wrappers {

  datatype Option<+T> = None | Some(value: T)
}
