/** The optional value used wherever the service has `X | None`. */
module Wrappers {
  datatype Option<+T> = None | Some(value: T)
}
