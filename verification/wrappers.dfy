/** Result and optional values: the controller's construction can fail, and some pads and settings may be absent. */
module Wrappers {

  /** Either a value or an error describing why it could not be produced. */
  datatype Result<+T, +E> = Ok(value: T) | Err(error: E)

  /** An optional value: a pad that may be absent, an address left unset. */
  datatype Option<+T> = None | Some(value: T)
}
