/**
 * Option, for lookups that may miss and for inputs that may fail to decode;
 * Outcome, for the error value a Go call returns (nil or an error).
 */
module Wrappers {

  datatype Option<+T> = None | Some(value: T)

  datatype Outcome = Ok | Err(msg: string)
}
