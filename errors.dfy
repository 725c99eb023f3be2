/** What the core can throw, as data: each constructor is one `throw` (or
    runtime error) of the JavaScript source, so that the error paths are
    modelled instead of being excluded by preconditions. */
module Errors {

  datatype Failure =
    | OutOfRange                          // Buffer.readInt32BE / writeInt32BE past the end or the range
    | TopicMismatch                       // socketIdPattern.exec(topic) returned null
    | NotAHandler(code: int)              // this[code] is not a function
    | UnexpectedConnect                   // the initiator received a Connect packet
    | OutOfOrder(expected: int, got: int) // "Expected ${expected} but got ${got}"

  datatype Result<T> = Ok(value: T) | Err(failure: Failure)

  datatype Option<T> = None | Some(value: T)
}
