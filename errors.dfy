/**
 * The failures the engine reports. The crate's own error enum does not
 * match its uses, so this is the set of outcomes its functions actually
 * produce: a malformed part (a reader error or a missing page attribute),
 * a serialisation failure, a conversion of template data that fails, and a
 * Rust panic (an `unwrap` on `None`/`Err` or a slice index out of range),
 * which the model reports as a value instead of aborting.
 */
module Errors {
  datatype Error =
    | Malformed(message: string)
    | ReaderFailure(message: string)
    | InvalidInputData(message: string)
    | SerializationFailure
    | Panic(reason: string)
}
