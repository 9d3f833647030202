/** Optional values, and the result of a call that may raise. */
module Wrappers {

  datatype Option<+T> = None | Some(value: T)

  /** What a caller sees of a Python call: a value, or a raised `DomainError`. */
  datatype Result<+T> = Ok(value: T) | Raised(error: Error)

  datatype Error =
    | NotFound
    | IllegalTransition
    | ProviderMissing
    | AmountInvalid
    | Forbidden

  /** `x or y` on optional strings: the empty string counts as absent. */
  function OrElse(x: Option<string>, y: Option<string>): Option<string> {
    if x.Some? && x.value != "" then x else y
  }
}
