/**
 * Shared value types: optional values, and the outcome of an operation that
 * the Python code either returns normally or ends with an exception.
 */
module Base {
  datatype Option<T> = None | Some(value: T)

  /** The exception kinds the modelled code raises or catches. */
  datatype Error =
    | ValueError(reason: string)
    | KeyError(reason: string)
    | RuntimeError(reason: string)
    | FileNotFoundError(reason: string)
    | IndexError(reason: string)
    | AttributeError(reason: string)
    | ClientError(code: string)
    | HttpError(status: nat, detail: string)

  datatype Result<T> = Ok(value: T) | Err(error: Error)

  /** Python truthiness of an optional string: present and non-empty. */
  predicate Truthy(s: Option<string>)
  {
    s.Some? && s.value != ""
  }

  /** `value or default` for an optional string. */
  function OrElse(s: Option<string>, default: string): (r: string)
    ensures Truthy(s) ==> r == s.value
    ensures !Truthy(s) ==> r == default
  {
    if Truthy(s) then s.value else default
  }
}
