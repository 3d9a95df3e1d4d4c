/** The result of an operation that may be absent, or may be refused with a reason. */
module Wrappers {

  datatype Option<+T> = None | Some(value: T) {
    function GetOr(default: T): T {
      if Some? then value else default
    }
  }

  /** A value, or the code of the refusal. */
  datatype Result<+T> = Ok(value: T) | Err(code: string)

  /** JavaScript's truth test on an optional string: missing and empty are both false. */
  predicate Truthy(s: Option<string>) {
    s.Some? && s.value != ""
  }
}
