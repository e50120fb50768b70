/** Small wrappers shared by every module: optional values, results, and the
    ways an asynchronous call of the app can fail. */
module Common {

  /** A JavaScript value that may be `null`/`undefined`. */
  datatype Option<+T> = None | Some(value: T)

  /** The outcome of an `async` function: it resolves with a value or rejects. */
  datatype Result<+T, +E> = Success(value: T) | Failure(error: E)

  /** Why a call rejects. */
  datatype Failure =
    | Thrown(message: string)  // an `Error` the app's own code throws with this message
    | NetworkError             // `fetch` rejected: no response reached the app
    | ParseError               // `response.json()` rejected: the body is not JSON
    | TypeError                // a value was called as a function that it does not have

  /** JavaScript truthiness of a string that may be missing: `!v` is false exactly
      when `v` is present and not the empty string. */
  predicate Usable(v: Option<string>) {
    v.Some? && v.value != ""
  }

  /** `a || b` for a string `a` that may be missing and a fallback `b`. */
  function OrElse(a: Option<string>, b: string): string {
    if Usable(a) then a.value else b
  }
}
