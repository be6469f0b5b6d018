/**
 * What the browser front end works with: JavaScript values that may be
 * `undefined` or `null`, the outcome of a `fetch`, and the alert banners the
 * components show.
 */
module Browser {
  /** A JSON field as the front end reads it: missing, `null`, or a value. */
  datatype Field<T> = Undefined | Null | Value(value: T)

  /** A string is truthy in JavaScript when it is present and non-empty. */
  predicate Truthy(f: Field<string>)
  {
    f.Value? && f.value != ""
  }

  /** What an awaited `fetch` gives: an OK response with its body, a non-OK status with its text, or a thrown error. */
  datatype Reply<T> = Ok(body: T) | NotOk(status: int, text: string) | Thrown(message: string)

  /** A lookup whose only interest is the HTTP status, or a thrown error. */
  datatype Lookup = Status(code: int) | LookupFailed(message: string)

  datatype AlertKind = ErrorAlert | SuccessAlert

  /** An alert banner; `autoDismiss` asks for it to be cleared by a timer. */
  datatype Alert = Alert(kind: AlertKind, message: string, autoDismiss: bool)
}
