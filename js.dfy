/** Conventions of JavaScript values, and of axios errors, that the client
    code relies on. */
module Js {

  /** A value that may be `null` or `undefined`. */
  datatype Option<+T> = None | Some(value: T)

  /** A failed request as axios reports it: the status when a response
      arrived, and the `message` of the response body when there is one. */
  datatype HttpError = HttpError(status: Option<int>, message: Option<string>)

  /** A string is truthy in JavaScript exactly when it is not empty. */
  predicate Truthy(s: string) {
    s != ""
  }

  /** A possibly missing string in a boolean position: present and non-empty. */
  predicate TruthyOpt(o: Option<string>) {
    o.Some? && Truthy(o.value)
  }

  /** `value || fallback` on a string that may be missing: the value when it
      is truthy, the fallback otherwise. */
  function OrElse(value: Option<string>, fallback: string): (r: string)
    ensures TruthyOpt(value) ==> r == value.value
    ensures !TruthyOpt(value) ==> r == fallback
    ensures Truthy(fallback) ==> Truthy(r)
  {
    if TruthyOpt(value) then value.value else fallback
  }
}
