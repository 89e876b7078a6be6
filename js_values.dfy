/** The few JavaScript value semantics the request handlers rely on. */
module JsValues {

  /** A value that is either present or missing; `None` stands for both
      `undefined` (an unset `request.ip`) and `null` (a missing header). */
  datatype Option<T> = None | Some(value: T)

  /** JavaScript truthiness of a string-or-missing value: a missing value
      and the empty string are falsy, every other string is truthy. */
  predicate Truthy(v: Option<string>)
  {
    v.Some? && v.value != ""
  }

  /** The JavaScript operator `a || b` on string-or-missing values. */
  function Or(a: Option<string>, b: Option<string>): Option<string>
  {
    if Truthy(a) then a else b
  }
}
