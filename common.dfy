/** Values shared by every part of the model. */
module Common {

  /** A value that may be absent: a JSON body field, a cookie, a store hit. */
  datatype Option<T> = None | Some(value: T)

  /** JavaScript truthiness of an optional string: `undefined`, `null` and
      the empty string are falsy, every other string is truthy. */
  predicate Truthy(v: Option<string>)
  {
    v.Some? && v.value != ""
  }
}
