/** The optional value used throughout the model: JavaScript's `undefined`
    (an absent hash, an absent account, a parse that throws) is `None`. */
module Wrappers {

  datatype Option<+T> = None | Some(value: T)

  /** JavaScript truthiness of an optional string (a hash, an address):
      present and not empty. */
  predicate Present(s: Option<string>) {
    s.Some? && s.value != ""
  }
}
