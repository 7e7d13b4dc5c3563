/** Failure-carrying values shared by the model. */
module Wrappers {

  /** A value that may be absent (JavaScript `null` / `undefined`). */
  datatype Option<+T> = None | Some(value: T) {
    function GetOr(default: T): T {
      match this
      case Some(v) => v
      case None => default
    }
  }

  /**
   * What one call of a text generator (the language model) yields: the generated text,
   * or a thrown value. A thrown `Error` carries its message; anything else thrown carries None.
   */
  datatype Reply = Text(text: string) | Thrown(message: Option<string>)

  /** JavaScript truthiness of a string that may be null: present and non-empty. */
  predicate Truthy(s: Option<string>) {
    s.Some? && s.value != ""
  }
}
