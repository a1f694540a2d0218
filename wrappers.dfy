/** Small value types shared by the models of the web application's core. */
module Wrappers {

  /** A value that may be missing (`null` or `undefined` in the application). */
  datatype Option<+T> = None | Some(value: T) {

    /** The `??` operator: the wrapped value, or `default` when missing. */
    function GetOr(default: T): T {
      match this
      case Some(v) => v
      case None => default
    }
  }

  /** How an awaited call to a collaborator ended: it returned a value, or it threw. */
  datatype Outcome<+T> = Returns(value: T) | Throws

  /** The JSON values a user-metadata entry may hold. */
  datatype Json =
    | JNull
    | JBool(b: bool)
    | JNumber(n: int)
    | JString(s: string)

  /** JavaScript truthiness of an optional string: present and not empty. */
  predicate Truthy(s: Option<string>) {
    s.Some? && s.value != ""
  }
}
