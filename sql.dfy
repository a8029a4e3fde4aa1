/** Column values as the store and the JSON decoder hand them over. */
module Sql {

  /** One column or JSON property value. `Null` is SQL NULL and also a JSON
      `null` or a property that is absent (mysql2 stores both as NULL);
      `Num` is a number and `Str` a string. */
  datatype Value = Null | Num(n: int) | Str(s: string)

  /** SQL `a = b` in a WHERE or ON clause: NULL equals nothing, not even NULL. */
  predicate SqlEq(a: Value, b: Value)
  {
    a != Null && a == b
  }

  /** The outcome of an expression that may throw (a JavaScript TypeError). */
  datatype Result<T> = Ok(value: T) | Thrown
}
