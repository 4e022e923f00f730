/** Option values handed to the four processors: booleans, integers, strings and nested groups. */
module Values {

  /** A JavaScript value as it can occur in a processor's options object. */
  datatype Value =
    | Bool(b: bool)
    | Int(i: int)
    | Str(s: string)
    | Obj(fields: map<string, Value>)

  /** An options object: a key that is not in the map is `undefined`. */
  type Options = map<string, Value>
}
