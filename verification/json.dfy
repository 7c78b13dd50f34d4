/** Decoded JSON documents, as they travel in request bodies and responses. */
module Json {

  /** A JSON value. Numbers are kept as mathematical reals: amounts are passed
      through unchanged and no arithmetic is done on them. */
  datatype Value =
    | Null
    | Bool(b: bool)
    | Number(n: real)
    | Str(s: string)
    | Array(items: seq<Value>)
    | Object(fields: map<string, Value>)
}
