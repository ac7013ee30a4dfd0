/**
 * The few JavaScript values the middleware inspects by type or truthiness.
 * A session identifier read from a request is `undefined`, `false` (the
 * marker cookie-parser leaves for a bad signature) or a string.
 */
module Values {

  datatype JsVal = Undefined | False | Str(s: string)

  /** JavaScript truthiness: only a non-empty string is truthy. */
  predicate Truthy(v: JsVal) {
    v.Str? && v.s != ""
  }

  type byte = b: int | 0 <= b < 256
}
