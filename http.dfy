/** Request-body values as the Express handlers see them, and JavaScript's
    truthiness test (`!x`) on them. */
module Http {

  /** An optional request-body field: `None` when the key is absent. */
  datatype Option<+T> = None | Some(value: T)

  /** A JSON value taken from a parsed request body. `Undefined` is a missing key.
      Arrays and objects are always truthy in JavaScript, so they are one case. */
  datatype JsonValue =
    | Undefined
    | Null
    | Bool(b: bool)
    | Num(n: real)
    | Str(s: string)
    | Compound

  /** JavaScript's falsy values among those a JSON body can carry (NaN cannot
      occur, and -0 equals 0 as a real). */
  const FalsyValues: set<JsonValue> := {Undefined, Null, Bool(false), Num(0.0), Str("")}

  /** JavaScript truthiness of a JSON value (`!v` is its negation). */
  predicate Truthy(v: JsonValue)
    ensures Truthy(v) <==> v !in FalsyValues
  {
    match v
    case Undefined => false
    case Null => false
    case Bool(b) => b
    case Num(n) => n != 0.0
    case Str(s) => s != ""
    case Compound => true
  }

  /** Truthiness of an optional string field, by the same rule: a missing key
      is `Undefined`, a string is `Str`. */
  predicate Present(o: Option<string>)
    ensures Present(o) <==> o.Some? && o.value != ""
  {
    Truthy(if o.Some? then Str(o.value) else Undefined)
  }

  const StatusOk: int := 200
  const StatusBadRequest: int := 400
  const StatusServerError: int := 500
}
