/** The values `JSON.parse` produces, and the few JavaScript operators the
    validator and the loader apply to them: property access, optional
    chaining, `typeof`, truthiness and `x || 0`. */
module Json {
  import opened Wrappers

  /** A parsed JSON value. Objects are keyed by member name (a repeated name
      keeps its last value, as `JSON.parse` does). Numbers are exact reals:
      floating-point rounding, NaN and Infinity are not represented. */
  datatype Json =
    | JNull
    | JBool(b: bool)
    | JNumber(n: real)
    | JString(s: string)
    | JArray(elems: seq<Json>)
    | JObject(members: map<string, Json>)

  /** `v.name`, with `None` for `undefined`. Only objects have the member
      names the validator asks for ("timestamp", "costUSD", "message",
      "usage", the token counts): none is an array index or `length`, and no
      primitive has them. */
  function Property(v: Json, name: string): (r: Option<Json>)
    ensures r.Some? <==> v.JObject? && name in v.members
  {
    if v.JObject? && name in v.members then Some(v.members[name]) else None
  }

  /** `v?.name` on a value that may itself be `undefined` or `null`. */
  function OptionalProperty(v: Option<Json>, name: string): (r: Option<Json>)
    ensures r.Some? ==> v.Some? && v.value.JObject?
  {
    match v
    case None => None
    case Some(x) => Property(x, name)
  }

  /** JavaScript's `typeof` on a value that may be `undefined`. */
  function TypeOf(v: Option<Json>): (r: string)
    ensures r == "object" <==> v.Some? && (v.value.JNull? || v.value.JArray? || v.value.JObject?)
  {
    match v
    case None => "undefined"
    case Some(JNull) => "object"
    case Some(JBool(_)) => "boolean"
    case Some(JNumber(_)) => "number"
    case Some(JString(_)) => "string"
    case Some(JArray(_)) => "object"
    case Some(JObject(_)) => "object"
  }

  /** JavaScript truthiness: `undefined`, `null`, `false`, `0` and `""` are
      falsy, everything else (every array and object included) is truthy. */
  predicate Truthy(v: Option<Json>) {
    match v
    case None => false
    case Some(JNull) => false
    case Some(JBool(b)) => b
    case Some(JNumber(n)) => n != 0.0
    case Some(JString(s)) => s != ""
    case Some(JArray(_)) => true
    case Some(JObject(_)) => true
  }

  /** `v || 0` where `v` is a number or absent, as the loader reads every
      metric. Falsy values give 0, exactly as in JavaScript; a truthy value
      that is not a number (which JavaScript would go on to concatenate or
      coerce) is also read as 0. */
  function NumberOrZero(v: Option<Json>): (r: real)
    ensures v.Some? && v.value.JNumber? ==> r == v.value.n
    ensures !Truthy(v) ==> r == 0.0
  {
    if v.Some? && v.value.JNumber? then v.value.n else 0.0
  }
}
