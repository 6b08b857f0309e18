/** An already-parsed JSON value, and the few JavaScript semantics the
    deserialisers lean on: property access, truthiness and `String(v)`.

    An object is a map from keys to values; a key that is absent from the map
    is a property that reads as `undefined`. */
module JsonValues {
  import opened Results

  datatype Json =
    | JNull
    | JBool(b: bool)
    | JNum(n: real)
    | JStr(s: string)
    | JArr(items: seq<Json>)
    | JObj(fields: map<string, Json>)

  predicate IsInteger(x: real) {
    x.Floor as real == x
  }

  /** `v.key` in JavaScript: `None` stands for `undefined`. Only objects carry
      the properties read here. */
  function Property(v: Json, key: string): (r: Option<Json>)
    ensures r.Some? <==> v.JObj? && key in v.fields
  {
    if v.JObj? && key in v.fields then Some(v.fields[key]) else None
  }

  /** JavaScript truthiness (`if (v)`, `v ? a : b`). */
  predicate Truthy(v: Json) {
    match v
    case JNull => false
    case JBool(b) => b
    case JNum(n) => n != 0.0
    case JStr(s) => s != ""
    case JArr(_) => true
    case JObj(_) => true
  }

  /** `String(v)`, as a template literal or `+` applies it. The text of a
      number comes from the runtime's Number-to-string conversion, which is a
      parameter here; an array is joined with "," and shows null elements as
      the empty string. */
  function Text(numberText: real -> string, v: Json): string
    decreases v
  {
    match v
    case JNull => "null"
    case JBool(b) => if b then "true" else "false"
    case JNum(n) => numberText(n)
    case JStr(s) => s
    case JArr(items) =>
      Join(seq(|items|, i requires 0 <= i < |items| =>
                 if items[i].JNull? then "" else Text(numberText, items[i])), ",")
    case JObj(_) => "[object Object]"
  }

  /** `String(v.key)`: a missing property reads as "undefined". */
  function PropertyText(numberText: real -> string, v: Json, key: string): string {
    match Property(v, key)
    case None => "undefined"
    case Some(x) => Text(numberText, x)
  }

  function Join(parts: seq<string>, sep: string): string
    decreases |parts|
  {
    if |parts| == 0 then ""
    else if |parts| == 1 then parts[0]
    else parts[0] + sep + Join(parts[1..], sep)
  }
}
