/**
 * JSON values as the handlers see them after `request.json()` or
 * `response.json()`, with JavaScript's truthiness, property reads and
 * `String(v)` conversion. Numbers are integers in this model.
 */
module Json {
  import opened Wrappers
  import Numbers

  datatype Value =
    | Null
    | Bool(b: bool)
    | Number(n: int)
    | Str(s: string)
    | Array(items: seq<Value>)
    | Object(fields: map<string, Value>)

  /** JavaScript truthiness: `null`, `false`, `0` and `""` are falsy; arrays and objects are truthy. */
  predicate Truthy(v: Value) {
    match v
    case Null => false
    case Bool(b) => b
    case Number(n) => n != 0
    case Str(s) => s != ""
    case Array(_) => true
    case Object(_) => true
  }

  /** `v[key]` on a non-null value: present only on objects that own the key. */
  function Get(v: Value, key: string): (r: Option<Value>)
    ensures r.Some? <==> v.Object? && key in v.fields
  {
    if v.Object? && key in v.fields then Some(v.fields[key]) else None
  }

  /** The string held at `key`, when the property is a string (`typeof v[key] === 'string'`). */
  function GetString(v: Value, key: string): (r: Option<string>)
    ensures r.Some? <==> Get(v, key).Some? && Get(v, key).value.Str?
    ensures r.Some? ==> Get(v, key) == Some(Str(r.value))
  {
    match Get(v, key)
    case Some(Str(s)) => Some(s)
    case _ => None
  }

  /** Joins `parts` with `sep` between consecutive parts. */
  function Join(parts: seq<string>, sep: string): string {
    if |parts| == 0 then ""
    else if |parts| == 1 then parts[0]
    else parts[0] + sep + Join(parts[1..], sep)
  }

  /** `String(v)`: arrays join their elements with `,` (null elements print empty), objects print `[object Object]`. */
  function ToJsString(v: Value): string
    decreases v
  {
    match v
    case Null => "null"
    case Bool(b) => if b then "true" else "false"
    case Number(n) => Numbers.IntToString(n)
    case Str(s) => s
    case Array(items) =>
      Join(seq(|items|, i requires 0 <= i < |items| =>
        if items[i].Null? then "" else ToJsString(items[i])), ",")
    case Object(_) => "[object Object]"
  }
}
