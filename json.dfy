/** Decoded JSON values, as the adapters see them after `JSON.parse` or
    `response.json()`. Numbers are integers here; fractional numbers are not
    part of this model. */
module Json {
  import opened Wrappers
  import opened Text

  datatype Json =
    | JNull
    | JBool(b: bool)
    | JNumber(n: int)
    | JString(s: string)
    | JArray(items: seq<Json>)
    | JObject(fields: map<string, Json>)

  /** JavaScript truthiness of a decoded value. */
  predicate IsTruthy(v: Json) {
    match v
    case JNull => false
    case JBool(b) => b
    case JNumber(n) => n != 0
    case JString(s) => s != ""
    case _ => true
  }

  /** A property of an object, `undefined` (`None`) when absent or when the
      value is no object. */
  function Field(v: Json, key: string): (r: Option<Json>)
    ensures r.Some? <==> v.JObject? && key in v.fields
  {
    if v.JObject? && key in v.fields then Some(v.fields[key]) else None
  }

  /** `String(v)`: strings as they are, numbers in decimal, arrays as their
      elements' texts joined by commas (null elements print as nothing), and
      every object as "[object Object]". */
  function StringOf(v: Json): (r: string)
    ensures v.JString? ==> r == v.s
    ensures v.JNumber? ==> r == IntToString(v.n)
    decreases v, 1
  {
    match v
    case JNull => "null"
    case JBool(b) => if b then "true" else "false"
    case JNumber(n) => IntToString(n)
    case JString(s) => s
    case JArray(items) => ElementsText(items)
    case JObject(_) => "[object Object]"
  }

  function ElementsText(items: seq<Json>): (r: string)
    ensures items == [] ==> r == ""
    decreases items, 0
  {
    if items == [] then ""
    else
      var first := if items[0].JNull? then "" else StringOf(items[0]);
      if |items| == 1 then first else first + "," + ElementsText(items[1..])
  }

  /** `String(v)` of an optional value, "undefined" for an absent one. */
  function StringOfField(v: Option<Json>): string {
    match v
    case None => "undefined"
    case Some(j) => StringOf(j)
  }

  /** `a || b` on optional values: the first truthy one, else the last. */
  function Or(a: Option<Json>, b: Option<Json>): (r: Option<Json>)
    ensures a.Some? && IsTruthy(a.value) ==> r == a
    ensures !(a.Some? && IsTruthy(a.value)) ==> r == b
  {
    if a.Some? && IsTruthy(a.value) then a else b
  }
}
