/** JSON values as the client sees them after `JSON.parse`, with the JavaScript
    operations the client applies to them: property access, `??`, truthiness,
    `typeof` tests and the string conversion `new Error(message)` performs. */
module Js {
  import opened Base
  import Text

  /** `JsonValue`: a primitive, an array or an object. Numbers are integers here. */
  datatype Json =
    | JNull
    | JBool(b: bool)
    | JNumber(n: int)
    | JString(s: string)
    | JArray(items: seq<Json>)
    | JObject(fields: map<string, Json>)

  /** An error value as `catch` receives it: whether it is a `DOMException`, its `name` and its `message`. */
  datatype JsError = JsError(isDomException: bool, name: string, message: string)

  /** What reading a property of `null` throws. */
  const NullPropertyRead := JsError(false, "TypeError", "Cannot read properties of null")

  /** `value.key` on a value that is not `null`: the member of an object, `undefined` otherwise. */
  function Get(value: Json, key: string): (r: Option<Json>)
    ensures r.Some? <==> value.JObject? && key in value.fields
    ensures r.Some? ==> r.value == value.fields[key]
  {
    if value.JObject? && key in value.fields then Some(value.fields[key]) else None
  }

  /** Looking up either key of a two-key object literal. */
  lemma GetFromPair(k1: string, v1: Json, k2: string, v2: Json)
    requires k1 != k2
    ensures Get(JObject(map[k1 := v1, k2 := v2]), k1) == Some(v1)
    ensures Get(JObject(map[k1 := v1, k2 := v2]), k2) == Some(v2)
  {
  }

  /** `value?.[outer]?.[inner]`: a property of a property, when both are there. */
  function GetIn(value: Json, outer: string, inner: string): (r: Option<Json>)
    ensures r.Some? <==> Get(value, outer).Some? && Get(value, outer).value.JObject? && inner in Get(value, outer).value.fields
  {
    var o := Get(value, outer);
    if o.Some? then Get(o.value, inner) else None
  }

  /** `v === null || v === undefined`. */
  predicate IsNullish(v: Option<Json>) {
    v.None? || v.value.JNull?
  }

  /** `a ?? b`: `a` unless it is `null` or `undefined`. */
  function Coalesce(a: Option<Json>, b: Option<Json>): (r: Option<Json>)
    ensures !IsNullish(a) ==> r == a
    ensures IsNullish(a) ==> r == b
  {
    if IsNullish(a) then b else a
  }

  /** `a ?? null`: the value when it is defined, `null` when it is missing. */
  function OrNull(a: Option<Json>): (r: Json)
    ensures a.Some? ==> r == a.value
    ensures a.None? ==> r == JNull
  {
    a.GetOr(JNull)
  }

  /** JavaScript truthiness: `null`, `false`, `0` and `""` are falsy; arrays and objects are truthy. */
  predicate Truthy(v: Json) {
    match v
    case JNull => false
    case JBool(b) => b
    case JNumber(n) => n != 0
    case JString(s) => s != ""
    case JArray(_) => true
    case JObject(_) => true
  }

  /** The texts `join` gives the elements of an array: `""` for `null`, `String(x)` otherwise. */
  function ElementTexts(items: seq<Json>): (texts: seq<string>)
    decreases items, 0
    ensures |texts| == |items|
    ensures forall i :: 0 <= i < |items| ==> texts[i] == if items[i].JNull? then "" else ToText(items[i])
  {
    seq(|items|, i requires 0 <= i < |items| => if items[i].JNull? then "" else ToText(items[i]))
  }

  /** `String(v)`, as `new Error(v)` applies it to a message that is not a string. */
  function ToText(v: Json): (r: string)
    decreases v, 1
    ensures v.JString? ==> r == v.s
    ensures v.JNumber? ==> r == Text.IntToString(v.n)
    ensures v.JNull? ==> r == "null"
    ensures v.JBool? ==> r == if v.b then "true" else "false"
    ensures v.JObject? ==> r == "[object Object]"
    ensures v.JArray? ==> r == Text.Join(ElementTexts(v.items), ",")
  {
    match v
    case JNull => "null"
    case JBool(b) => if b then "true" else "false"
    case JNumber(n) => Text.IntToString(n)
    case JString(s) => s
    case JArray(items) => Text.Join(ElementTexts(items), ",")
    case JObject(_) => "[object Object]"
  }

  /** A `message` of `["a", "b"]` becomes the text "a,b", and `[null, 7]` becomes ",7". */
  lemma ArrayText()
    ensures ToText(JArray([JString("a"), JString("b")])) == "a,b"
    ensures ToText(JArray([JNull, JNumber(7)])) == ",7"
  {
    assert ElementTexts([JString("a"), JString("b")]) == ["a", "b"];
    assert ElementTexts([JNull, JNumber(7)]) == ["", "7"];
  }

  /** The members of an object, for `{ ...value }`. */
  function Fields(value: Json): (m: map<string, Json>)
    ensures value.JObject? ==> m == value.fields
  {
    if value.JObject? then value.fields else map[]
  }
}
