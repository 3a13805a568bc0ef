/**
 * The slice of JavaScript value semantics the formatters depend on: what a
 * `for…in` loop enumerates, what `typeof v === 'object'` selects, how a
 * template literal `${v}` renders a value, property access, and strict
 * equality between values of different types.
 */
module Js {
  import opened Wrappers
  import Strings

  /**
   * A JavaScript value. Numbers carry the text `String(n)` gives for them
   * (number formatting is not modelled). An object's properties are listed in
   * the order `for…in` enumerates them. `JFunction` stands for a function
   * object, such as the `pop` method of an array.
   */
  datatype JsValue =
    | JUndefined
    | JNull
    | JBool(b: bool)
    | JNumber(text: string)
    | JString(s: string)
    | JArray(items: seq<JsValue>)
    | JObject(props: seq<(string, JsValue)>)
    | JFunction(name: string)

  /** `typeof v === 'object'`: true for objects, arrays and, famously, `null`. */
  predicate IsObject(v: JsValue): (b: bool)
    ensures v.JNull? ==> b
    ensures v.JString? || v.JNumber? || v.JBool? || v.JUndefined? || v.JFunction? ==> !b
    ensures v.JArray? || v.JObject? ==> b
  {
    v.JNull? || v.JArray? || v.JObject?
  }

  /** The `[key, value]` pairs a `for (let key in v)` loop visits, in order, with `v[key]`. */
  function ForInEntries(v: JsValue): (es: seq<(string, JsValue)>)
    ensures v.JString? ==> |es| == |v.s|
    ensures v.JString? ==> forall i :: 0 <= i < |v.s| ==> es[i] == (Strings.NatToString(i), JString([v.s[i]]))
    ensures v.JArray? ==> |es| == |v.items|
    ensures v.JArray? ==> forall i :: 0 <= i < |v.items| ==> es[i] == (Strings.NatToString(i), v.items[i])
    ensures v.JObject? ==> es == v.props
    ensures !(v.JString? || v.JArray? || v.JObject?) ==> es == []
  {
    match v
    case JString(s) => seq(|s|, i requires 0 <= i < |s| => (Strings.NatToString(i), JString([s[i]])))
    case JArray(items) => seq(|items|, i requires 0 <= i < |items| => (Strings.NatToString(i), items[i]))
    case JObject(props) => props
    case _ => []
  }

  /** The value of the first property named `key`, if any. */
  function Lookup(props: seq<(string, JsValue)>, key: string): (r: Option<JsValue>)
    ensures r.Some? <==> exists i :: 0 <= i < |props| && props[i].0 == key
    ensures r.Some? ==> exists i ::
      0 <= i < |props| && props[i] == (key, r.value) && (forall j :: 0 <= j < i ==> props[j].0 != key)
    decreases |props|
  {
    if |props| == 0 then None
    else if props[0].0 == key then Some(props[0].1)
    else
      var r := Lookup(props[1..], key);
      assert forall i :: 1 <= i < |props| ==> props[i] == props[1..][i - 1];
      r
  }

  /**
   * `v.key` for a `v` that is neither `null` nor `undefined` (reading a
   * property of those throws), for a `key` that is not an index, `length` or
   * the name of a built-in method: strings, numbers, booleans and arrays have
   * no such property, so only an object's own entries are consulted. The
   * formatters read only `NewStateValue`.
   */
  function GetProperty(v: JsValue, key: string): (r: JsValue)
    requires !v.JNull? && !v.JUndefined?
    ensures !v.JObject? ==> r == JUndefined
    ensures v.JObject? ==> r == (match Lookup(v.props, key) case Some(x) => x case None => JUndefined)
  {
    if v.JObject? then
      match Lookup(v.props, key)
      case Some(x) => x
      case None => JUndefined
    else JUndefined
  }

  /** `${v}` in a template literal, i.e. `String(v)`. */
  function Render(v: JsValue): (r: string)
    ensures v.JUndefined? ==> r == "undefined"
    ensures v.JNull? ==> r == "null"
    ensures v.JString? ==> r == v.s
    ensures v.JObject? ==> r == "[object Object]"
    ensures v.JArray? && |v.items| == 0 ==> r == ""
  {
    match v
    case JUndefined => "undefined"
    case JNull => "null"
    case JBool(b) => if b then "true" else "false"
    case JNumber(text) => text
    case JString(s) => s
    case JArray(items) => RenderItems(items)
    case JObject(_) => "[object Object]"
    case JFunction(name) => "function " + name + "() { [native code] }"
  }

  /** `Array.prototype.toString`: the items joined by commas, `null` and `undefined` as empty. */
  function RenderItems(items: seq<JsValue>): string
    decreases items
  {
    if |items| == 0 then ""
    else
      var first := if items[0].JNull? || items[0].JUndefined? then "" else Render(items[0]);
      if |items| == 1 then first else first + "," + RenderItems(items[1..])
  }

  /** `Object.keys(props)` as the array it returns. */
  function Keys(props: seq<(string, JsValue)>): (r: JsValue)
    ensures r.JArray? && |r.items| == |props|
  {
    JArray(seq(|props|, i requires 0 <= i < |props| => JString(props[i].0)))
  }

  /**
   * `a === b`. Values of different types are never strictly equal; primitives
   * of one type compare by value. Arrays, objects and functions compare by
   * identity, which this value model does not track, so two of them are taken
   * to be distinct objects.
   */
  predicate StrictEquals(a: JsValue, b: JsValue): (r: bool)
    ensures r ==> a == b
    ensures a == b && (a.JUndefined? || a.JNull? || a.JBool? || a.JString?) ==> r
    ensures a.JArray? || a.JObject? || a.JFunction? ==> !r
  {
    match (a, b)
    case (JUndefined, JUndefined) => true
    case (JNull, JNull) => true
    case (JBool(x), JBool(y)) => x == y
    case (JNumber(x), JNumber(y)) => x == y && x != "NaN"
    case (JString(x), JString(y)) => x == y
    case _ => false
  }
}
