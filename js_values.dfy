/** The decoded JSON the front end reads, with JavaScript's semantics rather than Python's: reading a
  * property of `undefined` or `null` is a TypeError, a missing property is `undefined`, arrays and
  * objects are always truthy, and `String(v)` renders a value as template literals do. */
module JsValues {
  import opened Wrappers
  import opened PyJson
  import Text

  /** A JavaScript value read from decoded JSON: `undefined` or a JSON value. */
  datatype JsVal = Undefined | Js(json: Json)

  const Null: JsVal := Js(JNull)

  predicate Nullish(v: JsVal) {
    v == Undefined || v == Null
  }

  /** JavaScript truthiness: undefined, null, false, 0 and "" are falsy; every array and object is
    * truthy, even an empty one. */
  predicate JsTruthy(v: JsVal) {
    match v
    case Undefined => false
    case Js(j) =>
      match j
      case JNull => false
      case JBool(b) => b
      case JInt(i) => i != 0
      case JStr(s) => s != ""
      case _ => true
  }

  /** `a || b`. */
  function JsOr(a: JsVal, b: JsVal): (r: JsVal)
    ensures JsTruthy(a) ==> r == a
    ensures !JsTruthy(a) ==> r == b
  {
    if JsTruthy(a) then a else b
  }

  /** `v.k`; None is the TypeError thrown when `v` is undefined or null. Strings and arrays have a
    * `length`; any other property of a primitive is undefined. */
  function Prop(v: JsVal, k: string): (r: Option<JsVal>)
    ensures r.None? <==> Nullish(v)
    ensures v.Js? && v.json.JDict? ==>
      r == Some(if k in v.json.fields then Js(v.json.fields[k]) else Undefined)
    ensures v.Js? && v.json.JList? && k == "length" ==> r == Some(Js(JInt(|v.json.items|)))
  {
    match v
    case Undefined => None
    case Js(j) =>
      match j
      case JNull => None
      case JDict(m) => Some(if k in m then Js(m[k]) else Undefined)
      case JList(xs) => Some(if k == "length" then Js(JInt(|xs|)) else Undefined)
      case JStr(s) => Some(if k == "length" then Js(JInt(|s|)) else Undefined)
      case _ => Some(Undefined)
  }

  /** `v?.k`: undefined instead of a TypeError when `v` is undefined or null. */
  function OptProp(v: JsVal, k: string): (r: JsVal)
    ensures Nullish(v) ==> r == Undefined
    ensures !Nullish(v) ==> Some(r) == Prop(v, k)
  {
    match Prop(v, k)
    case None => Undefined
    case Some(x) => x
  }

  /** `v[i]`: an array element, a one-character string, or the object property named by the
    * decimal rendering of `i`; None when `v` is undefined or null. */
  function Item(v: JsVal, i: nat): (r: Option<JsVal>)
    ensures r.None? <==> Nullish(v)
    ensures v.Js? && v.json.JList? ==>
      r == Some(if i < |v.json.items| then Js(v.json.items[i]) else Undefined)
  {
    match v
    case Undefined => None
    case Js(j) =>
      match j
      case JNull => None
      case JList(xs) => Some(if i < |xs| then Js(xs[i]) else Undefined)
      case JStr(s) => Some(if i < |s| then Js(JStr([s[i]])) else Undefined)
      case JDict(m) =>
        var k := Text.NatToString(i);
        Some(if k in m then Js(m[k]) else Undefined)
      case _ => Some(Undefined)
  }

  /** `String(v)`: what a template literal `${v}` inserts. Arrays are joined with ',' and their
    * null elements render as empty; objects render as "[object Object]". */
  function JsText(v: JsVal): (s: string)
    ensures v.Js? && v.json.JStr? ==> s == v.json.s
    ensures v.Js? && v.json.JInt? ==> s == Text.IntToString(v.json.i)
  {
    match v
    case Undefined => "undefined"
    case Js(j) => JsonText(j)
  }

  function JsonText(j: Json): (s: string)
  {
    match j
    case JNull => "null"
    case JBool(b) => if b then "true" else "false"
    case JInt(i) => Text.IntToString(i)
    case JStr(s) => s
    case JDict(_) => "[object Object]"
    case JList(xs) =>
      if xs == [] then ""
      else Text.Join(seq(|xs|, k requires 0 <= k < |xs| => if xs[k] == JNull then "" else JsonText(xs[k])), ',')
  }
}
