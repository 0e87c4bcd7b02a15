/**
  The JavaScript values the request handlers inspect: a JSON document as
  axios hands it over (parsed JSON, or the raw body as a string), plus
  `undefined`, which is what reading an absent property yields.

  Numbers are integers here; JavaScript's floating point (fractions, NaN,
  -0) is not modelled.
 */
module JsValue {

  datatype Json =
    | JUndefined
    | JNull
    | JBool(b: bool)
    | JNum(n: int)
    | JStr(s: string)
    | JArr(elems: seq<Json>)
    | JObj(fields: map<string, Json>)

  /** The result of JavaScript's `typeof` on a value (`typeof null` is "object"). */
  function TypeOf(v: Json): (t: string)
    ensures t in {"undefined", "object", "boolean", "number", "string"}
    ensures t == "object" <==> v.JNull? || v.JArr? || v.JObj?
  {
    match v
    case JUndefined => "undefined"
    case JBool(_) => "boolean"
    case JNum(_) => "number"
    case JStr(_) => "string"
    case _ => "object"
  }

  /**
    JavaScript truthiness: `undefined`, `null`, `false`, `0` and the empty
    string are falsy; every other value, including an empty array and an
    empty object, is truthy.
   */
  predicate Truthy(v: Json)
    ensures Truthy(v) <==> v !in {JUndefined, JNull, JBool(false), JNum(0), JStr("")}
  {
    match v
    case JUndefined => false
    case JNull => false
    case JBool(b) => b
    case JNum(n) => n != 0
    case JStr(s) => s != ""
    case JArr(_) => true
    case JObj(_) => true
  }

  /** The test `typeof v === 'object' && v !== null`: arrays pass it too. */
  predicate IsObject(v: Json)
    ensures IsObject(v) <==> v.JArr? || v.JObj?
  {
    TypeOf(v) == "object" && v != JNull
  }

  /**
    The property read `v.key` for a key that names no array index and no
    inherited member of an object: the object's own entry, `undefined`
    otherwise. (For a string, `v.sub` reads the inherited method
    String.prototype.sub; a function is truthy with no own keys, so every
    test the handlers make on it comes out as it does on `undefined`.)
   */
  function Prop(v: Json, key: string): (r: Json)
    ensures Truthy(r) ==> v.JObj? && key in v.fields
  {
    if v.JObj? && key in v.fields then v.fields[key] else JUndefined
  }

  /** Removing one entry of an object leaves every other property read unchanged. */
  lemma PropFrame(fields: map<string, Json>, removed: string, key: string)
    requires removed != key
    ensures Prop(JObj(fields - {removed}), key) == Prop(JObj(fields), key)
  {
  }

  /**
    `Object.keys(v).length`: the entries of an object, the elements of an
    array, the characters of a string, and none for a boolean or a number.
    JavaScript throws on `null` and `undefined`; the handlers only ask
    after a truthiness test, and 0 stands for them here.
   */
  function KeyCount(v: Json): (n: nat)
    ensures n > 0 ==> Truthy(v)
  {
    match v
    case JStr(s) => |s|
    case JArr(e) => |e|
    case JObj(f) => |f|
    case _ => 0
  }
}
