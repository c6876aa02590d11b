/** The values a component reads out of `response.json()`, with the reading
    rules of JavaScript that the components depend on: optional-chained
    property reads, truthiness, `a || b`, `x.length > 0`, `x[0]` and
    `String(x)`. */
module JsValue {
  import opened JsText

  datatype Value =
    | Undefined
    | Null
    | Bool(b: bool)
    | Num(n: int)
    | Str(s: string)
    | Arr(elems: seq<Value>)
    | Obj(fields: map<string, Value>)

  /** `undefined`, `null`, `false`, `0` and `""` are falsy; everything else,
      including an empty array or object, is truthy. */
  predicate Truthy(v: Value) {
    match v
    case Undefined => false
    case Null => false
    case Bool(b) => b
    case Num(n) => n != 0
    case Str(s) => s != ""
    case Arr(_) => true
    case Obj(_) => true
  }

  /** `v.key` throws on these two and only on these two. */
  predicate Nullish(v: Value) {
    v.Undefined? || v.Null?
  }

  /** `v?.key` for a key that no built-in prototype defines: a missing key,
      or any key of something that is not an object, reads as `undefined`. */
  function Get(v: Value, key: string): Value {
    if v.Obj? && key in v.fields then v.fields[key] else Undefined
  }

  /** `a || b` */
  function Or(a: Value, b: Value): (r: Value)
    ensures Truthy(r) <==> Truthy(a) || Truthy(b)
    ensures Truthy(a) ==> r == a
  {
    if Truthy(a) then a else b
  }

  /** `v && v.length > 0`. Strings and arrays have a length; an object has one
      only through a numeric `length` field. */
  predicate HasItems(v: Value) {
    Truthy(v) &&
    match v
    case Str(s) => |s| > 0
    case Arr(a) => |a| > 0
    case Obj(_) => Get(v, "length").Num? && Get(v, "length").n > 0
    case _ => false
  }

  /** `v[0]` on a value that is neither `null` nor `undefined`. */
  function First(v: Value): Value {
    match v
    case Str(s) => if s == [] then Undefined else Str([s[0]])
    case Arr(a) => if a == [] then Undefined else a[0]
    case Obj(_) => Get(v, "0")
    case _ => Undefined
  }

  /** An array of strings as a value. */
  function Strs(xs: seq<string>): (r: seq<Value>)
    ensures |r| == |xs| && forall i :: 0 <= i < |xs| ==> r[i] == Str(xs[i])
  {
    if xs == [] then [] else [Str(xs[0])] + Strs(xs[1..])
  }

  /** `String(v)`, which is also the message of `new Error(v)` and what a
      template literal inserts. */
  function ToJsString(v: Value): string
    decreases v, 2
  {
    match v
    case Undefined => "undefined"
    case Null => "null"
    case Bool(b) => if b then "true" else "false"
    case Num(n) => IntToString(n)
    case Str(s) => s
    case Arr(a) => JoinElements(v, 0)
    case Obj(_) => "[object Object]"
  }

  /** `a.join(",")` from element `i` on, as `String(a)` does it: `null` and
      `undefined` elements become empty strings. */
  function JoinElements(whole: Value, i: nat): string
    requires whole.Arr? && i <= |whole.elems|
    decreases whole, 1, |whole.elems| - i
  {
    if i == |whole.elems| then ""
    else
      var e := whole.elems[i];
      var text := if Nullish(e) then "" else ToJsString(e);
      if i + 1 == |whole.elems| then text else text + "," + JoinElements(whole, i + 1)
  }

  /** The message of the TypeError that reading `key` of `null` or
      `undefined` raises (the engine's wording). */
  function NullReadError(v: Value, key: string): string {
    "Cannot read properties of " + ToJsString(v) + " (reading '" + key + "')"
  }
}
