/**
 * JavaScript values as the middleware handles them: JSON data plus
 * `undefined`, with the language's truthiness, `||`, `??`, optional
 * property access `?.` and template-literal conversion `${v}` written out.
 * Numbers are integers here.
 */
module JsValue {
  import opened Strings

  datatype Value =
    | Undefined
    | Null
    | Bool(b: bool)
    | Num(n: int)
    | Str(s: string)
    | Arr(items: seq<Value>)
    | Obj(fields: map<string, Value>)

  /** The falsy values are undefined, null, false, 0 and the empty string. */
  predicate Truthy(v: Value) {
    match v
    case Undefined => false
    case Null => false
    case Bool(b) => b
    case Num(n) => n != 0
    case Str(s) => s != ""
    case Arr(_) => true
    case Obj(_) => true
  }

  predicate Nullish(v: Value) { v.Undefined? || v.Null? }

  /** `a || b`: falls through on every falsy `a`. */
  function Or(a: Value, b: Value): Value {
    if Truthy(a) then a else b
  }

  /** `a ?? b`: falls through only on `undefined` and `null`. */
  function Coalesce(a: Value, b: Value): Value {
    if Nullish(a) then b else a
  }

  /** A value built with `x || fallback` is truthy whenever the fallback is. */
  lemma OrTruthy(a: Value, b: Value)
    requires Truthy(b)
    ensures Truthy(Or(a, b))
  {
  }

  /** Optional property access `v?.key`: undefined unless `v` is an object that owns `key`. */
  function Get(v: Value, key: string): Value {
    if v.Obj? && key in v.fields then v.fields[key] else Undefined
  }

  /** `Object.keys(v).length` for a value that is neither null nor undefined. */
  function KeyCount(v: Value): nat {
    match v
    case Obj(m) => |m|
    case Arr(items) => |items|
    case Str(s) => |s|
    case _ => 0
  }

  /** `${v}`: the string a template literal makes of `v`. */
  function ToText(v: Value): string
    decreases v, if v.Arr? then |v.items| + 1 else 0
  {
    match v
    case Undefined => "undefined"
    case Null => "null"
    case Bool(b) => if b then "true" else "false"
    case Num(n) => IntToString(n)
    case Str(s) => s
    case Arr(items) => ItemsText(v, 0)
    case Obj(_) => "[object Object]"
  }

  /** `Array.prototype.join(',')` from position `i` on, where null and undefined items print as nothing. */
  function ItemsText(arr: Value, i: nat): string
    requires arr.Arr? && i <= |arr.items|
    decreases arr, |arr.items| - i
  {
    if i == |arr.items| then ""
    else
      var item := arr.items[i];
      var text := if Nullish(item) then "" else ToText(item);
      if i + 1 == |arr.items| then text else text + "," + ItemsText(arr, i + 1)
  }
}
