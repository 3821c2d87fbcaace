/** The JavaScript values the query functions read from their arguments, and the
    truthiness rule (ToBoolean) that gates every optional filter. */
module JsValues {

  /** A JavaScript value, as far as the query builders look at it. Numbers are
      IEEE doubles in JavaScript; here a finite number is a `real` (so +0 and -0
      are both `0.0`) and NaN is a value of its own. Objects and arrays are all
      truthy and are never looked into, so one constructor stands for them. */
  datatype Value =
    | Undefined
    | Null
    | Bool(b: bool)
    | Num(x: real)
    | NaN
    | Str(s: string)
    | Obj

  /** JavaScript's ToBoolean: `undefined`, `null`, `false`, `0`, `NaN` and the
      empty string are falsy; every other value is truthy. */
  predicate Truthy(v: Value) {
    match v
    case Undefined => false
    case Null => false
    case Bool(b) => b
    case Num(x) => x != 0.0
    case NaN => false
    case Str(s) => s != ""
    case Obj => true
  }

  /** A plain object: its own enumerable keys, each with its value.
      `Object.keys(o).length` is `|o|`. */
  type JsObject = map<string, Value>

  /** Property access `o.key`: a key the object does not have reads as `undefined`. */
  function Get(o: JsObject, key: string): Value {
    if key in o then o[key] else Undefined
  }

  /** The expression `a || b`: `a` when it is truthy, otherwise `b`. */
  function Or(a: Value, b: Value): (r: Value)
    ensures Truthy(r) <==> Truthy(a) || Truthy(b)
    ensures Truthy(a) ==> r == a
    ensures !Truthy(a) ==> r == b
  {
    if Truthy(a) then a else b
  }

  /** A default parameter `p = d`: only an `undefined` argument is replaced by
      the default; `null`, `0` and `""` are passed through. */
  function Default(arg: Value, d: Value): (r: Value)
    ensures arg != Undefined ==> r == arg
    ensures arg == Undefined ==> r == d
  {
    if arg == Undefined then d else arg
  }

  /** An object with no keys reads `undefined`, hence a falsy value, at every key. */
  lemma EmptyObjectIsFalsy(o: JsObject, key: string)
    requires |o| == 0
    ensures Get(o, key) == Undefined && !Truthy(Get(o, key))
  {
  }
}
