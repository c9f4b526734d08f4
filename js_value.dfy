/**
 * The JavaScript values the session layer handles, with the few pieces of
 * the language's semantics it relies on: truthiness, `typeof x === 'object'`,
 * property reads through `?.`, the `||` operator and string conversion.
 */
module JsValue {

  /** A JavaScript value. Every structured value (a parsed JSON object, an
      error object, a response) is an `Obj` from property names to values. */
  datatype Value =
    | Undefined
    | Null
    | Bool(b: bool)
    | Num(n: int)
    | Str(s: string)
    | Obj(props: map<string, Value>)

  /** `!!v`: false for undefined, null, false, 0 and the empty string. */
  predicate Truthy(v: Value) {
    match v
    case Undefined => false
    case Null => false
    case Bool(b) => b
    case Num(n) => n != 0
    case Str(s) => s != ""
    case Obj(_) => true
  }

  /** `v === undefined || v === null`. */
  predicate IsNullish(v: Value) {
    v.Undefined? || v.Null?
  }

  /** `typeof v === 'object'` (which holds of `null` too). */
  predicate IsObjectType(v: Value) {
    v.Null? || v.Obj?
  }

  /** `v?.key`: the own property `key` of an object, `undefined` otherwise. */
  function Get(v: Value, key: string): (r: Value)
    ensures !v.Obj? ==> r == Undefined
  {
    match v
    case Obj(props) => if key in props then props[key] else Undefined
    case _ => Undefined
  }

  /** `{ [key]: _, ...rest } = v`: the object without the property `key`. */
  function Without(v: Value, key: string): (r: Value)
    ensures Get(r, key) == Undefined
    ensures forall k :: k != key ==> Get(r, k) == Get(v, k)
  {
    match v
    case Obj(props) => Obj(props - {key})
    case _ => Obj(map[])
  }

  /** `a || b`: the left operand when it is truthy, the right one otherwise. */
  function Or(a: Value, b: Value): Value {
    if Truthy(a) then a else b
  }

  /** The decimal digits of `n`. */
  function NatToString(n: nat): (r: string)
    ensures |r| >= 1
    decreases n
  {
    var digit := "0123456789"[n % 10];
    if n < 10 then [digit] else NatToString(n / 10) + [digit]
  }

  /** `String(v)`, which is also what a template literal inserts for `${v}`. */
  function ToJsString(v: Value): string {
    match v
    case Undefined => "undefined"
    case Null => "null"
    case Bool(b) => if b then "true" else "false"
    case Num(n) => if n < 0 then "-" + NatToString(-n) else NatToString(n)
    case Str(s) => s
    case Obj(_) => "[object Object]"
  }

  /** `new Error(v).message`: the empty string for `undefined`, `String(v)` otherwise. */
  function ErrorMessageText(v: Value): string {
    if v.Undefined? then "" else ToJsString(v)
  }

  /** An `Error` instance as a value: its one own property the code reads is `message`. */
  function ErrorObject(message: string): (e: Value)
    ensures Get(e, "message") == Str(message) && Get(e, "response") == Undefined
  {
    Obj(map["message" := Str(message)])
  }

  /** The `TypeError` text a property read `base.key` raises when `base` is nullish. */
  function ReadError(base: Value, key: string): string {
    "Cannot read properties of " + ToJsString(base) + " (reading '" + key + "')"
  }

  /** `x.f is not a function`: the `TypeError` text of calling a missing method. */
  function NotAFunction(callee: string): string {
    callee + " is not a function"
  }
}
