/**
 * JSON values as JavaScript code sees them once parsed, and the few
 * JavaScript coercions the checkout code relies on: truthiness, property
 * reads (plain and optional-chained), `||`, `String(v)` / template-literal
 * conversion, `Array.prototype.join`, and the object serialisation done by
 * `JSON.stringify` at the top level of a body.
 */
module JsValue {

  /** A parsed JSON value, plus `undefined`, which is what a missing property reads as.
      Numbers are integers in this model. */
  datatype Json =
    | Undefined
    | Null
    | Bool(b: bool)
    | Num(n: int)
    | Str(s: string)
    | Arr(items: seq<Json>)
    | Obj(fields: map<string, Json>)

  datatype Option<T> = None | Some(value: T)

  /** How a piece of JavaScript code ends: it returns a value, or it throws an
      Error whose `message` is given. */
  datatype Completion<T> = Normal(value: T) | Thrown(message: string)

  /** `v == null` (null or undefined). */
  predicate Nullish(v: Json) {
    v.Undefined? || v.Null?
  }

  /** JavaScript truthiness of a value. */
  predicate Truthy(v: Json) {
    match v
    case Undefined => false
    case Null => false
    case Bool(b) => b
    case Num(n) => n != 0
    case Str(s) => s != ""
    case Arr(_) => true
    case Obj(_) => true
  }

  /** `v.key` on a value that is not null or undefined, and `v?.key` on any
      value. Only objects have the properties the checkout code reads. */
  function Prop(v: Json, key: string): Json {
    match v
    case Obj(fields) => if key in fields then fields[key] else Undefined
    case _ => Undefined
  }

  /** `v?.[i]`: an array element, an object's property named by the digits of
      `i`, or a one-character string. */
  function Index(v: Json, i: nat): Json {
    match v
    case Arr(items) => if i < |items| then items[i] else Undefined
    case Obj(_) => Prop(v, NatText(i))
    case Str(s) => if i < |s| then Str([s[i]]) else Undefined
    case _ => Undefined
  }

  /** `a || b` */
  function Or(a: Json, b: Json): Json {
    if Truthy(a) then a else b
  }

  /** Message of the TypeError raised when reading property `key` of null or undefined. */
  function ReadOfNullishMessage(v: Json, key: string): string
    requires Nullish(v)
  {
    "Cannot read properties of " + (if v.Null? then "null" else "undefined") + " (reading '" + key + "')"
  }

  function Digit(d: nat): char
    requires d < 10
  {
    "0123456789"[d]
  }

  /** Decimal digits of a natural number. */
  function NatText(n: nat): (t: string)
    ensures |t| >= 1
    decreases n
  {
    if n < 10 then [Digit(n)] else NatText(n / 10) + [Digit(n % 10)]
  }

  /** `String(n)` for an integer. */
  function IntText(n: int): string {
    if n < 0 then "-" + NatText(-n) else NatText(n)
  }

  /** `String(v)`, which is also what `${v}` and `new Error(v)` produce. */
  function Text(v: Json): string
    decreases v, 1
  {
    match v
    case Undefined => "undefined"
    case Null => "null"
    case Bool(b) => if b then "true" else "false"
    case Num(n) => IntText(n)
    case Str(s) => s
    case Arr(_) => ItemsText(v, 0)
    case Obj(_) => "[object Object]"
  }

  /** The items of an array from position `i` on, joined with "," as
      `String` does it: null and undefined items print as nothing. */
  function ItemsText(v: Json, i: nat): string
    requires v.Arr?
    decreases v, 0, |v.items| - i
  {
    if i >= |v.items| then ""
    else
      var item := if Nullish(v.items[i]) then "" else Text(v.items[i]);
      if i + 1 == |v.items| then item else item + "," + ItemsText(v, i + 1)
  }

  /** `parts.join(sep)` */
  function Join(parts: seq<string>, sep: string): string {
    if |parts| == 0 then ""
    else if |parts| == 1 then parts[0]
    else parts[0] + sep + Join(parts[1..], sep)
  }

  /** The object that an object literal becomes once serialised: `JSON.stringify`
      leaves out the properties whose value is undefined. */
  function Wire(fields: map<string, Json>): (o: Json)
    ensures o.Obj?
    ensures forall key :: Prop(o, key) == (if key in fields then fields[key] else Undefined)
  {
    Obj(map key | key in fields && !fields[key].Undefined? :: fields[key])
  }

  /** `{ error: message }` */
  function ErrorBody(message: string): Json {
    Obj(map["error" := Str(message)])
  }
}
