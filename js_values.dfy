/**
 * The JavaScript values the dashboard passes around untyped: decoded response
 * bodies, request payloads, and thrown objects. Numbers are integers here.
 */
module JsValues {
  import opened JsStrings

  datatype Value =
    | Undefined
    | Null
    | Bool(b: bool)
    | Num(n: int)
    | Str(s: string)
    | Arr(items: seq<Value>)
    | Obj(fields: map<string, Value>)
      /** an `Error` instance (or subclass) that is not an `ApiError` */
    | ErrorObject(name: string, message: string)

  /** JavaScript truthiness: `undefined`, `null`, `false`, `0` and `""` are falsy. */
  predicate Truthy(v: Value) {
    match v
    case Undefined => false
    case Null => false
    case Bool(b) => b
    case Num(n) => n != 0
    case Str(s) => s != ""
    case _ => true
  }

  /** `a || b`: the first operand when it is truthy, otherwise the second. */
  function Or(a: Value, b: Value): Value {
    if Truthy(a) then a else b
  }

  /** A property read `v.name` on a value that is neither `null` nor `undefined`.
      Only own fields of plain objects are seen; the property names this model
      reads exist on no primitive, array or error prototype. */
  function Prop(v: Value, name: string): Value {
    if v.Obj? && name in v.fields then v.fields[name] else Undefined
  }

  /** `v == null`, i.e. `v` is `null` or `undefined`; reading a property of it throws. */
  predicate IsNullish(v: Value) {
    v.Undefined? || v.Null?
  }

  /** `String(v)` for a defined `v`, which is what `new Error(message)` keeps
      as the message: a primitive prints as JavaScript prints it, an array
      joins its elements with commas (a nullish element printing as nothing),
      a plain object prints as `[object Object]`, and an error as
      `name: message`. */
  function ToJsString(v: Value): (r: string)
    ensures v.Str? ==> r == v.s
    ensures v.Num? ==> |r| >= 1 && (if r[0] == '-' then |r| >= 2 && AllDigits(r[1..]) else AllDigits(r))
    ensures v.Num? ==> ParseInt(r) == v.n
    ensures v.Bool? ==> r == (if v.b then "true" else "false")
    ensures v.Null? ==> r == "null"
    ensures v.Obj? ==> r == "[object Object]"
    ensures v.Arr? && |v.items| == 1 && !IsNullish(v.items[0]) ==> r == ToJsString(v.items[0])
    decreases v
  {
    match v
    case Undefined => "undefined"
    case Null => "null"
    case Bool(b) => if b then "true" else "false"
    case Num(n) => IntToStringRoundTrip(n); IntToString(n)
    case Str(s) => s
    case Arr(items) =>
      JoinWithCommas(seq(|items|, i requires 0 <= i < |items| =>
        if IsNullish(items[i]) then "" else ToJsString(items[i])))
    case Obj(_) => "[object Object]"
    case ErrorObject(name, message) =>
      if name == "" then message else if message == "" then name else name + ": " + message
  }

  /** `Array.prototype.join` with the default `,` separator. */
  function JoinWithCommas(parts: seq<string>): (r: string)
    ensures |parts| == 1 ==> r == parts[0]
    ensures |r| >= |parts| - 1
  {
    if |parts| == 0 then ""
    else if |parts| == 1 then parts[0]
    else parts[0] + "," + JoinWithCommas(parts[1..])
  }

  /** An optional-chaining read `v?.name`. */
  function OptionalProp(v: Value, name: string): Value {
    if IsNullish(v) then Undefined else Prop(v, name)
  }
}
