/**
 * The JavaScript values the adapter reads from its `options` prop, with the
 * coercions the component applies to them: truthiness (`Boolean(v)`, `if (v)`,
 * `v || d`) and string conversion (`String(v)`).
 */
module Js {
  /** A media-source descriptor, `{ src, type }`, handed to the player unchanged. */
  datatype Source = Source(src: string, mimeType: string)

  /**
   * A JSON-representable JavaScript value. Numbers are integers; arrays hold
   * source descriptors; any other object is a plain object with the default
   * `toString`, opaque and identified by its content.
   */
  datatype Value =
    | Undefined
    | Null
    | Bool(b: bool)
    | Num(n: int)
    | Str(s: string)
    | Arr(items: seq<Source>)
    | Obj(content: nat)

  /** The two values that `??` replaces. */
  predicate Nullish(v: Value) {
    v.Undefined? || v.Null?
  }

  /** `Boolean(v)`: `undefined`, `null`, `false`, `0` and `""` are falsy; every array and object is truthy. */
  predicate Truthy(v: Value) {
    match v
    case Undefined => false
    case Null => false
    case Bool(b) => b
    case Num(n) => n != 0
    case Str(s) => s != ""
    case Arr(_) => true
    case Obj(_) => true
  }

  function DigitChar(d: nat): char
    requires d < 10
  {
    "0123456789"[d]
  }

  /** Decimal text of a natural number, most significant digit first. */
  function Decimal(n: nat): (r: string)
    ensures |r| > 0
  {
    if n < 10 then [DigitChar(n)] else Decimal(n / 10) + [DigitChar(n % 10)]
  }

  const ObjectText: string := "[object Object]"

  /** `a.join(",")` of an array of `count` plain objects. */
  function JoinObjects(count: nat): (r: string)
    ensures r == "" <==> count == 0
  {
    if count == 0 then ""
    else if count == 1 then ObjectText
    else JoinObjects(count - 1) + "," + ObjectText
  }

  /** `String(v)`; a string converts to itself. */
  function ToJsString(v: Value): (r: string)
    ensures v.Str? ==> r == v.s
  {
    match v
    case Undefined => "undefined"
    case Null => "null"
    case Bool(b) => if b then "true" else "false"
    case Num(n) => if n < 0 then "-" + Decimal(-n) else Decimal(n)
    case Str(s) => s
    case Arr(items) => JoinObjects(|items|)
    case Obj(_) => ObjectText
  }

  /** `String(v)` is empty exactly for the empty string and the empty array. */
  lemma ToJsStringEmpty(v: Value)
    ensures ToJsString(v) == "" <==> v == Str("") || v == Arr([])
  {
    if v.Arr? && v.items != [] {
      assert JoinObjects(|v.items|) != "";
    }
  }

  /** The `options` prop: an object, or `null`/`undefined`. */
  datatype Options = Missing | Record(fields: map<string, Value>)

  /** `options?.[name]`: `undefined` when the prop is missing or has no such field. */
  function Get(o: Options, name: string): (v: Value)
    ensures o.Missing? ==> v.Undefined?
    ensures o.Record? && name !in o.fields ==> v.Undefined?
  {
    if o.Record? && name in o.fields then o.fields[name] else Undefined
  }
}
