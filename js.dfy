/** JavaScript runtime values as the modelled code sees them: UTF-16 strings,
    JSON-like values with JS truthiness and property access, and thrown values. */
module Js {

  /** One UTF-16 code unit. JavaScript strings, and regular expressions without
      the `u` flag, work on these rather than on Unicode scalar values. */
  newtype CodeUnit = u: int | 0 <= u < 0x1_0000

  /** A JavaScript string. */
  type JsString = seq<CodeUnit>

  /** A byte of a Node `Buffer` / `ArrayBuffer`. */
  newtype Byte = b: int | 0 <= b < 0x100

  type Bytes = seq<Byte>

  /** The code units of a Dafny string literal (every literal used here is ASCII). */
  function Ascii(s: string): (r: JsString)
    ensures |r| == |s|
  {
    seq(|s|, i requires 0 <= i < |s| => (s[i] as int % 0x1_0000) as CodeUnit)
  }

  /** A value as produced by `JSON.parse` or `express.json()`, plus `undefined`. */
  datatype JsValue =
    | Undefined
    | Null
    | Bool(b: bool)
    | Number(n: real)
    | Str(s: JsString)
    | Arr(items: seq<JsValue>)
    | Obj(props: map<JsString, JsValue>)

  /** JavaScript truthiness. `JSON.parse` never yields NaN, so the only falsy
      number is zero. */
  predicate Truthy(v: JsValue) {
    match v
    case Undefined => false
    case Null => false
    case Bool(b) => b
    case Number(n) => n != 0.0
    case Str(s) => s != []
    case Arr(_) => true
    case Obj(_) => true
  }

  /** `v.key`, or `v?.key`: a missing own property, a property of a primitive,
      and a property of `null`/`undefined` under optional chaining all read as
      `undefined`. None of the keys read by the modelled code names a property
      of a primitive or of an array (such as `length`). */
  function Prop(v: JsValue, key: JsString): (r: JsValue)
    ensures r != Undefined ==> v.Obj? && key in v.props && r == v.props[key]
    ensures v.Obj? && key in v.props ==> r == v.props[key]
  {
    if v.Obj? && key in v.props then v.props[key] else Undefined
  }

  /** `v?.[0]`: the first element of an array, the property "0" of an object.
      The first character of a string is not modelled: every use here reads a
      further property of the element, which is `undefined` on a string. */
  function First(v: JsValue): (r: JsValue)
    ensures v.Arr? && v.items != [] ==> r == v.items[0]
    ensures !v.Arr? && !v.Obj? ==> r == Undefined
  {
    match v
    case Arr(items) => if items == [] then Undefined else items[0]
    case Obj(_) => Prop(v, Ascii("0"))
    case _ => Undefined
  }

  /** What a `throw` hands to `catch`: an `Error` (with its message) or some
      other value. */
  datatype Thrown = ErrorObject(message: JsString) | NonError

  /** A rejected promise or a resolved value. */
  datatype Result<T> = Ok(value: T) | Err(error: Thrown)

  datatype Option<T> = None | Some(value: T)

  /** `x || fallback` for an environment variable (`undefined` or a string). */
  function OrDefault(env: Option<JsString>, fallback: JsString): (r: JsString)
    ensures env.Some? && env.value != [] ==> r == env.value
    ensures env.None? || env.value == [] ==> r == fallback
  {
    if env.Some? && env.value != [] then env.value else fallback
  }

  /** An environment variable is set in the sense of `if (!process.env.X)`. */
  predicate IsSet(env: Option<JsString>) {
    env.Some? && env.value != []
  }

  /** A one-property object literal `{ key: value }`. */
  function Single(key: JsString, value: JsValue): (r: JsValue)
    ensures r.Obj? && r.props.Keys == {key} && Prop(r, key) == value
  {
    Obj(map[key := value])
  }

  // ---------------------------------------------------------------------------
  // Decimal rendering of non-negative integers (`n.toString()`)
  // ---------------------------------------------------------------------------

  predicate IsDigitUnit(c: CodeUnit) { 48 <= c <= 57 }

  /** `n.toString()` for a non-negative integer below 10^21, which every byte
      length is: decimal digits, no leading zero. */
  function DecimalString(n: nat): (r: JsString)
    ensures r != [] && forall i :: 0 <= i < |r| ==> IsDigitUnit(r[i])
    ensures |r| > 1 ==> r[0] != 48
  {
    if n < 10 then [(48 + n) as CodeUnit] else DecimalString(n / 10) + [(48 + n % 10) as CodeUnit]
  }

  /** The value of a non-empty run of decimal digits. */
  function DecimalValue(s: JsString): (r: Option<nat>)
    ensures r.Some? ==> s != []
  {
    if s == [] || !IsDigitUnit(s[|s| - 1]) then None
    else if |s| == 1 then Some(s[0] as int - 48)
    else match DecimalValue(s[..|s| - 1])
      case None => None
      case Some(v) => Some(10 * v + (s[|s| - 1] as int - 48))
  }

  /** Reading a rendered number gives the number back. */
  lemma {:induction false} DecimalRoundTrip(n: nat)
    ensures DecimalValue(DecimalString(n)) == Some(n)
  {
    if n >= 10 {
      DecimalRoundTrip(n / 10);
      var s := DecimalString(n);
      assert s[..|s| - 1] == DecimalString(n / 10);
    }
  }
}
