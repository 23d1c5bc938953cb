/**
 * The untyped payload a partner posts: a JavaScript value as JSON parsing produces
 * it, plus the non-finite numbers the validators test for (`isNaN`, `isFinite`).
 */
module Json {
  import opened Wrappers

  /** A JavaScript number: a finite value, NaN or one of the two infinities. */
  datatype Num = Finite(value: real) | NaN | PosInf | NegInf

  datatype Json =
    | JNull
    | JBool(b: bool)
    | JNum(n: Num)
    | JStr(s: string)
    | JArray(items: seq<Json>)
    | JObject(keys: seq<string>, props: map<string, Json>)  // property names in insertion order, and their values

  /** `typeof v === 'object'` for a value that is not null. */
  predicate IsObjectLike(v: Json)
  {
    v.JArray? || v.JObject?
  }

  /** JavaScript truthiness of a property value; `None` is `undefined`. */
  predicate Truthy(v: Option<Json>)
  {
    match v
    case None => false
    case Some(j) =>
      match j
      case JNull => false
      case JBool(b) => b
      case JNum(n) => !(n.NaN? || (n.Finite? && n.value == 0.0))
      case JStr(s) => s != ""
      case JArray(_) => true
      case JObject(_, _) => true
  }

  /** `undefined` or `null`. */
  predicate IsNullish(v: Option<Json>)
  {
    v.None? || v.value.JNull?
  }

  /** `typeof v === 'number' && !isNaN(v) && isFinite(v)`. */
  predicate IsFiniteNumber(v: Json)
  {
    v.JNum? && v.n.Finite?
  }

  /** `Number.isInteger(x)` for a finite x. */
  predicate IsInteger(x: real)
  {
    x.Floor as real == x
  }

  /**
   * Property read `v.key`. JSON parsing keeps the last of duplicate names, so an
   * object's properties form a map; arrays have none of the payload's field names,
   * so reading one gives `undefined`.
   */
  function Get(v: Json, key: string): Option<Json>
  {
    if v.JObject? && key in v.props then Some(v.props[key]) else None
  }

  /** The characters `String.prototype.trim` removes: WhiteSpace and LineTerminator. */
  predicate IsJsWhitespace(c: char)
  {
    var n := c as int;
    n == 0x09 || n == 0x0A || n == 0x0B || n == 0x0C || n == 0x0D || n == 0x20
    || n == 0xA0 || n == 0x1680 || (0x2000 <= n <= 0x200A)
    || n == 0x2028 || n == 0x2029 || n == 0x202F || n == 0x205F || n == 0x3000 || n == 0xFEFF
  }

  /** `s.trim() === ''`. */
  predicate IsBlank(s: string)
  {
    forall i :: 0 <= i < |s| ==> IsJsWhitespace(s[i])
  }
}
