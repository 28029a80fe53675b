/**
 * The JavaScript values that reach the models from request data, the
 * `ToString` conversion `parseInt` applies first, and property reads on
 * plain objects.
 */
module JsValues {
  import opened JsNumber

  const MAX_SAFE_INTEGER := 9_007_199_254_740_991

  /** Integral Numbers that a double holds exactly; their `toString` is plain decimal. */
  type SafeInteger = n: int | -MAX_SAFE_INTEGER <= n <= MAX_SAFE_INTEGER

  /**
   * A JavaScript value: `Other` is any object, array or date, given by the
   * string its `ToString` conversion produces.
   */
  datatype Value =
    | Undefined
    | Null
    | Bool(b: bool)
    | Num(n: SafeInteger)
    | Str(s: string)
    | Other(text: string)

  /** A plain object, as its own enumerable properties. */
  type Object = map<string, Value>

  /** `obj[key]`: a missing property reads as `undefined`. */
  function Get(obj: Object, key: string): Value {
    if key in obj then obj[key] else Undefined
  }

  /** The abstract operation `ToString` of ECMA-262 on the modelled values. */
  function ToString(v: Value): string {
    match v
    case Undefined => "undefined"
    case Null => "null"
    case Bool(b) => if b then "true" else "false"
    case Num(n) => IntToDecimal(n)
    case Str(s) => s
    case Other(text) => text
  }

  /** `parseInt(v, 10)`: the value is converted to a string first. */
  function ParseIntOf(v: Value): ParsedNumber {
    ParseInt(ToString(v))
  }

  /** A string of decimal digits parses to its decimal value. */
  lemma ParseIntOfDigits(ds: string)
    requires |ds| > 0 && AllDigits(ds)
    ensures ParseIntOf(Str(ds)) == Int(DecimalValue(ds))
  {
    ParseIntOfSignedDigits("", ds);
    assert "" + ds == ds;
  }

  /** A Number already integral parses to itself. */
  lemma ParseIntOfNumber(n: SafeInteger)
    ensures ParseIntOf(Num(n)) == Int(n)
  {
    ParseIntOfDecimal(n);
  }

  /** `undefined`, `null` and the booleans convert to words, which parse to `NaN`. */
  lemma ParseIntOfNonNumeric(v: Value)
    requires v.Undefined? || v.Null? || v.Bool?
    ensures ParseIntOf(v) == NaN
  {
    var t := ToString(v);
    assert t[0] in "untf";
    assert "" + ("" + t) == t;
    ParseOptionalSign("", "", t);
  }
}
