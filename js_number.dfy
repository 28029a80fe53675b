/**
 * ECMAScript `parseInt(string, 10)` (section 19.2.5 of ECMA-262) on the string
 * it is given, and the decimal form `Number::toString` gives an integer.
 * A parsed Number is kept as its mathematical integer value.
 */
module JsNumber {

  /** What `parseInt` returns: `NaN`, or an integral Number given by its value. */
  datatype ParsedNumber = NaN | Int(value: int)

  /** LineTerminator: LF, CR, LINE SEPARATOR, PARAGRAPH SEPARATOR. */
  predicate IsLineTerminator(c: char) {
    var u := c as int;
    u == 0x0A || u == 0x0D || u == 0x2028 || u == 0x2029
  }

  /** The space separators (general category Zs) of Unicode. */
  predicate IsSpaceSeparator(c: char) {
    var u := c as int;
    u == 0x20 || u == 0xA0 || u == 0x1680 || (0x2000 <= u <= 0x200A) || u == 0x202F || u == 0x205F || u == 0x3000
  }

  /** WhiteSpace: TAB, VT, FF, ZWNBSP and the space separators. */
  predicate IsWhiteSpace(c: char) {
    var u := c as int;
    u == 0x09 || u == 0x0B || u == 0x0C || u == 0xFEFF || IsSpaceSeparator(c)
  }

  /** The code units that `TrimString(_, start)` removes. */
  predicate IsStrWhiteSpaceChar(c: char) {
    IsWhiteSpace(c) || IsLineTerminator(c)
  }

  predicate AllWhite(s: string) {
    forall i :: 0 <= i < |s| ==> IsStrWhiteSpaceChar(s[i])
  }

  /** The radix-10 digits. */
  predicate IsDecimalDigit(c: char) {
    '0' <= c <= '9'
  }

  predicate AllDigits(s: string) {
    forall i :: 0 <= i < |s| ==> IsDecimalDigit(s[i])
  }

  function DigitValue(c: char): (d: nat)
    requires IsDecimalDigit(c)
    ensures d < 10
  {
    c as int - '0' as int
  }

  function DigitChar(d: nat): (c: char)
    requires d < 10
    ensures IsDecimalDigit(c) && DigitValue(c) == d
  {
    ('0' as int + d) as char
  }

  /** The integer a string of decimal digits denotes, most significant digit first. */
  function DecimalValue(ds: string): nat
    requires AllDigits(ds)
  {
    if ds == [] then 0 else 10 * DecimalValue(ds[..|ds| - 1]) + DigitValue(ds[|ds| - 1])
  }

  /** Step 2 of `parseInt`: the string with its leading white space removed. */
  function TrimStart(s: string): (t: string)
    ensures |t| <= |s| && t == s[|s| - |t|..]
    ensures AllWhite(s[..|s| - |t|])
    ensures t == [] || !IsStrWhiteSpaceChar(t[0])
  {
    if s != [] && IsStrWhiteSpaceChar(s[0]) then TrimStart(s[1..]) else s
  }

  /** Step 11 of `parseInt` for radix 10: the length of the longest prefix of decimal digits. */
  function DigitRun(s: string): (n: nat)
    ensures n <= |s|
    ensures AllDigits(s[..n])
    ensures n < |s| ==> !IsDecimalDigit(s[n])
  {
    if s != [] && IsDecimalDigit(s[0]) then 1 + DigitRun(s[1..]) else 0
  }

  /**
   * `parseInt(s, 10)` on a string: skip leading white space, take one optional
   * sign, then the longest run of decimal digits; no digits give `NaN`.
   */
  function ParseInt(s: string): ParsedNumber {
    ParseSigned(TrimStart(s))
  }

  /** Steps 3 to 5 of `parseInt`: one optional sign, `-` making the result negative. */
  function ParseSigned(t: string): ParsedNumber {
    if t != [] && t[0] == '-' then ParseDigits(t[1..], true)
    else if t != [] && t[0] == '+' then ParseDigits(t[1..], false)
    else ParseDigits(t, false)
  }

  /** Steps 11 to 16 of `parseInt` for radix 10: the value of the leading digit run. */
  function ParseDigits(u: string, negative: bool): ParsedNumber {
    var n := DigitRun(u);
    if n == 0 then NaN
    else if negative then Int(-(DecimalValue(u[..n]) as int))
    else Int(DecimalValue(u[..n]))
  }

  /** The decimal digits of a natural number, without leading zeros. */
  function NatDigits(n: nat): (ds: string)
    ensures |ds| > 0 && AllDigits(ds)
    ensures |ds| == 1 || ds[0] != '0'
    ensures DecimalValue(ds) == n
  {
    if n < 10 then [DigitChar(n)]
    else
      var high := NatDigits(n / 10);
      var ds := high + [DigitChar(n % 10)];
      assert ds[..|ds| - 1] == high;
      ds
  }

  /** `Number::toString(x)` for an integral `x` printed without an exponent. */
  function IntToDecimal(n: int): string {
    if n < 0 then "-" + NatDigits(-n) else NatDigits(n)
  }

  /** Leading white space is skipped entirely, and nothing after it. */
  lemma {:induction false} TrimStartSkipsWhite(ws: string, x: string)
    requires AllWhite(ws)
    requires x == [] || !IsStrWhiteSpaceChar(x[0])
    ensures TrimStart(ws + x) == x
  {
    if ws == [] {
      assert ws + x == x;
    } else {
      assert (ws + x)[0] == ws[0];
      assert (ws + x)[1..] == ws[1..] + x;
      TrimStartSkipsWhite(ws[1..], x);
    }
  }

  /** The digit run of a digit string followed by a non-digit is exactly that digit string. */
  lemma {:induction false} DigitRunOf(ds: string, rest: string)
    requires AllDigits(ds)
    requires rest == [] || !IsDecimalDigit(rest[0])
    ensures DigitRun(ds + rest) == |ds|
  {
    if ds == [] {
      assert ds + rest == rest;
    } else {
      assert (ds + rest)[0] == ds[0];
      assert (ds + rest)[1..] == ds[1..] + rest;
      DigitRunOf(ds[1..], rest);
    }
  }

  /** A digit string followed by a non-digit has that digit string's value. */
  lemma ParseDigitsOf(ds: string, rest: string, negative: bool)
    requires |ds| > 0 && AllDigits(ds)
    requires rest == [] || !IsDecimalDigit(rest[0])
    ensures ParseDigits(ds + rest, negative) == Int(if negative then -(DecimalValue(ds) as int) else DecimalValue(ds))
  {
    var u := ds + rest;
    DigitRunOf(ds, rest);
    assert u[..|ds|] == ds;
    ParseDigitsOfRun(u, ds, negative);
  }

  /** Proof helper for `ParseDigitsOf`: keeps the unfolding of `ParseDigits` apart from the concatenation. */
  lemma ParseDigitsOfRun(u: string, ds: string, negative: bool)
    requires |ds| > 0 && AllDigits(ds)
    requires DigitRun(u) == |ds| && u[..|ds|] == ds
    ensures ParseDigits(u, negative) == Int(if negative then -(DecimalValue(ds) as int) else DecimalValue(ds))
  {
  }

  /**
   * What `parseInt` reads: after any white space and one optional sign, the
   * leading run of decimal digits, up to the first non-digit, gives the value.
   */
  lemma ParseIntReadsLeadingDigits(ws: string, sign: string, ds: string, rest: string)
    requires AllWhite(ws)
    requires sign == "" || sign == "+" || sign == "-"
    requires |ds| > 0 && AllDigits(ds)
    requires rest == [] || !IsDecimalDigit(rest[0])
    ensures ParseInt(ws + sign + ds + rest) == Int(if sign == "-" then -(DecimalValue(ds) as int) else DecimalValue(ds))
  {
    ParseIntUpToDigits(ws, sign, ds + rest);
    ParseDigitsOf(ds, rest, sign == "-");
    RegroupConcat(ws, sign, ds, rest);
  }

  /** White space and a sign before a digit leave the digits to `ParseDigits`. */
  lemma ParseIntUpToDigits(ws: string, sign: string, u: string)
    requires AllWhite(ws)
    requires sign == "" || sign == "+" || sign == "-"
    requires u != [] && IsDecimalDigit(u[0])
    ensures ParseInt(ws + (sign + u)) == ParseDigits(u, sign == "-")
  {
    ParseOptionalSign(ws, sign, u);
  }

  /** Proof helper: associativity of concatenation, kept out of the larger proofs it would slow down. */
  lemma RegroupConcat(a: string, b: string, c: string, d: string)
    ensures a + b + c + d == a + (b + (c + d))
  {
  }

  /** White space and then one optional sign leave the digits to `ParseDigits`. */
  lemma ParseOptionalSign(ws: string, sign: string, u: string)
    requires AllWhite(ws)
    requires sign == "" || sign == "+" || sign == "-"
    requires sign == "" && u != [] ==> !IsStrWhiteSpaceChar(u[0]) && u[0] != '+' && u[0] != '-'
    ensures ParseInt(ws + (sign + u)) == ParseDigits(u, sign == "-")
  {
    var x := sign + u;
    if sign == "" {
      assert x == u;
      TrimStartSkipsWhite(ws, x);
    } else {
      assert x[0] == sign[0] && x[1..] == u;
      assert !IsStrWhiteSpaceChar(sign[0]);
      TrimStartSkipsWhite(ws, x);
      assert TrimStart(ws + x) == x;
    }
  }

  /** With no decimal digit after the white space and the optional sign, `parseInt` gives `NaN`. */
  lemma ParseIntWithoutDigits(ws: string, sign: string, rest: string)
    requires AllWhite(ws)
    requires sign == "" || sign == "+" || sign == "-"
    requires rest == [] || !IsDecimalDigit(rest[0])
    requires sign == "" && rest != [] ==> !IsStrWhiteSpaceChar(rest[0]) && rest[0] != '+' && rest[0] != '-'
    ensures ParseInt(ws + sign + rest) == NaN
  {
    assert ws + sign + rest == ws + (sign + rest);
    ParseOptionalSign(ws, sign, rest);
  }

  /** A string of decimal digits, optionally after a sign, parses to its signed decimal value. */
  lemma ParseIntOfSignedDigits(sign: string, ds: string)
    requires sign == "" || sign == "-"
    requires |ds| > 0 && AllDigits(ds)
    ensures ParseInt(sign + ds) == Int(if sign == "-" then -(DecimalValue(ds) as int) else DecimalValue(ds))
  {
    assert "" + (sign + ds) == sign + ds;
    ParseIntUpToDigits("", sign, ds);
    assert ds + "" == ds;
    ParseDigitsOf(ds, "", sign == "-");
  }

  /** `parseInt` reads back the decimal form of every integer. */
  lemma ParseIntOfDecimal(n: int)
    ensures ParseInt(IntToDecimal(n)) == Int(n)
  {
    if n < 0 {
      ParseIntOfSignedDigits("-", NatDigits(-n));
    } else {
      ParseIntOfSignedDigits("", NatDigits(n));
      assert "" + NatDigits(n) == NatDigits(n);
    }
  }
}
