/**
 * The JSON values that flow through the scripts and the front end, with the
 * conversions the source applies to them: JavaScript truthiness and string
 * conversion, and Python's `str()`.
 */
module Values {
  import opened Base
  import opened Text
  import Assoc

  /**
   * A parsed JSON value. Integer literals are Python `int`s; any other number
   * literal is kept as its text (`ijson` turns it into a `Decimal`). Objects
   * keep their keys in document order.
   */
  datatype Json =
    | JNull
    | JBool(b: bool)
    | JInt(i: int)
    | JDecimal(text: string)
    | JStr(s: string)
    | JArr(items: seq<Json>)
    | JObj(fields: seq<(string, Json)>)

  /**
   * `value.key` in JavaScript, `value.get(key)` on a Python dict: the field
   * when `v` is an object that has it, absent (`undefined`) otherwise.
   */
  function Field(v: Json, key: string): (r: Option<Json>)
    ensures !v.JObj? ==> r == None
    ensures v.JObj? ==> r == Assoc.Get(v.fields, key)
  {
    if v.JObj? then Assoc.Get(v.fields, key) else None
  }

  /** The items of an array value; nothing for any other value. */
  function ListItems(v: Option<Json>): seq<Json> {
    if v.Some? && v.value.JArr? then v.value.items else []
  }

  /** A decimal literal whose digits before any exponent are all zero denotes zero. */
  predicate DecimalIsZero(text: string) {
    if text == [] then true
    else if text[0] == 'e' || text[0] == 'E' then true
    else if '1' <= text[0] <= '9' then false
    else DecimalIsZero(text[1..])
  }

  /** The length of the run of ASCII digits at the front of `s`. */
  function DigitRun(s: string): (n: nat)
    ensures n <= |s|
    ensures forall i :: 0 <= i < n ==> '0' <= s[i] <= '9'
    ensures n < |s| ==> !('0' <= s[n] <= '9')
  {
    if s != [] && '0' <= s[0] <= '9' then 1 + DigitRun(s[1..]) else 0
  }

  /** The leading digits of `s`. */
  function LeadingDigits(s: string): (r: string)
    ensures AllDigits(r)
  {
    s[..DigitRun(s)]
  }

  /** Ten to the power `e`, negative powers included. */
  function Pow10(e: int): (r: real)
    ensures r > 0.0
    decreases if e >= 0 then e else -e
  {
    if e == 0 then 1.0 else if e > 0 then 10.0 * Pow10(e - 1) else Pow10(e + 1) / 10.0
  }

  /** The exponent after `e` or `E`: an optional sign, then digits. */
  function ExponentValue(t: string): int {
    if t != [] && t[0] == '-' then -(ParseNat(LeadingDigits(t[1..])) as int)
    else if t != [] && t[0] == '+' then ParseNat(LeadingDigits(t[1..]))
    else ParseNat(LeadingDigits(t))
  }

  /**
   * The exact value a `Decimal` holds for the number literal `text`:
   * `-? digits (. digits)? ([eE] [+-]? digits)?`.
   */
  function DecimalValue(text: string): real {
    if text != [] && text[0] == '-' then -UnsignedValue(text[1..]) else UnsignedValue(text)
  }

  /** The digits before the point, then the rest of the literal. */
  function UnsignedValue(t: string): real {
    var whole := LeadingDigits(t);
    FractionValue(whole, t[|whole|..])
  }

  /** The digits after the point, if there is one, join the digits before it. */
  function FractionValue(whole: string, rest: string): real
    requires AllDigits(whole)
  {
    if rest != [] && rest[0] == '.' then
      var frac := LeadingDigits(rest[1..]);
      ScaledValue(whole + frac, |frac|, rest[1 + |frac|..])
    else ScaledValue(whole, 0, rest)
  }

  /** All the digits read as one number, scaled by the exponent less the fraction's length. */
  function ScaledValue(digits: string, fracLen: nat, after: string): real
    requires AllDigits(digits)
  {
    var exp := if after != [] && (after[0] == 'e' || after[0] == 'E') then ExponentValue(after[1..]) else 0;
    Scale(ParseNat(digits), exp - fracLen)
  }

  /** `n` times ten to the power `e`. */
  function Scale(n: nat, e: int): real {
    n as real * Pow10(e)
  }

  predicate AllDigits(s: string) {
    forall i :: 0 <= i < |s| ==> '0' <= s[i] <= '9'
  }

  /** The digit run of digits followed by a non-digit is exactly those digits. */
  lemma {:induction false} DigitRunStops(ds: string, rest: string)
    requires forall i :: 0 <= i < |ds| ==> '0' <= ds[i] <= '9'
    requires rest == [] || !('0' <= rest[0] <= '9')
    ensures DigitRun(ds + rest) == |ds|
  {
    if ds != [] {
      assert (ds + rest)[1..] == ds[1..] + rest;
      DigitRunStops(ds[1..], rest);
    }
  }

  /** The leading digits of digits followed by a non-digit are those digits. */
  lemma LeadingDigitsStop(ds: string, rest: string)
    requires AllDigits(ds) && (rest == [] || !('0' <= rest[0] <= '9'))
    ensures LeadingDigits(ds + rest) == ds
  {
    DigitRunStops(ds, rest);
    assert (ds + rest)[..|ds|] == ds;
  }

  /** After the digits before the point, a point and digits. */
  lemma FractionAfterPoint(w: string, f: string)
    requires AllDigits(w) && AllDigits(f)
    ensures FractionValue(w, "." + f) == Scale(ParseNat(w + f), -|f|)
  {
    var rest := "." + f;
    assert rest[1..] == f;
    LeadingDigitsStop(f, []);
    assert f + [] == f;
    assert rest[1 + |f|..] == [];
  }

  /** A literal with a point: the digits on both sides read as one number, scaled down by the fraction's length. */
  lemma PointLiteral(w: string, f: string)
    requires AllDigits(w) && AllDigits(f)
    ensures UnsignedValue(w + "." + f) == Scale(ParseNat(w + f), -|f|)
  {
    var t := w + "." + f;
    assert t == w + ("." + f);
    LeadingDigitsStop(w, "." + f);
    assert t[|w|..] == "." + f;
    FractionAfterPoint(w, f);
  }

  /** After the digits before the exponent, the exponent's letter and digits. */
  lemma FractionAfterExponent(w: string, e: char, x: string)
    requires AllDigits(w) && AllDigits(x) && (e == 'e' || e == 'E')
    ensures FractionValue(w, [e] + x) == Scale(ParseNat(w), ParseNat(x))
  {
    var rest := [e] + x;
    assert rest[1..] == x;
    LeadingDigitsStop(x, []);
    assert x + [] == x;
    assert ExponentValue(x) == ParseNat(x);
  }

  /** A literal with an exponent and no point: the digits scaled by ten to the exponent. */
  lemma ExponentLiteral(w: string, e: char, x: string)
    requires AllDigits(w) && AllDigits(x) && (e == 'e' || e == 'E')
    ensures UnsignedValue(w + [e] + x) == Scale(ParseNat(w), ParseNat(x))
  {
    var t := w + [e] + x;
    assert t == w + ([e] + x);
    LeadingDigitsStop(w, [e] + x);
    assert t[|w|..] == [e] + x;
    FractionAfterExponent(w, e, x);
  }

  /** A literal that opens with a digit is not negative: its value is the unsigned reading. */
  lemma UnsignedLiteral(t: string)
    requires t != [] && '0' <= t[0] <= '9'
    ensures DecimalValue(t) == UnsignedValue(t)
  {
  }

  /** Appending a digit multiplies by ten and adds the digit. */
  lemma ParseNatSnoc(ds: string, d: nat)
    requires AllDigits(ds) && d < 10
    ensures AllDigits(ds + [DigitChar(d)])
    ensures ParseNat(ds + [DigitChar(d)]) == ParseNat(ds) * 10 + d
  {
    assert (ds + [DigitChar(d)])[..|ds|] == ds;
  }

  /** Ten to the minus one divides by ten. */
  lemma ScaleDown(m: nat)
    ensures Scale(m, -1) == m as real / 10.0
  {
    assert Pow10(-1) == Pow10(0) / 10.0;
  }

  /** A whole number written with a zero fraction, as `ijson` reads `n.0`, has the value `n`. */
  lemma DecimalOfWhole(n: nat)
    ensures DecimalValue(NatToString(n) + ".0") == n as real
  {
    var ds, z := NatToString(n), [DigitChar(0)];
    var t := ds + "." + z;
    assert NatToString(n) + ".0" == t;
    ParseNatSnoc(ds, 0);
    ParseNatToString(n);
    var m := ParseNat(ds + z);
    assert m == n * 10;
    calc {
      DecimalValue(t);
      { assert t[0] == ds[0]; UnsignedLiteral(t); }
      UnsignedValue(t);
      { PointLiteral(ds, z); }
      Scale(m, -1);
      { ScaleDown(m); }
      m as real / 10.0;
      n as real;
    }
  }

  /** A literal of one digit, a point and one digit. */
  lemma OneDigitPoint(a: nat, b: nat)
    requires a < 10 && b < 10
    ensures DecimalValue([DigitChar(a), '.', DigitChar(b)]) == a as real + b as real / 10.0
  {
    var w, f := [DigitChar(a)], [DigitChar(b)];
    var t := w + "." + f;
    assert [DigitChar(a), '.', DigitChar(b)] == t;
    ParseNatSnoc([], a);
    assert [] + [DigitChar(a)] == w;
    ParseNatSnoc(w, b);
    var m := ParseNat(w + f);
    assert m == a * 10 + b;
    calc {
      DecimalValue(t);
      { UnsignedLiteral(t); }
      UnsignedValue(t);
      { PointLiteral(w, f); }
      Scale(m, -1);
      { ScaleDown(m); }
      m as real / 10.0;
      a as real + b as real / 10.0;
    }
  }

  /** The value of two literals with a fraction. */
  lemma DecimalSamples()
    ensures DecimalValue("1.5") == 1.5
    ensures DecimalValue("2.5") == 2.5
  {
    OneDigitPoint(1, 5);
    assert [DigitChar(1), '.', DigitChar(5)] == "1.5";
    OneDigitPoint(2, 5);
    assert [DigitChar(2), '.', DigitChar(5)] == "2.5";
  }

  /** JavaScript truthiness; `None` is `undefined`. */
  predicate Truthy(v: Option<Json>) {
    match v
    case None => false
    case Some(j) =>
      match j
      case JNull => false
      case JBool(b) => b
      case JInt(i) => i != 0
      case JDecimal(t) => !DecimalIsZero(t)
      case JStr(s) => s != ""
      case JArr(_) => true
      case JObj(_) => true
  }

  /**
   * JavaScript's `String(v)`, as used by template literals and property keys.
   * Arrays join their elements with commas, `null` and `undefined` elements
   * becoming empty.
   */
  function JsString(v: Option<Json>): string {
    match v
    case None => "undefined"
    case Some(j) => JsValueString(j)
  }

  function JsValueString(j: Json): string {
    match j
    case JNull => "null"
    case JBool(b) => if b then "true" else "false"
    case JInt(i) => IntToString(i)
    case JDecimal(t) => t
    case JStr(s) => s
    case JArr(items) =>
      Join(seq(|items|, k requires 0 <= k < |items| =>
        if items[k] == JNull then "" else JsValueString(items[k])), ",")
    case JObj(_) => "[object Object]"
  }

  /** Python's `repr()` of the parsed value (string quoting simplified to single quotes). */
  function PyRepr(v: Json): string {
    match v
    case JNull => "None"
    case JBool(b) => if b then "True" else "False"
    case JInt(i) => IntToString(i)
    case JDecimal(t) => "Decimal('" + t + "')"
    case JStr(s) => "'" + s + "'"
    case JArr(items) =>
      "[" + Join(seq(|items|, k requires 0 <= k < |items| => PyRepr(items[k])), ", ") + "]"
    case JObj(fields) =>
      "{" + Join(seq(|fields|, k requires 0 <= k < |fields| =>
        "'" + fields[k].0 + "': " + PyRepr(fields[k].1)), ", ") + "}"
  }

  /** Python's `str()` of the parsed value. */
  function PyStr(v: Json): (r: string)
    ensures v.JStr? ==> r == v.s
  {
    match v
    case JStr(s) => s
    case JDecimal(t) => t
    case _ => PyRepr(v)
  }

  /** The Python type name of the parsed value. */
  function PyTypeName(v: Json): string {
    match v
    case JNull => "NoneType"
    case JBool(_) => "bool"
    case JInt(_) => "int"
    case JDecimal(_) => "Decimal"
    case JStr(_) => "str"
    case JArr(_) => "list"
    case JObj(_) => "dict"
  }
}
