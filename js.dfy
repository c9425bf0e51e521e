/**
 * The JavaScript values a request body carries, and the handful of JavaScript and
 * driver conversions the handlers rely on: truthiness, `||`, `??`, template-literal
 * text, `Math.round(Number(x) * 100)` and the id a bound value selects.
 */
module Js {
  import opened Wrappers

  /** A JSON request value. Numbers are integers here (fractions are not modelled). */
  datatype JsVal =
    | Undefined
    | Null
    | Bool(b: bool)
    | Num(n: int)
    | Str(s: string)
    | Obj(fields: map<string, JsVal>)

  /** JavaScript truthiness: `undefined`, `null`, `false`, `0` and `''` are falsy. */
  predicate Truthy(v: JsVal) {
    match v
    case Undefined => false
    case Null => false
    case Bool(b) => b
    case Num(n) => n != 0
    case Str(s) => s != ""
    case Obj(_) => true
  }

  predicate IsNullish(v: JsVal) {
    v.Undefined? || v.Null?
  }

  /** `a || b`: the left operand when it is truthy. */
  function Or(a: JsVal, b: JsVal): JsVal {
    if Truthy(a) then a else b
  }

  /** `a ?? b`: the left operand unless it is `null` or `undefined`. */
  function Coalesce(a: JsVal, b: JsVal): JsVal {
    if IsNullish(a) then b else a
  }

  /** The two operators disagree exactly on falsy values that are not nullish (`''`, `0`, `false`). */
  lemma OrVersusCoalesce(a: JsVal, b: JsVal)
    ensures Or(a, b) != Coalesce(a, b) ==> !Truthy(a) && !IsNullish(a) && a != b
    ensures !Truthy(a) && !IsNullish(a) ==> Coalesce(a, b) == a && Or(a, b) == b
  {
  }

  // ---------------------------------------------------------------------------
  // Decimal digits

  predicate IsDigit(c: char) {
    '0' <= c <= '9'
  }

  predicate AllDigits(s: string) {
    forall i :: 0 <= i < |s| ==> IsDigit(s[i])
  }

  function DigitValue(c: char): nat
    requires IsDigit(c)
  {
    c as int - '0' as int
  }

  function DigitChar(d: nat): (c: char)
    requires d < 10
    ensures IsDigit(c) && DigitValue(c) == d
  {
    ('0' as int + d) as char
  }

  /** The value of a string of decimal digits (the empty string reads as 0). */
  function DigitsValue(s: string): nat
    requires AllDigits(s)
  {
    if s == [] then 0 else 10 * DigitsValue(s[..|s| - 1]) + DigitValue(s[|s| - 1])
  }

  /** The shortest decimal text of a natural number. */
  function Decimal(n: nat): (s: string)
    ensures |s| > 0 && AllDigits(s)
    ensures n < 10 <==> |s| == 1
  {
    if n < 10 then [DigitChar(n)] else Decimal(n / 10) + [DigitChar(n % 10)]
  }

  lemma {:induction false} DecimalRoundTrip(n: nat)
    ensures DigitsValue(Decimal(n)) == n
  {
    if n >= 10 {
      var s := Decimal(n);
      assert s[..|s| - 1] == Decimal(n / 10);
      DecimalRoundTrip(n / 10);
    }
  }

  /** `${v}` in a template literal. */
  function ToText(v: JsVal): string {
    match v
    case Undefined => "undefined"
    case Null => "null"
    case Bool(b) => if b then "true" else "false"
    case Num(n) => if n < 0 then "-" + Decimal(-n) else Decimal(n)
    case Str(s) => s
    case Obj(_) => "[object Object]"
  }

  /**
   * The row a bound value selects in `WHERE id = ?` on an unsigned integer key:
   * a non-negative number, a string of digits (leading zeros allowed), or a boolean,
   * which the driver sends as 1 or 0.
   */
  function AsId(v: JsVal): (r: Option<nat>)
    ensures r.Some? ==> v.Num? || v.Bool? || (v.Str? && v.s != "" && AllDigits(v.s))
  {
    match v
    case Bool(b) => Some(if b then 1 else 0)
    case Num(n) => if n >= 0 then Some(n) else None
    case Str(s) => if s != "" && AllDigits(s) then Some(DigitsValue(s)) else None
    case _ => None
  }

  /** A bound `true` selects row 1 and a bound `false` row 0. */
  lemma BooleanIds()
    ensures AsId(Bool(true)) == Some(1) && AsId(Bool(false)) == Some(0)
  {
  }

  /** A numeric id and its decimal text (as a route parameter carries it) select the same row. */
  lemma IdOfDecimalText(n: nat)
    ensures AsId(Str(ToText(Num(n)))) == Some(n) == AsId(Num(n))
  {
    DecimalRoundTrip(n);
  }

  // ---------------------------------------------------------------------------
  // Money: `Math.round(Number(v) * 100)`

  /** The first position of `c` in `s`. */
  function IndexOf(s: string, c: char): (i: nat)
    requires c in s
    ensures i < |s| && s[i] == c && c !in s[..i]
  {
    if s[0] == c then 0 else 1 + IndexOf(s[1..], c)
  }

  /**
   * `Math.round(Number(s) * 100)` for a decimal text with at most two fraction digits;
   * `None` stands for `NaN`. `Number('')` is 0.
   */
  function TextHundredths(s: string): (r: Option<nat>)
    ensures AllDigits(s) ==> r == Some(100 * DigitsValue(s))
  {
    if '.' !in s then
      if AllDigits(s) then Some(100 * DigitsValue(s)) else None
    else
      var i := IndexOf(s, '.');
      PointHundredths(s[..i], s[i + 1..])
  }

  /** The text around the first dot: digits on both sides, at most two after it, not both sides empty. */
  function PointHundredths(whole: string, frac: string): Option<nat> {
    if AllDigits(whole) && AllDigits(frac) && |frac| <= 2 && |whole| + |frac| > 0
    then Some(100 * DigitsValue(whole) + (if |frac| == 1 then 10 * DigitsValue(frac) else DigitsValue(frac)))
    else None
  }

  /** `Math.round(Number(v) * 100)`: a fee in rupees as a whole number of paise; `None` is `NaN`. */
  function Hundredths(v: JsVal): Option<int> {
    match v
    case Undefined => None
    case Null => Some(0)
    case Bool(b) => Some(if b then 100 else 0)
    case Num(n) => Some(100 * n)
    case Str(s) => TextHundredths(s)
    case Obj(_) => None
  }

  /** Two decimal places, as a DECIMAL(_, 2) column reads back: 49900 paise is "499.00". */
  function RupeesText(paise: nat): string {
    var cents := paise % 100;
    Decimal(paise / 100) + "." + [DigitChar(cents / 10), DigitChar(cents % 10)]
  }

  lemma {:induction false} DotAfterDigits(digits: string, rest: string)
    requires AllDigits(digits) && rest != [] && rest[0] == '.'
    ensures '.' in digits + rest && IndexOf(digits + rest, '.') == |digits|
  {
    if digits != [] {
      assert (digits + rest)[1..] == digits[1..] + rest;
      DotAfterDigits(digits[1..], rest);
    }
  }

  /** Text of the form digits, dot, rest is read through its first dot. */
  lemma DottedText(whole: string, frac: string)
    requires AllDigits(whole)
    ensures TextHundredths(whole + "." + frac) == PointHundredths(whole, frac)
  {
    var s := whole + ("." + frac);
    assert whole + "." + frac == s;
    DotAfterDigits(whole, "." + frac);
    assert s[..|whole|] == whole && s[|whole| + 1..] == frac;
    assert !AllDigits(s) by {
      assert s[|whole|] == '.';
    }
  }

  /** A digit string, a dot and two digits: the whole part in hundreds plus the two digits. */
  lemma TwoPlaceText(whole: string, frac: string)
    requires AllDigits(whole) && AllDigits(frac) && |frac| == 2
    ensures TextHundredths(whole + "." + frac) == Some(100 * DigitsValue(whole) + DigitsValue(frac))
  {
    TwoPlacePoint(whole, frac);
    DottedText(whole, frac);
  }

  lemma TwoPlacePoint(whole: string, frac: string)
    requires AllDigits(whole) && AllDigits(frac) && |frac| == 2
    ensures PointHundredths(whole, frac) == Some(100 * DigitsValue(whole) + DigitsValue(frac))
  {
  }

  lemma TwoDigitsValue(hi: nat, lo: nat)
    requires hi < 10 && lo < 10
    ensures DigitsValue([DigitChar(hi), DigitChar(lo)]) == 10 * hi + lo
  {
    var t := [DigitChar(hi), DigitChar(lo)];
    assert t[..1] == [DigitChar(hi)] && t[..1][..0] == [];
    assert DigitsValue(t[..1]) == hi;
  }

  /** Reading a two-place rupee amount back with `Math.round(Number(x) * 100)` gives the paise exactly. */
  lemma {:induction false} RupeesTextRoundTrip(paise: nat)
    ensures Hundredths(Str(RupeesText(paise))) == Some(paise)
  {
    var cents := paise % 100;
    TwoPlaceText(Decimal(paise / 100), [DigitChar(cents / 10), DigitChar(cents % 10)]);
    TwoDigitsValue(cents / 10, cents % 10);
    DecimalRoundTrip(paise / 100);
  }

  /** The fee of the worked scenario: "499.00" rupees is an order of 49900 paise. */
  lemma FeeScenario()
    ensures Hundredths(Str("499.00")) == Some(49900)
  {
    assert Decimal(4) == "4";
    assert Decimal(49) == "49";
    assert Decimal(499) == "499";
    assert RupeesText(49900) == "499.00";
    RupeesTextRoundTrip(49900);
  }
}
