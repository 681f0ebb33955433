/**
 * The JavaScript values this program receives from `JSON.parse` and the
 * few JavaScript conversions it applies to them: truthiness, property
 * reads and string interpolation.
 */
module JsValues {
  import opened Wrappers

  /**
   * A value `JSON.parse` can return. JSON numbers are restricted to
   * integers; a missing property (`undefined`) is `None` in an `Option`.
   */
  datatype JsValue =
    | JsNull
    | JsBool(b: bool)
    | JsNumber(n: int)
    | JsString(s: string)
    | JsArray(items: seq<JsValue>)
    | JsObject(fields: map<string, JsValue>)

  /** The outcome of `JSON.parse`: it throws a SyntaxError or returns a value. */
  datatype Parsed = Malformed | Value(v: JsValue)

  /** JavaScript truthiness; `None` is `undefined`. */
  predicate Truthy(v: Option<JsValue>) {
    match v
    case None => false
    case Some(JsNull) => false
    case Some(JsBool(b)) => b
    case Some(JsNumber(n)) => n != 0
    case Some(JsString(s)) => s != ""
    case Some(_) => true
  }

  /**
   * The property read `v.key` on a value that is not null. Only objects
   * carry own properties; the keys this program reads (issue, date,
   * details, clientId, model) name no property that strings, arrays,
   * numbers, booleans or Object.prototype carry, so every other value
   * gives `undefined`.
   */
  function Field(v: JsValue, key: string): Option<JsValue>
    requires v != JsNull
  {
    if v.JsObject? && key in v.fields then Some(v.fields[key]) else None
  }

  predicate IsDigit(c: char) {
    '0' <= c <= '9'
  }

  predicate AllDigits(s: string) {
    forall i :: 0 <= i < |s| ==> IsDigit(s[i])
  }

  function DigitChar(d: nat): (c: char)
    requires d < 10
    ensures IsDigit(c) && c as int - '0' as int == d
  {
    "0123456789"[d]
  }

  /** The decimal numeral of a natural number, as `String(n)` writes it. */
  function NatToDecimal(n: nat): (s: string)
    ensures |s| > 0 && AllDigits(s)
    ensures |s| == 1 || s[0] != '0'
  {
    if n < 10 then [DigitChar(n)] else NatToDecimal(n / 10) + [DigitChar(n % 10)]
  }

  /** The value a string of decimal digits denotes. */
  function DecimalValue(s: string): nat
    requires AllDigits(s)
  {
    if s == [] then 0 else 10 * DecimalValue(s[..|s| - 1]) + (s[|s| - 1] as int - '0' as int)
  }

  /** Reading a numeral back gives the number it was written from. */
  lemma {:induction false} DecimalRoundTrip(n: nat)
    ensures DecimalValue(NatToDecimal(n)) == n
  {
    var s := NatToDecimal(n);
    if n >= 10 {
      DecimalRoundTrip(n / 10);
      assert s[..|s| - 1] == NatToDecimal(n / 10);
    }
  }

  /** A numeral has at most three digits exactly when the number is below 1000. */
  lemma {:induction false} DecimalLength(n: nat)
    ensures |NatToDecimal(n)| <= 3 <==> n < 1000
  {
    if n >= 10 {
      DecimalLength(n / 10);
      if n / 10 >= 1000 {
        DecimalAtLeastFour(n / 10);
      }
    }
  }

  lemma {:induction false} DecimalAtLeastFour(n: nat)
    requires n >= 1000
    ensures |NatToDecimal(n)| >= 4
  {
    if n / 10 >= 1000 {
      DecimalAtLeastFour(n / 10);
    } else {
      DecimalLength(n / 10);
    }
  }

  /** `String(n)` for an integer: a minus sign before the numeral of |n|. */
  function IntToDecimal(n: int): string {
    if n < 0 then "-" + NatToDecimal(-n) else NatToDecimal(n)
  }

  /**
   * `${v}` in a template literal: ToString of the value. Arrays join their
   * elements with commas, writing null elements as the empty string.
   */
  function Interpolate(v: Option<JsValue>): string {
    match v
    case None => "undefined"
    case Some(x) => Stringify(x)
  }

  function Stringify(v: JsValue): string
    decreases v, 1
  {
    match v
    case JsNull => "null"
    case JsBool(b) => if b then "true" else "false"
    case JsNumber(n) => IntToDecimal(n)
    case JsString(s) => s
    case JsArray(items) => JoinItems(items)
    case JsObject(_) => "[object Object]"
  }

  function JoinItems(items: seq<JsValue>): string
    decreases items, 0
  {
    if items == [] then ""
    else
      (if items[0] == JsNull then "" else Stringify(items[0]))
      + (if |items| == 1 then "" else "," + JoinItems(items[1..]))
  }
}
