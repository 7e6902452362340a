/**
 * The JavaScript values that reach the query builder as untyped (`any`)
 * arguments, together with the string conversion a template literal
 * applies to them (`${value}`).
 */
module JsValues {

  /**
   * A JavaScript value. Numbers are restricted to integers; an object is
   * given by its enumerable properties in `for...in` enumeration order.
   */
  datatype Value =
    | Num(n: int)
    | Str(s: string)
    | Bool(b: bool)
    | Null
    | Undefined
    | Arr(elems: seq<Value>)
    | Obj(props: seq<(string, Value)>)

  /** One row handed to `insert`: a plain object from column name to value. */
  type Row = seq<(string, Value)>

  function DigitChar(d: nat): (c: char)
    requires d < 10
    ensures '0' <= c <= '9'
  {
    ('0' as int + d) as char
  }

  /** Decimal digits of a natural number, most significant first, without leading zeros. */
  function NatText(n: nat): (r: string)
    ensures |r| >= 1
    ensures forall i :: 0 <= i < |r| ==> '0' <= r[i] <= '9'
    ensures r[0] == '0' ==> n == 0
    decreases n
  {
    if n < 10 then [DigitChar(n)] else NatText(n / 10) + [DigitChar(n % 10)]
  }

  /** The number a string of decimal digits denotes. */
  function DigitsValue(s: string): int
  {
    if s == [] then 0 else DigitsValue(s[..|s| - 1]) * 10 + (s[|s| - 1] as int - '0' as int)
  }

  /** Reading the decimal text of a number back gives the number. */
  lemma {:induction false} NatTextRoundTrip(n: nat)
    ensures DigitsValue(NatText(n)) == n
    decreases n
  {
    if n >= 10 {
      var prefix := NatText(n / 10);
      var r := prefix + [DigitChar(n % 10)];
      assert r[..|r| - 1] == prefix;
      NatTextRoundTrip(n / 10);
    }
  }

  /** `String(n)` for an integer `n`. */
  function IntText(i: int): string
  {
    if i < 0 then "-" + NatText(-i) else NatText(i)
  }

  /** The text an array element contributes to `Array.prototype.join`. */
  function ElementText(v: Value): string
  {
    match v
    case Null => ""
    case Undefined => ""
    case _ => Text(v)
  }

  /** Joins strings with commas, as `join()` does with its default separator. */
  function JoinWithCommas(parts: seq<string>): string
  {
    if parts == [] then ""
    else if |parts| == 1 then parts[0]
    else JoinWithCommas(parts[..|parts| - 1]) + "," + parts[|parts| - 1]
  }

  /** `String(v)`: the text a template literal substitutes for `v`. */
  function Text(v: Value): string
    decreases v, 1
  {
    match v
    case Num(n) => IntText(n)
    case Str(s) => s
    case Bool(b) => if b then "true" else "false"
    case Null => "null"
    case Undefined => "undefined"
    case Arr(elems) => JoinWithCommas(seq(|elems|, i requires 0 <= i < |elems| => ElementText(elems[i])))
    case Obj(_) => "[object Object]"
  }
}
