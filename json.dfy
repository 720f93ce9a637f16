/** Values of the parsed JSON request body, with JavaScript's truthiness and
    string conversion, which the booking handler and the form both rely on. */
module Json {

  datatype Option<+T> = None | Some(value: T)

  /** A property value of a JSON object as JavaScript sees it after parsing.
      `Missing` is `undefined`: what destructuring yields for an absent key. */
  datatype JsonValue = Missing | Null | Bool(b: bool) | Num(n: int) | Str(s: string)

  /** JavaScript truthiness: `!v` is true exactly when this is false. */
  predicate Truthy(v: JsonValue)
  {
    match v
    case Missing => false
    case Null => false
    case Bool(b) => b
    case Num(n) => n != 0
    case Str(s) => s != ""
  }

  /** Reading `obj.key` (or destructuring it) from a JSON object. */
  function Lookup(obj: map<string, JsonValue>, key: string): JsonValue
  {
    if key in obj then obj[key] else Missing
  }

  /** `String(d)` for a decimal digit. */
  function DigitChar(d: nat): (c: char)
    requires d < 10
    ensures '0' <= c <= '9'
  {
    ['0', '1', '2', '3', '4', '5', '6', '7', '8', '9'][d]
  }

  /** The decimal digits of a natural number, most significant first. */
  function Digits(n: nat): (r: string)
    ensures |r| > 0
    ensures forall i :: 0 <= i < |r| ==> '0' <= r[i] <= '9'
  {
    if n < 10 then [DigitChar(n)] else Digits(n / 10) + [DigitChar(n % 10)]
  }

  /** The value of a string of decimal digits; the inverse of `Digits`. */
  function DigitsValue(s: string): nat
  {
    if s == [] then 0
    else 10 * DigitsValue(s[..|s| - 1]) + (if '0' <= s[|s| - 1] <= '9' then s[|s| - 1] as int - '0' as int else 0)
  }

  lemma {:induction false} DigitsRoundTrip(n: nat)
    ensures DigitsValue(Digits(n)) == n
  {
    var r := Digits(n);
    if n < 10 {
      assert r == [DigitChar(n)];
      assert r[..0] == [];
    } else {
      DigitsRoundTrip(n / 10);
      assert r[..|r| - 1] == Digits(n / 10);
    }
  }

  /** `String(n)` for an integer number: an optional minus sign and the digits. */
  function DecimalText(n: int): string
  {
    if n < 0 then "-" + Digits(-n) else Digits(n)
  }

  /** What a template literal `${v}` (or `String(v)`) makes of a value. */
  function Text(v: JsonValue): string
  {
    match v
    case Missing => "undefined"
    case Null => "null"
    case Bool(b) => if b then "true" else "false"
    case Num(n) => DecimalText(n)
    case Str(s) => s
  }

  /** Interpolating a value that is not the empty string never yields the
      empty string; in particular every truthy value prints as something. */
  lemma TextNonEmpty(v: JsonValue)
    requires v != Str("")
    ensures Text(v) != ""
  {
  }
}
