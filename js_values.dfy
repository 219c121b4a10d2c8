/** The dynamically typed values held in the client's form-state objects, with
  * the JavaScript conversions the code applies to them: truthiness (`x || d`,
  * `x ? a : b`), `Number(x)` and template interpolation (`${x}`). */
module JsValues {
  import opened Wrappers
  import Strings

  /** Integer numbers only: fractional numbers are outside the model. */
  datatype Value = Str(s: string) | Num(n: int) | NaN | Bool(b: bool)

  predicate Truthy(v: Value)
  {
    match v
    case Str(s) => s != ""
    case Num(n) => n != 0
    case NaN => false
    case Bool(b) => b
  }

  /** `v || d`. */
  function Or(v: Value, d: Value): Value
  {
    if Truthy(v) then v else d
  }

  /** `x || d` for a property that may be absent from the object. */
  function OrDefault(m: map<string, Value>, key: string, d: Value): (r: Value)
    ensures key in m && Truthy(m[key]) ==> r == m[key]
    ensures !(key in m && Truthy(m[key])) ==> r == d
  {
    if key in m && Truthy(m[key]) then m[key] else d
  }

  predicate IsDigit(c: char)
  {
    '0' <= c <= '9'
  }

  predicate AllDigits(s: string)
  {
    forall i :: 0 <= i < |s| ==> IsDigit(s[i])
  }

  /** The number a string of decimal digits denotes. */
  function DigitsValue(s: string): (n: nat)
    requires AllDigits(s)
  {
    if |s| == 0 then 0
    else DigitsValue(s[..|s| - 1]) * 10 + (s[|s| - 1] as int - '0' as int)
  }

  /** `Number(s)` for a string: surrounding white space is ignored, the empty
    * string is 0, an optionally signed run of decimal digits is its value, and
    * anything else is NaN. */
  function StringToNumber(s: string): Value
  {
    var t := Strings.Trim(s);
    if t == "" then Num(0)
    else if (t[0] == '-' || t[0] == '+') && |t| > 1 && AllDigits(t[1..]) then
      var n: int := DigitsValue(t[1..]);
      Num(if t[0] == '-' then -n else n)
    else if AllDigits(t) then Num(DigitsValue(t))
    else NaN
  }

  /** `Number(v)`. */
  function ToNumber(v: Value): Value
  {
    match v
    case Str(s) => StringToNumber(s)
    case Num(n) => v
    case NaN => v
    case Bool(b) => Num(if b then 1 else 0)
  }

  function DigitChar(d: nat): char
    requires d < 10
  {
    ('0' as int + d) as char
  }

  function NatText(n: nat): string
    decreases n
  {
    if n < 10 then [DigitChar(n)] else NatText(n / 10) + [DigitChar(n % 10)]
  }

  /** `${v}`: the text a template literal renders for `v`. */
  function Text(v: Value): string
  {
    match v
    case Str(s) => s
    case Num(n) => if n < 0 then "-" + NatText(-n) else NatText(n)
    case NaN => "NaN"
    case Bool(b) => if b then "true" else "false"
  }
}
