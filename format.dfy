/** Python's text conversions of values: `str()`, `repr()` (what f-strings
    and list displays print) and `json.dumps`, and the text `str(e)` of an
    exception. */
module Format {
  import opened Python

  function DigitChar(d: int): char
    requires 0 <= d < 10
  {
    "0123456789"[d]
  }

  /** Decimal digits of a natural number. */
  function NatText(n: nat): (s: string)
    ensures |s| > 0
    decreases n
  {
    if n < 10 then [DigitChar(n)] else NatText(n / 10) + [DigitChar(n % 10)]
  }

  /** `str(i)` for an `int`. */
  function IntText(i: int): string {
    if i < 0 then "-" + NatText(-i) else NatText(i)
  }

  /** Up to `n` decimal digits of a fraction strictly between 0 and 1, stopping when it is exhausted. */
  function FractionDigits(f: real, n: nat): string
    requires 0.0 < f < 1.0
    decreases n
  {
    var d := (f * 10.0).Floor;
    var rest := f * 10.0 - d as real;
    [DigitChar(d)] + (if rest == 0.0 || n <= 1 then "" else FractionDigits(rest, n - 1))
  }

  /** `repr(x)` for a non-negative `float` in positional notation. */
  function UnsignedFloatText(r: real): string
    requires r >= 0.0
  {
    var whole := r.Floor;
    var frac := r - whole as real;
    NatText(whole) + "." + (if frac == 0.0 then "0" else FractionDigits(frac, 17))
  }

  /** `repr(x)` for a `float`: an integral value keeps a trailing ".0". */
  function FloatText(r: real): string {
    if r < 0.0 then "-" + UnsignedFloatText(-r) else UnsignedFloatText(r)
  }

  /** The parts of a list or dict display, separated by ", ". */
  function Join(parts: seq<string>): string {
    if |parts| == 0 then ""
    else if |parts| == 1 then parts[0]
    else parts[0] + ", " + Join(parts[1..])
  }

  /** `repr(v)`, which is also what a list display prints for each element. */
  function Repr(v: Json): string
    decreases v
  {
    match v
    case JNull => "None"
    case JBool(b) => if b then "True" else "False"
    case JInt(i) => IntText(i)
    case JFloat(r) => FloatText(r)
    case JString(s) => "'" + s + "'"
    case JArray(items) =>
      "[" + Join(seq(|items|, k requires 0 <= k < |items| => Repr(items[k]))) + "]"
    case JObject(members) =>
      "{" + Join(seq(|members|, k requires 0 <= k < |members| =>
                       "'" + members[k].0 + "': " + Repr(members[k].1))) + "}"
  }

  /** `str(v)`, which is what an f-string placeholder prints: a string is
      printed as it is, anything else as its `repr`. */
  function Str(v: Json): string {
    if v.JString? then v.s else Repr(v)
  }

  /** A string literal in JSON text: quote marks and backslashes are escaped. */
  function Quote(s: string): string {
    "\"" + Escape(s) + "\""
  }

  function Escape(s: string): string {
    if |s| == 0 then ""
    else (if s[0] == '"' || s[0] == '\\' then ['\\', s[0]] else [s[0]]) + Escape(s[1..])
  }

  /** `json.dumps(v)` with its default separators ", " and ": ". */
  function Dumps(v: Json): string
    decreases v
  {
    match v
    case JNull => "null"
    case JBool(b) => if b then "true" else "false"
    case JInt(i) => IntText(i)
    case JFloat(r) => FloatText(r)
    case JString(s) => Quote(s)
    case JArray(items) =>
      "[" + Join(seq(|items|, k requires 0 <= k < |items| => Dumps(items[k]))) + "]"
    case JObject(members) =>
      "{" + Join(seq(|members|, k requires 0 <= k < |members| =>
                       Quote(members[k].0) + ": " + Dumps(members[k].1))) + "}"
  }

  /** The text `f"{a} {symbol} {b} = {result}"` every math tool shows. */
  function Equation(a: Json, symbol: string, b: Json, result: Json): string {
    Str(a) + " " + symbol + " " + Str(b) + " = " + Str(result)
  }

  /** `str(e)` for an exception. */
  function Message(e: Exception): string {
    match e
    case ValueError(message) => message
    case KeyError(key) => Repr(key)
    case TypeError => "unsupported operand type(s)"
    case AttributeError => "object has no attribute 'get'"
    case IndexError => "Cannot choose from an empty sequence"
    case ZeroDivisionError => "division by zero"
    case JsonDecodeError => "Expecting value"
  }
}
