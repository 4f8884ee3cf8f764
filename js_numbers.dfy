/** The JavaScript number conversions and comparisons that the dashboard's
    decisions go through: `parseInt` (time ranges), `parseFloat` (filter
    thresholds), the decimal rendering of an integer in a template string,
    and `>=` between a possibly-undefined property and a parsed number.
    Numbers are exact reals: binary floating point rounding is not modelled. */
module JsNumbers {
  import opened Wrappers

  /** A JavaScript number as far as comparisons are concerned. */
  datatype JsNum = Finite(x: real) | PosInf | NegInf | NaN

  /** JavaScript `v >= t` where `v` is a property that may be `undefined`:
      `undefined` converts to NaN, and every comparison with NaN is false. */
  predicate AtLeast(v: Option<real>, t: JsNum) {
    match v
    case None => false
    case Some(x) =>
      match t
      case Finite(y) => x >= y
      case PosInf => false
      case NegInf => true
      case NaN => false
  }

  /** The characters `parseInt` and `parseFloat` skip at the start of their
      argument: ECMAScript's white space and line terminators. */
  predicate IsJsWhitespace(c: char) {
    || c == '\t' || c == '\n' || c == '\U{B}' || c == '\U{C}' || c == '\r'
    || c == ' ' || c == '\U{A0}' || c == '\U{1680}'
    || ('\U{2000}' <= c <= '\U{200A}')
    || c == '\U{2028}' || c == '\U{2029}' || c == '\U{202F}' || c == '\U{205F}'
    || c == '\U{3000}' || c == '\U{FEFF}'
  }

  /** The string without its leading white space. */
  function TrimStart(s: string): (r: string)
    ensures |r| <= |s| && r == s[|s| - |r|..]
    ensures forall i :: 0 <= i < |s| - |r| ==> IsJsWhitespace(s[i])
    ensures r == [] || !IsJsWhitespace(r[0])
  {
    if s != [] && IsJsWhitespace(s[0]) then TrimStart(s[1..]) else s
  }

  /** The value of a digit character in bases up to 36; 36 for anything else. */
  function DigitValue(c: char): nat {
    if '0' <= c <= '9' then c as int - '0' as int
    else if 'a' <= c <= 'z' then c as int - 'a' as int + 10
    else if 'A' <= c <= 'Z' then c as int - 'A' as int + 10
    else 36
  }

  predicate IsDigit(c: char, radix: nat) { DigitValue(c) < radix }

  /** The longest prefix of `s` made of digits of `radix`. */
  function LeadingDigits(s: string, radix: nat): (r: string)
    ensures |r| <= |s| && r == s[..|r|]
    ensures forall i :: 0 <= i < |r| ==> IsDigit(r[i], radix)
    ensures |r| == |s| || !IsDigit(s[|r|], radix)
  {
    if s == [] || !IsDigit(s[0], radix) then ""
    else [s[0]] + LeadingDigits(s[1..], radix)
  }

  /** The number a digit string denotes in base `radix`, most significant digit first. */
  function DigitsValue(ds: string, radix: nat): nat {
    if ds == [] then 0
    else DigitsValue(ds[..|ds| - 1], radix) * radix + DigitValue(ds[|ds| - 1])
  }

  /** Whether a (trimmed) numeral starts with a minus sign, and what follows
      its one optional sign character. */
  function Unsigned(t: string): (r: (bool, string))
    ensures r.0 <==> |t| > 0 && t[0] == '-'
    ensures r.1 == if |t| > 0 && (t[0] == '-' || t[0] == '+') then t[1..] else t
  {
    if |t| > 0 && (t[0] == '-' || t[0] == '+') then (t[0] == '-', t[1..]) else (false, t)
  }

  function Negate(neg: bool, v: nat): int { if neg then -(v as int) else v }

  /** The magnitude `parseInt` reads after the sign: a `0x`/`0X` prefix
      selects base 16, and the longest run of digits that follows is the
      value; no digit at all gives `None`. */
  function ParseIntMagnitude(u: string): Option<nat> {
    var hex := |u| >= 2 && u[0] == '0' && (u[1] == 'x' || u[1] == 'X');
    var radix := if hex then 16 else 10;
    var ds := LeadingDigits(if hex then u[2..] else u, radix);
    if |ds| == 0 then None else Some(DigitsValue(ds, radix))
  }

  /** `parseInt(s)` with no radix argument: leading white space is skipped,
      one sign is read, then the magnitude; NaN is `None`. */
  function ParseInt(s: string): Option<int> {
    var t := Unsigned(TrimStart(s));
    match ParseIntMagnitude(t.1)
    case None => None
    case Some(v) => Some(Negate(t.0, v))
  }

  function Pow10(n: nat): (r: real)
    ensures r >= 1.0
  {
    if n == 0 then 1.0 else 10.0 * Pow10(n - 1)
  }

  /** 10 raised to an integer exponent. */
  function Scale(e: int): (r: real)
    ensures r > 0.0
  {
    if e >= 0 then Pow10(e) else 1.0 / Pow10(-e)
  }

  /** The exponent of a decimal literal's tail: `e` or `E`, an optional
      sign and at least one digit; anything else is no exponent (0). */
  function ExponentOf(s: string): int {
    if |s| >= 1 && (s[0] == 'e' || s[0] == 'E') then
      var neg := |s| >= 2 && s[1] == '-';
      var ds := LeadingDigits(if |s| >= 2 && (s[1] == '-' || s[1] == '+') then s[2..] else s[1..], 10);
      if |ds| == 0 then 0 else if neg then -(DigitsValue(ds, 10) as int) else DigitsValue(ds, 10)
    else 0
  }

  /** The magnitude `parseFloat` reads after the sign: `Infinity`, or the
      longest decimal literal prefix (digits, an optional fraction, an
      optional exponent); a prefix with no digit in it gives NaN. */
  function ParseFloatMagnitude(u: string): JsNum {
    if StartsWithInfinity(u) then PosInf
    else
      var ip := LeadingDigits(u, 10);
      var fp := FractionDigits(u[|ip|..]);
      if |ip| + |fp| == 0 then NaN
      else Finite(LiteralValue(ip + fp, |fp|, ExponentOf(AfterFraction(u[|ip|..]))))
  }

  /** The digits after a leading decimal point, if there is one. */
  function FractionDigits(rest: string): (r: string)
    ensures |r| < |rest| || r == ""
  {
    if |rest| > 0 && rest[0] == '.' then LeadingDigits(rest[1..], 10) else ""
  }

  /** What follows the optional fraction: the place an exponent may stand. */
  function AfterFraction(rest: string): string {
    if |rest| > 0 && rest[0] == '.' then rest[1 + |FractionDigits(rest)|..] else rest
  }

  predicate StartsWithInfinity(u: string) { |u| >= 8 && u[..8] == "Infinity" }

  /** The value of a decimal literal with digits `ds`, the last `fracDigits`
      of them after the point, and exponent `e`. */
  function LiteralValue(ds: string, fracDigits: nat, e: int): real {
    (DigitsValue(ds, 10) as real) / Pow10(fracDigits) * Scale(e)
  }

  /** `parseFloat(s)`: leading white space is skipped, one sign is read,
      then the magnitude. */
  function ParseFloat(s: string): JsNum {
    var t := Unsigned(TrimStart(s));
    ApplySign(t.0, ParseFloatMagnitude(t.1))
  }

  /** A leading minus sign negates the magnitude; NaN stays NaN. */
  function ApplySign(neg: bool, v: JsNum): JsNum {
    match v
    case Finite(x) => Finite(if neg then -x else x)
    case PosInf => if neg then NegInf else PosInf
    case other => other
  }

  function DigitChar(d: nat): (c: char)
    requires d < 10
    ensures '0' <= c <= '9' && DigitValue(c) == d
  {
    ('0' as int + d) as char
  }

  /** Every character is a decimal digit. */
  predicate AllDigits(s: string) {
    forall i :: 0 <= i < |s| ==> '0' <= s[i] <= '9'
  }

  /** The decimal digits of a natural number, as a template string prints it. */
  function NatDigits(n: nat): (r: string)
    ensures |r| >= 1
    ensures AllDigits(r)
    ensures DigitsValue(r, 10) == n
    decreases n
  {
    if n < 10 then [DigitChar(n)]
    else
      var r := NatDigits(n / 10) + [DigitChar(n % 10)];
      assert r[..|r| - 1] == NatDigits(n / 10);
      r
  }

  /** `${n}` for an integer `n` below 10^21 in magnitude, where JavaScript
      writes every decimal digit; from 10^21 it switches to exponent form,
      which is not modelled. */
  function Decimal(n: int): (r: string)
    ensures |r| >= 1 && (r[0] == '-' || '0' <= r[0] <= '9')
  {
    if n < 0 then "-" + NatDigits(-n) else NatDigits(n)
  }
}
