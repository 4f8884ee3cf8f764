/** What the conversions of module JsNumbers do on the inputs the dashboard
    gives them: decimal renderings read back, numerals with a tail, blanks. */
module JsNumberFacts {
  import opened Wrappers
  import opened JsNumbers

  /** A string made only of decimal digits is its own longest digit prefix. */
  lemma {:induction false} AllDigitsLeading(s: string)
    requires AllDigits(s)
    ensures LeadingDigits(s, 10) == s
  {
    if s != [] {
      AllDigitsLeading(s[1..]);
      assert [s[0]] + s[1..] == s;
    }
  }

  /** A string that does not start with white space is left as it is. */
  lemma TrimStartNoBlank(s: string)
    requires s != [] && !IsJsWhitespace(s[0])
    ensures TrimStart(s) == s
  {
  }

  /** The sign and digits of a decimal rendering. */
  lemma DecimalParts(n: int)
    ensures Unsigned(TrimStart(Decimal(n))) == (n < 0, NatDigits(if n < 0 then -n else n))
  {
    var s := Decimal(n);
    TrimStartNoBlank(s);
    if n < 0 {
      assert s[1..] == NatDigits(-n);
    }
  }

  /** Reading back the decimal rendering of an integer with `parseInt` gives
      the integer. */
  lemma ParseIntDecimal(n: int)
    ensures ParseInt(Decimal(n)) == Some(n)
  {
    var m: nat := if n < 0 then -n else n;
    var d := NatDigits(m);
    DecimalParts(n);
    assert d + "" == d;
    IntMagnitudeOfNumeral(d, "");
  }

  /** A run of decimal digits followed by something that is not a digit is
      read by `parseInt` as the number the digits denote, unless it is a lone
      `0` that a following `x` turns into a hexadecimal prefix. */
  lemma IntMagnitudeOfNumeral(d: string, rest: string)
    requires |d| >= 1 && AllDigits(d)
    requires rest == [] || !IsDigit(rest[0], 10)
    requires |d| >= 2 || d[0] != '0' || rest == []
    ensures ParseIntMagnitude(d + rest) == Some(DigitsValue(d, 10))
  {
    var u := d + rest;
    var hex := |u| >= 2 && u[0] == '0' && (u[1] == 'x' || u[1] == 'X');
    assert !hex by {
      if |u| >= 2 && u[0] == '0' {
        assert |d| >= 2;
        assert u[1] == d[1];
        assert '0' <= d[1] <= '9';
      }
    }
    LeadingDigitsOfPrefix(d, rest);
    assert LeadingDigits(u, 10) == d;
  }

  /** The same read through `parseInt`, which finds nothing to skip and no sign. */
  lemma ParseIntOfNumeral(d: string, rest: string)
    requires |d| >= 1 && AllDigits(d)
    requires rest == [] || !IsDigit(rest[0], 10)
    requires |d| >= 2 || d[0] != '0' || rest == []
    ensures ParseInt(d + rest) == Some(DigitsValue(d, 10))
  {
    var u := d + rest;
    assert u[0] == d[0] && '0' <= u[0] <= '9';
    TrimStartNoBlank(u);
    assert Unsigned(u) == (false, u);
    IntMagnitudeOfNumeral(d, rest);
  }

  /** The longest digit prefix of digits followed by a non-digit is those digits. */
  lemma {:induction false} LeadingDigitsOfPrefix(d: string, rest: string)
    requires AllDigits(d)
    requires rest == [] || !IsDigit(rest[0], 10)
    ensures LeadingDigits(d + rest, 10) == d
  {
    if d != [] {
      assert (d + rest)[1..] == d[1..] + rest;
      LeadingDigitsOfPrefix(d[1..], rest);
      assert [d[0]] + d[1..] == d;
    } else {
      assert d + rest == rest;
    }
  }

  /** A plain run of decimal digits is read by `parseFloat` as the integer it denotes. */
  lemma FloatMagnitudeOfDigits(d: string)
    requires |d| >= 1 && AllDigits(d)
    ensures ParseFloatMagnitude(d) == Finite(DigitsValue(d, 10) as real)
  {
    DigitsAreNotInfinity(d);
    AllDigitsLeading(d);
    WholeLiteralMagnitude(d);
    LiteralValueInteger(d);
  }

  lemma DigitsAreNotInfinity(d: string)
    requires |d| >= 1 && '0' <= d[0] <= '9'
    ensures !StartsWithInfinity(d)
  {
  }

  /** A literal that is all integer digits has no fraction and no exponent. */
  lemma WholeLiteralMagnitude(d: string)
    requires |d| >= 1 && !StartsWithInfinity(d) && LeadingDigits(d, 10) == d
    ensures ParseFloatMagnitude(d) == Finite(LiteralValue(d, 0, 0))
  {
    assert d[|d|..] == "";
    assert FractionDigits("") == "" && AfterFraction("") == "" && ExponentOf("") == 0;
    assert d + "" == d;
  }

  lemma LiteralValueInteger(d: string)
    ensures LiteralValue(d, 0, 0) == DigitsValue(d, 10) as real
  {
    assert Pow10(0) == 1.0 && Scale(0) == 1.0;
  }

  /** Reading back the decimal rendering of an integer with `parseFloat`
      gives the same number. */
  lemma ParseFloatDecimal(n: int)
    ensures ParseFloat(Decimal(n)) == Finite(n as real)
  {
    var m: nat := if n < 0 then -n else n;
    var u := NatDigits(m);
    DecimalParts(n);
    FloatMagnitudeOfDigits(u);
    ParseFloatReads(Decimal(n), n < 0, u);
  }

  lemma ParseFloatReads(s: string, neg: bool, u: string)
    requires Unsigned(TrimStart(s)) == (neg, u)
    ensures ParseFloat(s) == ApplySign(neg, ParseFloatMagnitude(u))
  {
  }

  /** An empty or all-blank string is not a number to either parser. */
  lemma BlankIsNaN(s: string)
    requires forall i :: 0 <= i < |s| ==> IsJsWhitespace(s[i])
    ensures ParseInt(s) == None && ParseFloat(s) == NaN
  {
  }
}
