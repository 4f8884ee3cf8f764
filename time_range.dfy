/** The time-range picker (app/components/TimeRangeSelect.tsx): its custom
    minutes box and popover state, the submit check, the dispatch of a
    chosen item and the label of the current value. The selected value is
    the parent's: a handler returns the call it makes to `onChange`, if any. */
module TimeRange {
  import opened Wrappers
  import opened JsNumbers
  import opened JsNumberFacts

  /** Whether a handler calls the parent's `onChange`, and with what: the
      argument is a `parseInt` result, `None` standing for NaN. */
  datatype OnChange = NoCall | Call(minutes: Option<int>)

  /** What the submit button accepts: `parseInt` of the text when that is a
      number greater than 0. */
  function AcceptedMinutes(text: string): Option<int> {
    match ParseInt(text)
    case Some(m) => if m > 0 then Some(m) else None
    case None => None
  }

  /** `getDisplayValue()` for the current value. */
  function DisplayValue(value: int): string {
    if value == 30 then "近30分钟"
    else if value == 60 then "近1小时"
    else if value == 120 then "近2小时"
    else "近" + Decimal(value) + "分钟"
  }

  /** The `customMinutes` and `isCustomOpen` state of the picker. */
  class TimeRangePicker {
    var customMinutes: string
    var isCustomOpen: bool

    constructor()
      ensures customMinutes == "" && !isCustomOpen
    {
      customMinutes := "";
      isCustomOpen := false;
    }

    /** The minutes box's `onChange`. */
    method SetCustomMinutes(text: string)
      modifies this
      ensures customMinutes == text && isCustomOpen == old(isCustomOpen)
    {
      customMinutes := text;
    }

    /** The popover's `onOpenChange`. */
    method SetIsCustomOpen(open: bool)
      modifies this
      ensures isCustomOpen == open && customMinutes == old(customMinutes)
    {
      isCustomOpen := open;
    }

    /** `handleCustomSubmit`: a positive integer reading of the box is passed
        on and closes the popover; anything else changes nothing. */
    method HandleCustomSubmit() returns (changed: OnChange)
      modifies this
      ensures changed.Call? <==> AcceptedMinutes(old(customMinutes)).Some?
      ensures changed.Call? ==> changed.minutes == AcceptedMinutes(old(customMinutes))
      ensures isCustomOpen == (if changed.Call? then false else old(isCustomOpen))
      ensures customMinutes == old(customMinutes)
    {
      var minutes := ParseInt(customMinutes);
      if minutes.Some? && minutes.value > 0 {
        changed := Call(Some(minutes.value));
        isCustomOpen := false;
      } else {
        changed := NoCall;
      }
    }

    /** The select's `onValueChange`: "custom" opens the popover and reports
        nothing; any other value (the select offers "30", "60" and "120")
        is passed on read by `parseInt`, NaN included. */
    method OnValueChange(val: string) returns (changed: OnChange)
      modifies this
      ensures val == "custom" ==> changed == NoCall && isCustomOpen
      ensures val != "custom" ==> changed == Call(ParseInt(val)) && isCustomOpen == old(isCustomOpen)
      ensures val == "30" ==> changed == Call(Some(30))
      ensures val == "60" ==> changed == Call(Some(60))
      ensures val == "120" ==> changed == Call(Some(120))
      ensures customMinutes == old(customMinutes)
    {
      if val == "custom" {
        isCustomOpen := true;
        changed := NoCall;
      } else {
        changed := Call(ParseInt(val));
        ItemThirtyParses();
        ItemSixtyParses();
        ItemHundredTwentyParses();
      }
    }
  }

  // ----- facts -----

  /** Whatever is accepted is a positive whole number. */
  lemma AcceptedIsPositive(text: string)
    ensures AcceptedMinutes(text).Some? ==> AcceptedMinutes(text).value > 0
    ensures AcceptedMinutes(text).Some? <==> ParseInt(text).Some? && ParseInt(text).value > 0
  {
  }

  /** Typing the decimal numeral of a positive `n` submits `n`; typing that of
      0 or a negative number is refused. */
  lemma DecimalSubmits(n: int)
    ensures AcceptedMinutes(Decimal(n)) == if n > 0 then Some(n) else None
  {
    ParseIntDecimal(n);
  }

  /** An empty or blank box is refused. */
  lemma BlankRefused(text: string)
    requires forall i :: 0 <= i < |text| ==> IsJsWhitespace(text[i])
    ensures AcceptedMinutes(text) == None
  {
    BlankIsNaN(text);
  }

  lemma {:induction false} NatDigitsLead(n: nat)
    requires n > 0
    ensures NatDigits(n)[0] != '0'
    decreases n
  {
    if n >= 10 {
      NatDigitsLead(n / 10);
    }
  }

  /** `parseInt` reads only the leading integer: a positive numeral followed
      by anything that is not a digit submits that numeral's value. From the
      number box, "1.5" and "1e3" submit 1 and "90.9" submits 90. */
  lemma LeadingNumeralSubmits(n: int, rest: string)
    requires n > 0 && (rest == [] || !IsDigit(rest[0], 10))
    ensures AcceptedMinutes(Decimal(n) + rest) == Some(n)
  {
    assert Decimal(n) == NatDigits(n);
    NatDigitsLead(n);
    ParseIntOfNumeral(NatDigits(n), rest);
  }

  /** The number items report their own value. */
  lemma ItemThirtyParses()
    ensures ParseInt("30") == Some(30)
  {
    ParsesAsDecimal(30, "30");
  }

  lemma ItemSixtyParses()
    ensures ParseInt("60") == Some(60)
  {
    ParsesAsDecimal(60, "60");
  }

  lemma ItemHundredTwentyParses()
    ensures ParseInt("120") == Some(120)
  {
    ParsesAsDecimal(120, "120");
  }

  lemma ParsesAsDecimal(n: int, s: string)
    requires Decimal(n) == s
    ensures ParseInt(s) == Some(n)
  {
    ParseIntDecimal(n);
  }

  /** 60 and 120 read in hours; every other value, 30 included, reads
      `近{value}分钟`. */
  lemma DisplayValueSpec(value: int)
    ensures value == 60 ==> DisplayValue(value) == "近1小时"
    ensures value == 120 ==> DisplayValue(value) == "近2小时"
    ensures value != 60 && value != 120 ==> DisplayValue(value) == "近" + Decimal(value) + "分钟"
  {
    if value == 30 {
      assert Decimal(30) == "30";
    }
  }

  /** Different values never share a label. */
  lemma DisplayValueInjective(a: int, b: int)
    requires DisplayValue(a) == DisplayValue(b)
    ensures a == b
  {
    DisplayValueSpec(a);
    DisplayValueSpec(b);
    var la, lb := DisplayValue(a), DisplayValue(b);
    if a != 60 && a != 120 && b != 60 && b != 120 {
      assert Decimal(a) == la[1..|la| - 2];
      assert Decimal(b) == lb[1..|lb| - 2];
      ParseIntDecimal(a);
      ParseIntDecimal(b);
    } else if a == 60 || a == 120 || b == 60 || b == 120 {
      assert la[|la| - 1] == lb[|lb| - 1];
    }
  }
}
