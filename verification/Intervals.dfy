/** RouterOS intervals: services/aaa-service/app/routeros.py, `parse_interval` and `format_interval`. */
module Intervals {
  import opened Common
  import opened Text

  const WEEK := 604800
  const DAY := 86400
  const HOUR := 3600
  const MINUTE := 60

  function UnitSeconds(unit: char): Option<nat> {
    match unit
    case 's' => Some(1)
    case 'm' => Some(MINUTE)
    case 'h' => Some(HOUR)
    case 'd' => Some(DAY)
    case 'w' => Some(WEEK)
    case _ => None
  }

  /** Seconds denoted by one or more digits and a unit letter; None for any other text. */
  function ParseInterval(value: string): Option<nat> {
    var text := Strip(value);
    if |text| < 2 || !AllDigits(text[..|text| - 1]) then None
    else match UnitSeconds(text[|text| - 1])
      case Some(unit) => Some(unit * Numeral(text[..|text| - 1]))
      case None => None
  }

  /** Text of a number of seconds in the largest unit that divides it. */
  function FormatInterval(seconds: int): string {
    if seconds % WEEK == 0 then IntText(seconds / WEEK) + "w"
    else if seconds % DAY == 0 then IntText(seconds / DAY) + "d"
    else if seconds % HOUR == 0 then IntText(seconds / HOUR) + "h"
    else if seconds % MINUTE == 0 then IntText(seconds / MINUTE) + "m"
    else IntText(seconds) + "s"
  }

  lemma ParseNumeralWithUnit(n: int, unit: char, seconds: nat)
    requires UnitSeconds(unit) == Some(seconds)
    ensures ParseInterval(IntText(n) + [unit]) == if n < 0 then None else Some(seconds * n)
  {
    var text := IntText(n) + [unit];
    StripKeeps(text);
    assert text[..|text| - 1] == IntText(n);
    if n < 0 {
      assert !IsDigit(IntText(n)[0]);
    } else {
      NumeralOfDigits(n);
    }
  }

  /** Parsing a printed interval gives the number back exactly when it is not negative;
      a negative number is printed as a text that does not parse. */
  lemma RoundTrip(seconds: int)
    ensures ParseInterval(FormatInterval(seconds)) == if seconds < 0 then None else Some(seconds)
  {
    if seconds % WEEK == 0 {
      ParseNumeralWithUnit(seconds / WEEK, 'w', WEEK);
    } else if seconds % DAY == 0 {
      ParseNumeralWithUnit(seconds / DAY, 'd', DAY);
    } else if seconds % HOUR == 0 {
      ParseNumeralWithUnit(seconds / HOUR, 'h', HOUR);
    } else if seconds % MINUTE == 0 {
      ParseNumeralWithUnit(seconds / MINUTE, 'm', MINUTE);
    } else {
      ParseNumeralWithUnit(seconds, 's', 1);
    }
  }

  /** Different durations are printed as different texts. */
  lemma FormatInjective(a: nat, b: nat)
    requires FormatInterval(a) == FormatInterval(b)
    ensures a == b
  {
    RoundTrip(a);
    RoundTrip(b);
  }

  /* ---- in plain terms ---- */

  /** The seconds of each unit on the device. */
  lemma UnitsAre(n: nat, unit: char)
    ensures ParseInterval(Digits(n) + [unit]) ==
      match unit
      case 's' => Some(n)
      case 'm' => Some(60 * n)
      case 'h' => Some(3600 * n)
      case 'd' => Some(86400 * n)
      case 'w' => Some(604800 * n)
      case _ => None
  {
    var text := Digits(n) + [unit];
    assert Digits(n) == IntText(n);
    if UnitSeconds(unit).Some? {
      ParseNumeralWithUnit(n, unit, UnitSeconds(unit).value);
    } else {
      UnknownUnit(Digits(n), unit);
    }
  }

  lemma UnknownUnit(digits: string, unit: char)
    requires AllDigits(digits) && digits != "" && UnitSeconds(unit).None?
    ensures ParseInterval(digits + [unit]).None?
  {
    var text := digits + [unit];
    if IsSpace(unit) {
      DigitsStay(digits, [unit]);
    } else {
      StripKeeps(text);
    }
  }

  /** A strip of digits and blanks after them leaves the digits. */
  lemma DigitsStay(digits: string, after: string)
    requires AllDigits(digits) && digits != "" && |after| == 1 && IsSpace(after[0])
    ensures Strip(digits + after) == digits && ParseInterval(digits + after).None?
  {
    var text := digits + after;
    assert text[..|text| - 1] == digits && !IsSpace(digits[|digits| - 1]);
    assert StripRight(digits) == digits;
    assert IsDigit(digits[|digits| - 1]);
  }

  /** A text is an interval exactly when, stripped, it is digits and one of five letters. */
  lemma ParsesIff(value: string)
    ensures ParseInterval(value).Some? <==>
      exists digits, unit :: digits != "" && AllDigits(digits) && unit in "smhdw" && Strip(value) == digits + [unit]
  {
    var text := Strip(value);
    if |text| > 0 {
      assert text == text[..|text| - 1] + [text[|text| - 1]];
    }
    if ParseInterval(value).Some? {
      assert text[|text| - 1] in "smhdw";
    }
    if digits, unit :| digits != "" && AllDigits(digits) && unit in "smhdw" && text == digits + [unit] {
      assert text[..|text| - 1] == digits;
    }
  }

  /** A number of seconds is printed in the largest unit that divides it. */
  lemma LargestUnit(seconds: nat)
    ensures FormatInterval(seconds) ==
      if seconds % 604800 == 0 then Digits(seconds / 604800) + "w"
      else if seconds % 86400 == 0 then Digits(seconds / 86400) + "d"
      else if seconds % 3600 == 0 then Digits(seconds / 3600) + "h"
      else if seconds % 60 == 0 then Digits(seconds / 60) + "m"
      else Digits(seconds) + "s"
  {}
}
