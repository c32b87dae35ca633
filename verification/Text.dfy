/** String operations that the adapters rely on: strip, case folding, decimal numerals. */
module Text {
  predicate IsSpace(c: char) {
    c == ' ' || c == '\t' || c == '\n' || c == '\r' || c == '\U{0B}' || c == '\U{0C}'
  }

  function StripRight(s: string): string {
    if s != "" && IsSpace(s[|s| - 1]) then StripRight(s[..|s| - 1]) else s
  }

  /** `str.strip()` on ASCII whitespace. */
  function Strip(s: string): string {
    if s != "" && IsSpace(s[0]) then Strip(s[1..]) else StripRight(s)
  }

  function LowerChar(c: char): char {
    if 'A' <= c <= 'Z' then (c as int + 32) as char else c
  }

  /** `str.casefold()` on ASCII letters. */
  function Lower(s: string): (r: string)
    ensures |r| == |s|
  {
    if s == "" then "" else [LowerChar(s[0])] + Lower(s[1..])
  }

  predicate IsDigit(c: char) {
    '0' <= c <= '9'
  }

  predicate AllDigits(s: string) {
    forall i | 0 <= i < |s| :: IsDigit(s[i])
  }

  function DigitChar(d: nat): (c: char)
    requires d < 10
    ensures IsDigit(c)
  {
    ('0' as int + d) as char
  }

  /** The decimal numeral of a natural number, as `str(n)` prints it. */
  function Digits(n: nat): (s: string)
    ensures s != "" && AllDigits(s)
  {
    if n < 10 then [DigitChar(n)] else Digits(n / 10) + [DigitChar(n % 10)]
  }

  /** The number a decimal numeral denotes, as `int(s)` reads it. */
  function Numeral(s: string): nat
    requires AllDigits(s)
  {
    if s == "" then 0 else 10 * Numeral(s[..|s| - 1]) + (s[|s| - 1] as int - '0' as int)
  }

  /** `str(n)` of any integer. */
  function IntText(n: int): string {
    if n < 0 then "-" + Digits(-n) else Digits(n)
  }

  lemma {:induction false} NumeralOfDigits(n: nat)
    ensures Numeral(Digits(n)) == n
  {
    if n < 10 {
      assert Digits(n)[..0] == "";
    } else {
      NumeralOfDigits(n / 10);
      var s := Digits(n);
      assert s[..|s| - 1] == Digits(n / 10);
    }
  }

  lemma DigitsInjective(a: nat, b: nat)
    requires Digits(a) == Digits(b)
    ensures a == b
  {
    NumeralOfDigits(a);
    NumeralOfDigits(b);
  }

  lemma StripKeeps(s: string)
    requires s != "" ==> !IsSpace(s[0]) && !IsSpace(s[|s| - 1])
    ensures Strip(s) == s
  {}

  /* ---- in plain terms ---- */

  predicate BlankChar(c: char) {
    c in {' ', '\t', '\n', '\r', '\U{0B}', '\U{0C}'}
  }

  predicate Blank(s: string) {
    forall i | 0 <= i < |s| :: BlankChar(s[i])
  }

  lemma {:induction false} StripRightTakesBlanks(s: string) returns (after: string)
    ensures s == StripRight(s) + after && Blank(after)
    ensures StripRight(s) != "" ==> !BlankChar(StripRight(s)[|StripRight(s)| - 1])
    ensures s != "" && !IsSpace(s[0]) ==> StripRight(s) != "" && StripRight(s)[0] == s[0]
  {
    if s != "" && IsSpace(s[|s| - 1]) {
      var core, last := StripRight(s), s[|s| - 1];
      var rest := StripRightTakesBlanks(s[..|s| - 1]);
      after := rest + [last];
      assert s == (core + rest) + [last] == core + after;
    } else {
      after := "";
    }
  }

  /** Stripping takes blanks from both ends and leaves none there. */
  lemma {:induction false} StripTakesBlanks(s: string) returns (before: string, after: string)
    ensures s == before + Strip(s) + after && Blank(before) && Blank(after)
    ensures Strip(s) != "" ==> !BlankChar(Strip(s)[0]) && !BlankChar(Strip(s)[|Strip(s)| - 1])
  {
    if s != "" && IsSpace(s[0]) {
      var core, rest := Strip(s), "";
      rest, after := StripTakesBlanks(s[1..]);
      before := [s[0]] + rest;
      assert s == [s[0]] + (rest + core + after) == before + core + after;
      assert forall i | 1 <= i < |before| :: before[i] == rest[i - 1];
    } else {
      before := "";
      after := StripRightTakesBlanks(s);
    }
  }

  /** Folding maps the letters A to Z to a to z, one by one, and nothing else. */
  lemma {:induction false} LowerAt(s: string, i: nat)
    requires i < |s|
    ensures Lower(s)[i] == if 'A' <= s[i] <= 'Z' then (s[i] as int - 'A' as int + 'a' as int) as char else s[i]
  {
    if i > 0 {
      LowerAt(s[1..], i - 1);
    }
  }

  /** Ten digits, valued in order, each place worth ten times the next. */
  lemma NumeralsAreDecimal(s: string, c: char)
    requires AllDigits(s) && c in "0123456789"
    ensures Numeral("") == 0 && Numeral("0") == 0 && Numeral("1") == 1 && Numeral("9") == 9
    ensures Numeral(s + [c]) == 10 * Numeral(s) + Numeral([c])
  {
    assert (s + [c])[..|s|] == s;
    assert [c][..0] == "" && "1"[..0] == "" && "9"[..0] == "" && "0"[..0] == "";
  }
}
