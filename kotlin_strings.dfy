/** The few Kotlin standard-library string operations the client's logic
    depends on: `isBlank`, `isNullOrBlank`, `endsWith` and the decimal
    rendering of an `Int` inside a string template. */
module KotlinStrings {
  import opened DataModels

  /** Kotlin's `Char.isWhitespace()` on the JVM: Java's `Character.isWhitespace`
      (the ASCII controls TAB, LF, VT, FF, CR, FS, GS, RS, US and the Unicode
      space, line and paragraph separators) together with
      `Character.isSpaceChar`, which adds the no-break spaces. */
  predicate IsWhitespace(c: char) {
    || c == '\t' || c == '\n' || c == '\U{000B}' || c == '\U{000C}' || c == '\r'
    || ('\U{001C}' <= c <= '\U{001F}')
    || c == ' ' || c == '\U{00A0}' || c == '\U{1680}'
    || ('\U{2000}' <= c <= '\U{200A}')
    || c == '\U{2028}' || c == '\U{2029}' || c == '\U{202F}' || c == '\U{205F}' || c == '\U{3000}'
  }

  /** Kotlin's `CharSequence.isBlank()`: empty, or whitespace only. */
  function IsBlank(s: string): (blank: bool)
    ensures blank <==> forall i | 0 <= i < |s| :: IsWhitespace(s[i])
  {
    if |s| == 0 then true else IsWhitespace(s[0]) && IsBlank(s[1..])
  }

  /** Kotlin's `CharSequence?.isNullOrBlank()`. */
  predicate IsNullOrBlank(s: Option<string>) {
    s.None? || IsBlank(s.value)
  }

  /** Kotlin's `String.endsWith(suffix)`. */
  predicate EndsWith(s: string, suffix: string) {
    |suffix| <= |s| && s[|s| - |suffix|..] == suffix
  }

  predicate IsDigit(c: char) {
    '0' <= c <= '9'
  }

  function DigitChar(d: nat): (c: char)
    requires d < 10
    ensures IsDigit(c)
  {
    ('0' as int + d) as char
  }

  function DigitValue(c: char): (d: nat)
    requires IsDigit(c)
    ensures d < 10 && DigitChar(d) == c
  {
    c as int - '0' as int
  }

  /** The decimal digits of a natural number, most significant first. */
  function NatToDecimal(n: nat): (s: string)
    ensures |s| >= 1
    ensures forall i | 0 <= i < |s| :: IsDigit(s[i])
    ensures |s| > 1 ==> s[0] != '0'
  {
    if n < 10 then [DigitChar(n)] else NatToDecimal(n / 10) + [DigitChar(n % 10)]
  }

  /** Kotlin's `Int.toString()` (what a `${code}` template inserts): a minus
      sign for negative numbers, then the decimal digits. */
  function IntToDecimal(n: int): (s: string)
    ensures |s| >= 1
    ensures n < 0 <==> s[0] == '-'
  {
    if n < 0 then "-" + NatToDecimal(-n) else NatToDecimal(n)
  }

  /** The value of a string of decimal digits: the reference reading of a
      numeral against which the rendering above is checked. */
  function DecimalValue(s: string): nat
    requires forall i | 0 <= i < |s| :: IsDigit(s[i])
  {
    if s == [] then 0 else 10 * DecimalValue(s[..|s| - 1]) + DigitValue(s[|s| - 1])
  }

  /** Reads back an optionally signed decimal numeral; None if it is not one. */
  function ParseDecimal(s: string): Option<int> {
    if |s| > 1 && s[0] == '-' && forall i | 1 <= i < |s| :: IsDigit(s[i]) then
      Some(0 - DecimalValue(s[1..]))
    else if |s| > 0 && forall i | 0 <= i < |s| :: IsDigit(s[i]) then
      Some(DecimalValue(s))
    else
      None
  }

  lemma {:induction false} NatToDecimalValue(n: nat)
    ensures DecimalValue(NatToDecimal(n)) == n
  {
    if n >= 10 {
      var s := NatToDecimal(n);
      NatToDecimalValue(n / 10);
      assert s[..|s| - 1] == NatToDecimal(n / 10);
      assert s[|s| - 1] == DigitChar(n % 10);
    }
  }

  /** The rendering of an integer reads back as the same integer, so a code
      inserted into a message is never garbled. */
  lemma IntToDecimalRoundTrip(n: int)
    ensures ParseDecimal(IntToDecimal(n)) == Some(n)
  {
    if n < 0 {
      var digits := NatToDecimal(-n);
      var s := "-" + digits;
      assert s[1..] == digits;
      assert forall i | 1 <= i < |s| :: IsDigit(s[i]) by {
        forall i | 1 <= i < |s| ensures IsDigit(s[i]) {
          assert s[i] == digits[i - 1];
        }
      }
      NatToDecimalValue(-n);
      assert ParseDecimal(s) == Some(0 - DecimalValue(digits));
    } else {
      NatToDecimalValue(n);
    }
  }
}
