/** String helpers with the meaning the Kotlin standard library gives them. */
module Text {

  /** The ASCII digits `0` to `9`, the only digits `toDouble()` reads. */
  predicate IsAsciiDigit(c: char) {
    '0' <= c <= '9'
  }

  /**
   * The decimal digits (general category Nd) of the Basic Multilingual Plane
   * other than ASCII: Arabic-Indic, Devanagari, Thai, full-width and the
   * rest, ten consecutive code points each.
   */
  predicate IsOtherDecimalDigit(c: char) {
    ('\U{0660}' <= c <= '\U{0669}')
    || ('\U{06F0}' <= c <= '\U{06F9}')
    || ('\U{07C0}' <= c <= '\U{07C9}')
    || ('\U{0966}' <= c <= '\U{096F}')
    || ('\U{09E6}' <= c <= '\U{09EF}')
    || ('\U{0A66}' <= c <= '\U{0A6F}')
    || ('\U{0AE6}' <= c <= '\U{0AEF}')
    || ('\U{0B66}' <= c <= '\U{0B6F}')
    || ('\U{0BE6}' <= c <= '\U{0BEF}')
    || ('\U{0C66}' <= c <= '\U{0C6F}')
    || ('\U{0CE6}' <= c <= '\U{0CEF}')
    || ('\U{0D66}' <= c <= '\U{0D6F}')
    || ('\U{0DE6}' <= c <= '\U{0DEF}')
    || ('\U{0E50}' <= c <= '\U{0E59}')
    || ('\U{0ED0}' <= c <= '\U{0ED9}')
    || ('\U{0F20}' <= c <= '\U{0F29}')
    || ('\U{1040}' <= c <= '\U{1049}')
    || ('\U{1090}' <= c <= '\U{1099}')
    || ('\U{17E0}' <= c <= '\U{17E9}')
    || ('\U{1810}' <= c <= '\U{1819}')
    || ('\U{1946}' <= c <= '\U{194F}')
    || ('\U{19D0}' <= c <= '\U{19D9}')
    || ('\U{1A80}' <= c <= '\U{1A89}')
    || ('\U{1A90}' <= c <= '\U{1A99}')
    || ('\U{1B50}' <= c <= '\U{1B59}')
    || ('\U{1BB0}' <= c <= '\U{1BB9}')
    || ('\U{1C40}' <= c <= '\U{1C49}')
    || ('\U{1C50}' <= c <= '\U{1C59}')
    || ('\U{A620}' <= c <= '\U{A629}')
    || ('\U{A8D0}' <= c <= '\U{A8D9}')
    || ('\U{A900}' <= c <= '\U{A909}')
    || ('\U{A9D0}' <= c <= '\U{A9D9}')
    || ('\U{A9F0}' <= c <= '\U{A9F9}')
    || ('\U{AA50}' <= c <= '\U{AA59}')
    || ('\U{ABF0}' <= c <= '\U{ABF9}')
    || ('\U{FF10}' <= c <= '\U{FF19}')
  }

  /**
   * `Char.isDigit()`: any decimal digit.  A Kotlin `Char` is a UTF-16 code
   * unit, so a digit outside the Basic Multilingual Plane arrives as two
   * surrogates, neither of them a digit; here it is one character that is
   * not a digit either.
   */
  predicate IsDigit(c: char) {
    IsAsciiDigit(c) || IsOtherDecimalDigit(c)
  }

  /** `text.all { it.isDigit() }`: true of the empty string. */
  predicate IsNumber(s: string) {
    forall i :: 0 <= i < |s| ==> IsDigit(s[i])
  }

  /** Every character is an ASCII digit: true of the empty string. */
  predicate IsAsciiDigits(s: string) {
    forall i :: 0 <= i < |s| ==> IsAsciiDigit(s[i])
  }

  function DigitValue(c: char): (d: nat)
    requires IsAsciiDigit(c)
    ensures d < 10
  {
    c as int - '0' as int
  }

  function DigitChar(d: nat): (c: char)
    requires d < 10
    ensures IsAsciiDigit(c) && DigitValue(c) == d
  {
    ('0' as int + d) as char
  }

  /** The value of a string of ASCII digits, read most significant first. */
  function NumberValue(s: string): nat
    requires IsAsciiDigits(s)
    decreases |s|
  {
    if s == [] then 0 else NumberValue(s[..|s| - 1]) * 10 + DigitValue(s[|s| - 1])
  }

  /** `n.toString()` for a non-negative number: no sign, no leading zeros. */
  function NatToString(n: nat): (s: string)
    ensures |s| > 0 && IsAsciiDigits(s)
    ensures (s[0] == '0') == (n == 0)
    decreases n
  {
    if n < 10 then [DigitChar(n)] else NatToString(n / 10) + [DigitChar(n % 10)]
  }

  /** Reading back what `NatToString` printed gives the number again. */
  lemma {:induction false} NatToStringRoundTrip(n: nat)
    ensures NumberValue(NatToString(n)) == n
  {
    if n >= 10 {
      var s := NatToString(n);
      assert s[..|s| - 1] == NatToString(n / 10);
      NatToStringRoundTrip(n / 10);
    }
  }

  /** `n.toString()` for any integer: a leading `-` exactly when negative. */
  function IntToString(n: int): (s: string)
    ensures |s| > 0 && (s[0] == '-' <==> n < 0)
    ensures IsNumber(s) <==> n >= 0
    ensures IsAsciiDigits(s) <==> n >= 0
  {
    if n < 0 then "-" + NatToString(-n) else NatToString(n)
  }

  /** A printed integer is read back as itself, whenever it is a number at all. */
  lemma IntToStringRoundTrip(n: int)
    requires n >= 0
    ensures IsAsciiDigits(IntToString(n)) && IntToString(n) != "" && NumberValue(IntToString(n)) == n
  {
    NatToStringRoundTrip(n);
  }

  function UpperChar(c: char): char {
    if 'a' <= c <= 'z' then (c as int - 32) as char else c
  }

  function LowerChar(c: char): char {
    if 'A' <= c <= 'Z' then (c as int + 32) as char else c
  }

  /** `String.uppercase()` on ASCII letters. */
  function Uppercase(s: string): (u: string)
    ensures |u| == |s|
    ensures forall i :: 0 <= i < |s| ==> u[i] == UpperChar(s[i])
  {
    seq(|s|, i requires 0 <= i < |s| => UpperChar(s[i]))
  }

  /** `String.lowercase()` on ASCII letters. */
  function Lowercase(s: string): (u: string)
    ensures |u| == |s|
    ensures forall i :: 0 <= i < |s| ==> u[i] == LowerChar(s[i])
  {
    seq(|s|, i requires 0 <= i < |s| => LowerChar(s[i]))
  }

  predicate IsUpperLetters(s: string) {
    forall i :: 0 <= i < |s| ==> 'A' <= s[i] <= 'Z'
  }

  /** Upper-casing a lower-cased word of capitals restores it; the lower-case form differs from it. */
  lemma CaseRoundTrip(s: string)
    requires IsUpperLetters(s)
    ensures Uppercase(Lowercase(s)) == s
    ensures Uppercase(s) == s
    ensures s != [] ==> Lowercase(s) != s
  {
    if s != [] {
      assert Lowercase(s)[0] != s[0];
    }
  }

  /** The elements of `xs` with `separator` between neighbours. */
  function Joined(xs: seq<string>, separator: string): string
    decreases |xs|
  {
    if |xs| == 0 then ""
    else if |xs| == 1 then xs[0]
    else xs[0] + separator + Joined(xs[1..], separator)
  }

  /** `xs.joinToString(separator, prefix, postfix)`. */
  function JoinToString(xs: seq<string>, separator: string, prefix: string, postfix: string): string {
    prefix + Joined(xs, separator) + postfix
  }

  /** Each element in single quotes, the quoted elements separated by ", ". */
  function QuotedList(xs: seq<string>): string
    decreases |xs|
  {
    if |xs| == 0 then ""
    else if |xs| == 1 then "'" + xs[0] + "'"
    else "'" + xs[0] + "', " + QuotedList(xs[1..])
  }

  /**
   * Joining with separator `', '` inside a `'` prefix and postfix quotes
   * every element; with no elements it leaves a bare pair of quotes.
   */
  lemma {:induction false} JoinQuotesEveryElement(xs: seq<string>)
    ensures xs != [] ==> JoinToString(xs, "', '", "'", "'") == QuotedList(xs)
    ensures xs == [] ==> JoinToString(xs, "', '", "'", "'") == "''"
    decreases |xs|
  {
    if |xs| > 1 {
      JoinQuotesEveryElement(xs[1..]);
      calc {
        JoinToString(xs, "', '", "'", "'");
        "'" + (xs[0] + "', '" + Joined(xs[1..], "', '")) + "'";
        "'" + xs[0] + "', " + ("'" + Joined(xs[1..], "', '") + "'");
        "'" + xs[0] + "', " + QuotedList(xs[1..]);
      }
    }
  }
}
