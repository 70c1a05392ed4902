/** Characters and small shared types of the m4 expander. */
module Text {

  datatype Option<+T> = None | Some(value: T)

  /** Opening quote of a quoted string. */
  const LeftQuote: char := '`'
  /** Closing quote of a quoted string. */
  const RightQuote: char := '\''

  /** A character that may appear in a macro name: `[A-Za-z_]`
      (`is_literal_char` in the source). */
  predicate IsNameChar(c: char) {
    ('a' <= c <= 'z') || ('A' <= c <= 'Z') || c == '_'
  }

  predicate AllNameChars(s: string) {
    forall i :: 0 <= i < |s| ==> IsNameChar(s[i])
  }

  /** The Unicode White_Space property, which is what `char::is_whitespace`
      and therefore `str::trim` test. */
  predicate IsWhitespace(c: char) {
    var n := c as int;
    (9 <= n <= 13) || n == 32 || n == 0x85 || n == 0xA0 || n == 0x1680 ||
    (0x2000 <= n <= 0x200A) || n == 0x2028 || n == 0x2029 || n == 0x202F ||
    n == 0x205F || n == 0x3000
  }

  /** `s.trim().is_empty()`: every character of `s` is white space. */
  predicate AllWhitespace(s: string) {
    forall i :: 0 <= i < |s| ==> IsWhitespace(s[i])
  }

  predicate IsDigit(c: char) {
    '0' <= c <= '9'
  }

  function DigitValue(c: char): (d: nat)
    requires IsDigit(c)
    ensures d < 10
  {
    (c as int) - ('0' as int)
  }
}
