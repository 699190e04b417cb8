/** Zero-padded two-digit decimal fields, as `strftime` writes
    `%d`, `%m`, `%H` and `%M`. */
module Text {

  predicate IsDigit(c: char) {
    '0' <= c <= '9'
  }

  function DigitValue(c: char): int
    requires IsDigit(c)
  {
    c as int - '0' as int
  }

  function DigitChar(n: int): (c: char)
    requires 0 <= n < 10
    ensures IsDigit(c) && DigitValue(c) == n
  {
    ('0' as int + n) as char
  }

  predicate IsTwoDigits(s: string) {
    |s| == 2 && IsDigit(s[0]) && IsDigit(s[1])
  }

  /** The number a two-digit field spells. */
  function TwoDigitValue(s: string): int
    requires IsTwoDigits(s)
  {
    10 * DigitValue(s[0]) + DigitValue(s[1])
  }

  /** `n` written with exactly two digits, a leading zero below ten. */
  function TwoDigits(n: int): (s: string)
    requires 0 <= n < 100
    ensures IsTwoDigits(s) && TwoDigitValue(s) == n
  {
    [DigitChar(n / 10), DigitChar(n % 10)]
  }

  /** Two numbers print the same only if they are equal. */
  lemma TwoDigitsInjective(a: int, b: int)
    requires 0 <= a < 100 && 0 <= b < 100
    ensures TwoDigits(a) == TwoDigits(b) <==> a == b
  {
  }
}
