/** Hexadecimal digits as JavaScript produces and reads them:
    `Number.prototype.toString(16)` writes lower-case digits, and the URI
    decoder accepts either case. */
module Hex {

  type Nibble = d: int | 0 <= d < 16

  /** The lower-case digit for a value 0..15. */
  function Digit(d: Nibble): (c: char)
    ensures '0' <= c <= '9' || 'a' <= c <= 'f'
  {
    if d < 10 then ('0' as int + d) as char else ('a' as int + d - 10) as char
  }

  predicate IsDigit(c: char) {
    '0' <= c <= '9' || 'a' <= c <= 'f' || 'A' <= c <= 'F'
  }

  function Value(c: char): (d: Nibble)
    requires IsDigit(c)
  {
    if '0' <= c <= '9' then c as int - '0' as int
    else if 'a' <= c <= 'f' then c as int - 'a' as int + 10
    else c as int - 'A' as int + 10
  }

  /** Reading back a written digit gives its value. */
  lemma DigitRoundTrip(d: Nibble)
    ensures IsDigit(Digit(d)) && Value(Digit(d)) == d
  {
  }

  /** `n.toString(16)` for a non-negative integer: the shortest lower-case
      hexadecimal numeral of `n` ("0" for zero). Its last digit is that of
      `n % 16`, and when `n` has two or more digits the one before it is that
      of `(n / 16) % 16`. */
  function ToHexString(n: nat): (s: string)
    ensures |s| >= 1 && s[|s| - 1] == Digit(n % 16)
    ensures n < 16 <==> |s| == 1
    ensures n >= 16 ==> s[|s| - 2] == Digit((n / 16) % 16)
    decreases n
  {
    if n < 16 then [Digit(n)] else ToHexString(n / 16) + [Digit(n % 16)]
  }
}
