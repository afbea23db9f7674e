/** Base64 as the browser's `atob` decodes it (the forgiving-base64 decode
    of the WHATWG Infra standard over the alphabet of section 4 of RFC 4648),
    and a reference unpadded encoder for the base64 (section 4) and base64url
    (section 5) alphabets, the latter being the encoding of the segments of a
    JWS compact serialisation (section 2 of RFC 7515). */
module Base64 {
  import opened Wrappers

  type Byte = b: int | 0 <= b < 256
  type Sextet = v: int | 0 <= v < 64

  /** The digit for a 6-bit value: `+` and `/` for 62 and 63 in the base64
      alphabet, `-` and `_` in the base64url alphabet. */
  function Digit(v: Sextet, url: bool): char
  {
    if v < 26 then ('A' as int + v) as char
    else if v < 52 then ('a' as int + v - 26) as char
    else if v < 62 then ('0' as int + v - 52) as char
    else if v == 62 then (if url then '-' else '+')
    else (if url then '_' else '/')
  }

  /** A character of the base64 alphabet (section 4 of RFC 4648). */
  predicate IsStdDigit(c: char)
  {
    'A' <= c <= 'Z' || 'a' <= c <= 'z' || '0' <= c <= '9' || c == '+' || c == '/'
  }

  function Value(c: char): (v: Sextet)
    requires IsStdDigit(c)
    ensures Digit(v, false) == c
  {
    if 'A' <= c <= 'Z' then c as int - 'A' as int
    else if 'a' <= c <= 'z' then c as int - 'a' as int + 26
    else if '0' <= c <= '9' then c as int - '0' as int + 52
    else if c == '+' then 62
    else 63
  }

  lemma DigitIsStd(v: Sextet)
    ensures IsStdDigit(Digit(v, false)) && Value(Digit(v, false)) == v
  {
  }

  /** The 6-bit groups of a byte string: every 3 bytes give 4 groups, a
      final 2 bytes give 3 groups and a final byte gives 2, the unused low
      bits being zero. No padding is produced. */
  function Sextets(b: seq<Byte>): (s: seq<Sextet>)
    ensures |s| % 4 != 1
    ensures |s| == 4 * (|b| / 3) + (if |b| % 3 == 0 then 0 else |b| % 3 + 1)
  {
    if |b| >= 3 then
      [b[0] / 4, (b[0] % 4) * 16 + b[1] / 16, (b[1] % 16) * 4 + b[2] / 64, b[2] % 64]
      + Sextets(b[3..])
    else if |b| == 2 then [b[0] / 4, (b[0] % 4) * 16 + b[1] / 16, (b[1] % 16) * 4]
    else if |b| == 1 then [b[0] / 4, (b[0] % 4) * 16]
    else []
  }

  /** The bytes spelled by a sequence of 6-bit groups, as the decoder of
      `atob` assembles them: 24 bits give 3 bytes, a final 18 bits give 2
      bytes (the last 2 bits are dropped) and a final 12 bits give 1 byte
      (the last 4 bits are dropped). */
  function Bytes(s: seq<Sextet>): (b: seq<Byte>)
    requires |s| % 4 != 1
  {
    if |s| >= 4 then
      [First(s[0], s[1]), Second(s[1], s[2]), Third(s[2], s[3])] + Bytes(s[4..])
    else if |s| == 3 then [First(s[0], s[1]), Second(s[1], s[2])]
    else if |s| == 2 then [First(s[0], s[1])]
    else []
  }

  /** The first, second and third byte of a 24-bit group. */
  function First(s0: Sextet, s1: Sextet): Byte { (s0 as int) * 4 + (s1 as int) / 16 }
  function Second(s1: Sextet, s2: Sextet): Byte { ((s1 as int) % 16) * 16 + (s2 as int) / 4 }
  function Third(s2: Sextet, s3: Sextet): Byte { ((s2 as int) % 4) * 64 + s3 as int }

  lemma GroupRoundTrip(b0: Byte, b1: Byte, b2: Byte)
    ensures First(b0 / 4, (b0 % 4) * 16 + b1 / 16) == b0
    ensures Second((b0 % 4) * 16 + b1 / 16, (b1 % 16) * 4 + b2 / 64) == b1
    ensures Third((b1 % 16) * 4 + b2 / 64, b2 % 64) == b2
    ensures Second((b0 % 4) * 16 + b1 / 16, (b1 % 16) * 4) == b1
  {
    var s1 := (b0 % 4) * 16 + b1 / 16;
    assert s1 / 16 == b0 % 4 && s1 % 16 == b1 / 16;
    var s2 := (b1 % 16) * 4 + b2 / 64;
    assert s2 / 4 == b1 % 16 && s2 % 4 == b2 / 64;
    assert ((b1 % 16) * 4) / 4 == b1 % 16;
  }

  /** Regrouping bytes into 6-bit groups and back is the identity. */
  lemma {:induction false} BytesOfSextets(b: seq<Byte>)
    ensures Bytes(Sextets(b)) == b
  {
    if |b| >= 3 {
      GroupRoundTrip(b[0], b[1], b[2]);
      BytesOfSextets(b[3..]);
      var s := Sextets(b);
      assert s[4..] == Sextets(b[3..]);
      assert b == [b[0], b[1], b[2]] + b[3..];
    } else if |b| == 2 {
      GroupRoundTrip(b[0], b[1], 0);
      assert b == [b[0], b[1]];
    } else if |b| == 1 {
      GroupRoundTrip(b[0], 0, 0);
      assert b == [b[0]];
    }
  }

  function Digits(s: seq<Sextet>, url: bool): (d: string)
    ensures |d| == |s| && forall i :: 0 <= i < |s| ==> d[i] == Digit(s[i], url)
  {
    seq(|s|, i requires 0 <= i < |s| => Digit(s[i], url))
  }

  /** Reference encoder: `b` in the base64 (`url` false) or base64url (`url`
      true) alphabet, without padding. */
  function Encode(b: seq<Byte>, url: bool): string
  {
    Digits(Sextets(b), url)
  }

  /** The two alphabets differ only in the digits for 62 and 63. */
  lemma UrlAndStdDigits(b: seq<Byte>)
    ensures |Encode(b, true)| == |Encode(b, false)|
    ensures forall i :: 0 <= i < |Encode(b, true)| ==>
              var u := Encode(b, true)[i];
              Encode(b, false)[i] == (if u == '-' then '+' else if u == '_' then '/' else u)
  {
  }

  /** The binary string holding one character per byte, as `atob` returns
      its result. */
  function Latin1(b: seq<Byte>): (s: string)
    ensures |s| == |b| && forall i :: 0 <= i < |b| ==> s[i] as int == b[i]
  {
    seq(|b|, i requires 0 <= i < |b| => b[i] as char)
  }

  /** ASCII whitespace, which `atob` removes before decoding. */
  predicate IsAsciiWhitespace(c: char)
  {
    c == '\t' || c == '\n' || c == '\U{000C}' || c == '\r' || c == ' '
  }

  function RemoveAsciiWhitespace(s: string): (r: string)
    ensures forall i :: 0 <= i < |r| ==> !IsAsciiWhitespace(r[i])
    ensures (forall i :: 0 <= i < |s| ==> !IsAsciiWhitespace(s[i])) ==> r == s
  {
    if s == [] then []
    else if IsAsciiWhitespace(s[0]) then RemoveAsciiWhitespace(s[1..])
    else [s[0]] + RemoveAsciiWhitespace(s[1..])
  }

  /** One or two trailing `=` are dropped when the length is a multiple
      of 4. */
  function StripPadding(s: string): string
  {
    if |s| % 4 != 0 then s
    else if |s| >= 2 && s[|s| - 2] == '=' && s[|s| - 1] == '=' then s[..|s| - 2]
    else if |s| >= 1 && s[|s| - 1] == '=' then s[..|s| - 1]
    else s
  }

  datatype AtobError = InvalidCharacterError

  /** `atob(data)`: fails unless what is left after removing whitespace and
      padding has a length that is not 1 more than a multiple of 4 and holds
      only base64 digits; otherwise the decoded bytes as a binary string. */
  function Atob(data: string): (r: Result<string, AtobError>)
    ensures r.Ok? ==> forall i :: 0 <= i < |r.value| ==> r.value[i] as int < 256
  {
    var d := StripPadding(RemoveAsciiWhitespace(data));
    if |d| % 4 == 1 then Err(InvalidCharacterError)
    else if exists i :: 0 <= i < |d| && !IsStdDigit(d[i]) then Err(InvalidCharacterError)
    else Ok(Latin1(Bytes(seq(|d|, i requires 0 <= i < |d| => Value(d[i])))))
  }

  /** `atob` decodes what the reference encoder produces in the base64
      alphabet back to the original bytes. */
  lemma AtobOfEncode(b: seq<Byte>)
    ensures Atob(Encode(b, false)) == Ok(Latin1(b))
  {
    var e := Encode(b, false);
    var s := Sextets(b);
    forall i | 0 <= i < |e| ensures !IsAsciiWhitespace(e[i]) && e[i] != '=' && IsStdDigit(e[i]) {
      DigitIsStd(s[i]);
    }
    assert RemoveAsciiWhitespace(e) == e;
    assert StripPadding(e) == e;
    var vs := seq(|e|, i requires 0 <= i < |e| => Value(e[i]));
    assert vs == s by {
      forall i | 0 <= i < |e| ensures vs[i] == s[i] { DigitIsStd(s[i]); }
    }
    BytesOfSextets(b);
  }
}
