/** UTF-8 (section 3 of RFC 3629) as a reference encoder from Unicode scalar
    values to bytes. Dafny characters are exactly the scalar values, so every
    string has an encoding. */
module Utf8 {
  import opened Base64

  /** The 1 to 4 bytes encoding one scalar value. */
  function EncodeScalar(c: char): (b: seq<Byte>)
    ensures 1 <= |b| <= 4
  {
    var v := c as int;
    if v < 0x80 then [v]
    else if v < 0x800 then [0xC0 + v / 64, 0x80 + v % 64]
    else if v < 0x10000 then [0xE0 + v / 4096, 0x80 + (v / 64) % 64, 0x80 + v % 64]
    else [0xF0 + v / 262144, 0x80 + (v / 4096) % 64, 0x80 + (v / 64) % 64, 0x80 + v % 64]
  }

  /** The UTF-8 encoding of a string: its characters' encodings in order. */
  function Encode(s: string): seq<Byte>
  {
    if s == [] then [] else EncodeScalar(s[0]) + Encode(s[1..])
  }
}
