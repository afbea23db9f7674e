/** `decodeURIComponent` (the Decode operation of ECMA-262 with an empty
    reserved set): every `%hh` triplet is an octet; an octet below 0x80 is a
    character by itself, a lead octet with 2 to 4 leading one bits starts a
    UTF-8 sequence (section 3 of RFC 3629) whose continuation octets must
    follow as triplets; anything else, and any sequence that is not the
    shortest encoding of a scalar value, is a URIError. Characters other than
    `%` are copied. */
module Uri {
  import opened Wrappers
  import opened Base64
  import Hex
  import Utf8

  datatype UriError = URIError

  /** The octet of a `%hh` triplet at the start of `s` (section 2.1 of
      RFC 3986), if there is one. */
  function OctetAt(s: string): (r: Option<Byte>)
    ensures r.Some? ==> |s| >= 3
  {
    if |s| >= 3 && s[0] == '%' && Hex.IsDigit(s[1]) && Hex.IsDigit(s[2])
    then Some(Hex.Value(s[1]) * 16 + Hex.Value(s[2]))
    else None
  }

  /** Number of leading one bits of an octet, counting 5 for anything from
      0xF8 on (all of which are refused). */
  function LeadingOnes(b: Byte): nat
  {
    if b < 0x80 then 0 else if b < 0xC0 then 1 else if b < 0xE0 then 2
    else if b < 0xF0 then 3 else if b < 0xF8 then 4 else 5
  }

  predicate IsContinuation(b: Byte) { 0x80 <= b < 0xC0 }

  /** `count` continuation octets, each as a `%hh` triplet, at the start of
      `t`, and the text after them. */
  function ReadContinuations(t: string, count: nat): (r: Option<(seq<Byte>, string)>)
    ensures r.Some? ==> |r.value.0| == count && |r.value.1| <= |t|
    ensures r.Some? ==> forall i :: 0 <= i < count ==> IsContinuation(r.value.0[i])
  {
    if count == 0 then Some(([], t))
    else match OctetAt(t)
      case None => None
      case Some(b) =>
        if !IsContinuation(b) then None
        else match ReadContinuations(t[3..], count - 1)
          case None => None
          case Some(p) => Some(([b] + p.0, p.1))
  }

  /** The value carried by a lead octet and its continuation octets. */
  function CodePoint(lead: Byte, conts: seq<Byte>): int
    requires 1 <= |conts| <= 3
  {
    var l: int := lead;
    var c0: int := conts[0];
    if |conts| == 1 then (l % 32) * 64 + c0 % 64
    else
      var c1: int := conts[1];
      if |conts| == 2 then (l % 16) * 4096 + (c0 % 64) * 64 + c1 % 64
      else
        var c2: int := conts[2];
        (l % 8) * 262144 + (c0 % 64) * 4096 + (c1 % 64) * 64 + c2 % 64
  }

  /** The ranges of RFC 3629 for a sequence of `n` octets: no overlong form,
      no surrogate, nothing beyond U+10FFFF. */
  predicate IsShortestScalar(cp: int, n: nat)
  {
    if n == 2 then 0x80 <= cp < 0x800
    else if n == 3 then 0x800 <= cp < 0x10000 && !(0xD800 <= cp < 0xE000)
    else n == 4 && 0x10000 <= cp <= 0x10FFFF
  }

  function Cons(c: char, r: Result<string, UriError>): Result<string, UriError>
  {
    match r
    case Ok(t) => Ok([c] + t)
    case Err(e) => Err(e)
  }

  /** `decodeURIComponent`: text without `%` comes back unchanged, and a
      decoded text is never longer than the encoded one. */
  function DecodeUriComponent(s: string): (r: Result<string, UriError>)
    ensures '%' !in s ==> r == Ok(s)
    ensures r.Ok? ==> |r.value| <= |s|
    decreases |s|
  {
    if s == [] then Ok([])
    else if s[0] != '%' then
      assert '%' !in s ==> '%' !in s[1..] by {
        if '%' in s[1..] { var i :| 0 <= i < |s[1..]| && s[1..][i] == '%'; assert s[i + 1] == '%'; }
      }
      assert [s[0]] + s[1..] == s;
      Cons(s[0], DecodeUriComponent(s[1..]))
    else match OctetAt(s)
      case None => Err(URIError)
      case Some(lead) =>
        if lead < 0x80 then Cons(lead as char, DecodeUriComponent(s[3..]))
        else
          var n := LeadingOnes(lead);
          if n == 1 || n > 4 then Err(URIError)
          else match ReadContinuations(s[3..], n - 1)
            case None => Err(URIError)
            case Some(p) =>
              var cp := CodePoint(lead, p.0);
              if !IsShortestScalar(cp, n) then Err(URIError)
              else Cons(cp as char, DecodeUriComponent(p.1))
  }

  /** The `%hh` triplet of an octet, with lower-case digits. */
  function Triplet(b: Byte): string
  {
    ['%', Hex.Digit(b / 16), Hex.Digit(b % 16)]
  }

  /** Every octet as its triplet. */
  function PercentEncoded(b: seq<Byte>): string
  {
    if b == [] then [] else Triplet(b[0]) + PercentEncoded(b[1..])
  }

  lemma {:induction false} PercentEncodedConcat(a: seq<Byte>, b: seq<Byte>)
    ensures PercentEncoded(a + b) == PercentEncoded(a) + PercentEncoded(b)
  {
    if a != [] {
      assert (a + b)[1..] == a[1..] + b;
      PercentEncodedConcat(a[1..], b);
    } else {
      assert a + b == b;
    }
  }

  lemma TripletOctet(b: Byte, rest: string)
    ensures OctetAt(Triplet(b) + rest) == Some(b)
    ensures (Triplet(b) + rest)[3..] == rest
  {
    Hex.DigitRoundTrip(b / 16);
    Hex.DigitRoundTrip(b % 16);
  }

  lemma {:induction false} ContinuationsOf(bs: seq<Byte>, rest: string)
    requires forall i :: 0 <= i < |bs| ==> IsContinuation(bs[i])
    ensures ReadContinuations(PercentEncoded(bs) + rest, |bs|) == Some((bs, rest))
    decreases |bs|
  {
    if bs != [] {
      var tail := PercentEncoded(bs[1..]) + rest;
      var t := PercentEncoded(bs) + rest;
      assert t == Triplet(bs[0]) + tail;
      TripletOctet(bs[0], tail);
      assert forall i :: 0 <= i < |bs[1..]| ==> IsContinuation(bs[1..][i]) by {
        forall i | 0 <= i < |bs[1..]| ensures IsContinuation(bs[1..][i]) { assert bs[1..][i] == bs[i + 1]; }
      }
      ContinuationsOf(bs[1..], rest);
      assert t[3..] == tail;
      assert [bs[0]] + bs[1..] == bs;
    } else {
      assert PercentEncoded(bs) + rest == rest;
    }
  }

  /** `v / 4096` and `v / 262144` are repeated divisions by 64. */
  lemma RepeatedDivision(v: nat)
    ensures v / 4096 == (v / 64) / 64
    ensures v / 262144 == ((v / 64) / 64) / 64
  {
    var q := v / 64;
    var q2 := q / 64;
    var q3 := q2 / 64;
    assert v == 64 * q + v % 64;
    assert q == 64 * q2 + q % 64;
    assert q2 == 64 * q3 + q2 % 64;
    assert v == 4096 * q2 + (64 * (q % 64) + v % 64);
    assert v == 262144 * q3 + (4096 * (q2 % 64) + 64 * (q % 64) + v % 64);
  }

  lemma Shape2(v: int)
    requires 0x80 <= v < 0x800
    ensures LeadingOnes(0xC0 + v / 64) == 2 && IsContinuation(0x80 + v % 64)
    ensures CodePoint(0xC0 + v / 64, [0x80 + v % 64]) == v
  {
  }

  lemma DivMod64(n: nat)
    ensures n == 64 * (n / 64) + n % 64 && 0 <= n % 64 < 64
  {
  }

  /** The value of a three-octet sequence, digit by digit. */
  lemma CodePoint3(q2: int, r1: int, r0: int)
    requires 0 <= q2 < 16 && 0 <= r1 < 64 && 0 <= r0 < 64
    ensures CodePoint(0xE0 + q2, [0x80 + r1, 0x80 + r0]) == 4096 * q2 + 64 * r1 + r0
  {
    assert (0xE0 + q2) % 16 == q2;
    assert (0x80 + r1) % 64 == r1 && (0x80 + r0) % 64 == r0;
  }

  /** The value of a four-octet sequence, digit by digit. */
  lemma CodePoint4(q3: int, r2: int, r1: int, r0: int)
    requires 0 <= q3 < 8 && 0 <= r2 < 64 && 0 <= r1 < 64 && 0 <= r0 < 64
    ensures CodePoint(0xF0 + q3, [0x80 + r2, 0x80 + r1, 0x80 + r0]) == 262144 * q3 + 4096 * r2 + 64 * r1 + r0
  {
    assert (0xF0 + q3) % 8 == q3;
    assert (0x80 + r2) % 64 == r2 && (0x80 + r1) % 64 == r1 && (0x80 + r0) % 64 == r0;
  }

  lemma Shape3(v: int)
    requires 0x800 <= v < 0x10000
    ensures LeadingOnes(0xE0 + v / 4096) == 3
    ensures IsContinuation(0x80 + (v / 64) % 64) && IsContinuation(0x80 + v % 64)
    ensures CodePoint(0xE0 + v / 4096, [0x80 + (v / 64) % 64, 0x80 + v % 64]) == v
  {
    RepeatedDivision(v);
    var q := v / 64;
    DivMod64(v);
    DivMod64(q);
    var q2 := q / 64;
    assert v == 4096 * q2 + 64 * (q % 64) + v % 64;
    assert 0 <= q2 < 16;
    CodePoint3(q2, q % 64, v % 64);
  }

  lemma Shape4(v: int)
    requires 0x10000 <= v <= 0x10FFFF
    ensures LeadingOnes(0xF0 + v / 262144) == 4
    ensures IsContinuation(0x80 + (v / 4096) % 64)
    ensures IsContinuation(0x80 + (v / 64) % 64) && IsContinuation(0x80 + v % 64)
    ensures CodePoint(0xF0 + v / 262144,
                      [0x80 + (v / 4096) % 64, 0x80 + (v / 64) % 64, 0x80 + v % 64]) == v
  {
    RepeatedDivision(v);
    var q := v / 64;
    var q2 := q / 64;
    DivMod64(v);
    DivMod64(q);
    DivMod64(q2);
    var q3 := q2 / 64;
    assert v == 262144 * q3 + 4096 * (q2 % 64) + 64 * (q % 64) + v % 64;
    assert 0 <= q3 <= 4;
    CodePoint4(q3, q2 % 64, q % 64, v % 64);
  }

  lemma EncodeScalarShape(c: char)
    ensures var b := Utf8.EncodeScalar(c);
      && LeadingOnes(b[0]) == (if |b| == 1 then 0 else |b|)
      && (forall i :: 1 <= i < |b| ==> IsContinuation(b[i]))
      && (|b| == 1 ==> b[0] == c as int)
      && (|b| > 1 ==> CodePoint(b[0], b[1..]) == c as int && IsShortestScalar(c as int, |b|))
  {
    var v := c as int;
    if v < 0x80 {
    } else if v < 0x800 {
      Shape2(v);
    } else if v < 0x10000 {
      Shape3(v);
    } else {
      Shape4(v);
    }
  }

  /** Decoding the percent-encoded UTF-8 encoding of one character yields it,
      whatever follows. */
  lemma DecodeScalar(c: char, rest: string)
    ensures DecodeUriComponent(PercentEncoded(Utf8.EncodeScalar(c)) + rest)
         == Cons(c, DecodeUriComponent(rest))
  {
    EncodeScalarShape(c);
    DecodeSequence(Utf8.EncodeScalar(c), c, rest);
  }

  /** The same for any octets of the shape `EncodeScalarShape` describes. */
  lemma DecodeSequence(b: seq<Byte>, c: char, rest: string)
    requires 1 <= |b| <= 4
    requires LeadingOnes(b[0]) == (if |b| == 1 then 0 else |b|)
    requires forall i :: 1 <= i < |b| ==> IsContinuation(b[i])
    requires |b| == 1 ==> b[0] == c as int
    requires |b| > 1 ==> CodePoint(b[0], b[1..]) == c as int && IsShortestScalar(c as int, |b|)
    ensures DecodeUriComponent(PercentEncoded(b) + rest) == Cons(c, DecodeUriComponent(rest))
  {
    var s := PercentEncoded(b) + rest;
    assert b == [b[0]] + b[1..];
    PercentEncodedConcat([b[0]], b[1..]);
    assert s == Triplet(b[0]) + (PercentEncoded(b[1..]) + rest);
    TripletOctet(b[0], PercentEncoded(b[1..]) + rest);
    ContinuationsOf(b[1..], rest);
    assert s[0] == '%';
    if |b| == 1 {
      assert s[3..] == rest;
      assert (b[0] as char) == c;
    }
  }

  /** `decodeURIComponent` inverts percent-encoding of UTF-8: the text whose
      encoding was percent-encoded comes back unchanged. */
  lemma {:induction false} DecodeEncoded(text: string)
    ensures DecodeUriComponent(PercentEncoded(Utf8.Encode(text))) == Ok(text)
  {
    if text != [] {
      PercentEncodedConcat(Utf8.EncodeScalar(text[0]), Utf8.Encode(text[1..]));
      DecodeScalar(text[0], PercentEncoded(Utf8.Encode(text[1..])));
      DecodeEncoded(text[1..]);
      assert [text[0]] + text[1..] == text;
    } else {
      assert PercentEncoded([]) == [];
    }
  }
}
