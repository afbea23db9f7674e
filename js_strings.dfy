/** The JavaScript string operations the core relies on, on strings as
    sequences of characters: `split` and `join` with a one-character
    separator, `replace` with a one-character pattern (first occurrence, or
    every occurrence for a global pattern), `trim` and `slice(-n)`. */
module JsStrings {

  /** Number of positions of `s` holding `c`. */
  function Occurrences(s: string, c: char): nat
  {
    if s == [] then 0 else (if s[0] == c then 1 else 0) + Occurrences(s[1..], c)
  }

  lemma {:induction false} NoOccurrences(s: string, c: char)
    requires c !in s
    ensures Occurrences(s, c) == 0
  {
    if s != [] {
      assert c !in s[1..] by {
        forall i | 0 <= i < |s[1..]| ensures s[1..][i] != c { assert s[1..][i] == s[i + 1]; }
      }
      NoOccurrences(s[1..], c);
    }
  }

  /** `s.split(sep)`: the pieces of `s` between the occurrences of `sep`.
      There is always one more piece than there are separators, and no piece
      holds the separator. */
  function Split(s: string, sep: char): (parts: seq<string>)
    ensures |parts| == Occurrences(s, sep) + 1
    ensures forall i :: 0 <= i < |parts| ==> sep !in parts[i]
  {
    if s == [] then [[]]
    else
      var rest := Split(s[1..], sep);
      if s[0] == sep then [[]] + rest
      else [[s[0]] + rest[0]] + rest[1..]
  }

  /** `parts.join(sep)`. Pieces that do not hold the separator are split
      back into exactly those pieces. */
  function Join(parts: seq<string>, sep: char): (r: string)
    ensures parts != [] && (forall i :: 0 <= i < |parts| ==> sep !in parts[i]) ==> Split(r, sep) == parts
  {
    if parts == [] then []
    else if |parts| == 1 then
      if sep in parts[0] then parts[0] else SplitNoSeparator(parts[0], sep); parts[0]
    else
      var rest := Join(parts[1..], sep);
      assert forall i :: 0 <= i < |parts[1..]| ==> parts[1..][i] == parts[i + 1];
      if sep in parts[0] then parts[0] + [sep] + rest
      else SplitAfterPiece(parts[0], sep, rest); parts[0] + [sep] + rest
  }

  /** Joining the pieces again gives back the split string. */
  lemma {:induction false} JoinSplit(s: string, sep: char)
    ensures Join(Split(s, sep), sep) == s
  {
    if s != [] {
      var rest := Split(s[1..], sep);
      JoinSplit(s[1..], sep);
      if s[0] == sep {
        assert Split(s, sep) == [[]] + rest;
        assert ([[]] + rest)[1..] == rest;
      } else {
        var parts := Split(s, sep);
        assert parts == [[s[0]] + rest[0]] + rest[1..];
        if |rest| == 1 {
          assert parts == [[s[0]] + rest[0]];
        } else {
          assert parts[1..] == rest[1..];
          assert Join(parts, sep) == [s[0]] + rest[0] + [sep] + Join(rest[1..], sep);
        }
      }
    }
  }

  /** A separator-free prefix followed by the separator becomes the first
      piece. */
  lemma {:induction false} SplitAfterPiece(a: string, sep: char, rest: string)
    requires sep !in a
    ensures Split(a + [sep] + rest, sep) == [a] + Split(rest, sep)
  {
    if a != [] {
      assert sep !in a[1..] by {
        forall i | 0 <= i < |a[1..]| ensures a[1..][i] != sep { assert a[1..][i] == a[i + 1]; }
      }
      SplitAfterPiece(a[1..], sep, rest);
      var x := a + [sep] + rest;
      assert x[0] == a[0] && x[1..] == a[1..] + [sep] + rest;
      var r := Split(x[1..], sep);
      assert r == [a[1..]] + Split(rest, sep);
      assert [a[0]] + r[0] == a;
      assert r[1..] == Split(rest, sep);
    } else {
      assert a + [sep] + rest == [sep] + rest;
      assert ([sep] + rest)[1..] == rest;
    }
  }

  lemma {:induction false} SplitNoSeparator(a: string, sep: char)
    requires sep !in a
    ensures Split(a, sep) == [a]
  {
    if a != [] {
      assert sep !in a[1..] by {
        forall i | 0 <= i < |a[1..]| ensures a[1..][i] != sep { assert a[1..][i] == a[i + 1]; }
      }
      SplitNoSeparator(a[1..], sep);
      assert [a[0]] + a[1..] == a;
    }
  }

  /** Three separator-free pieces joined by the separator split back into
      exactly those three pieces. */
  lemma SplitThree(a: string, b: string, c: string, sep: char)
    requires sep !in a && sep !in b && sep !in c
    ensures Split(a + [sep] + b + [sep] + c, sep) == [a, b, c]
  {
    assert a + [sep] + b + [sep] + c == a + [sep] + (b + [sep] + c);
    SplitAfterPiece(a, sep, b + [sep] + c);
    SplitAfterPiece(b, sep, c);
    SplitNoSeparator(c, sep);
  }

  /** `s.replace(/from/g, to)`: every `from` becomes `to`, every other
      character stays where it is. */
  function ReplaceAll(s: string, from: char, to: char): (r: string)
    ensures |r| == |s|
    ensures forall i :: 0 <= i < |s| ==> r[i] == (if s[i] == from then to else s[i])
  {
    if s == [] then []
    else [if s[0] == from then to else s[0]] + ReplaceAll(s[1..], from, to)
  }

  /** Index of the first `c` in `s`, or -1 (`s.indexOf(c)`). */
  function IndexOf(s: string, c: char): (k: int)
    ensures -1 <= k < |s|
    ensures k == -1 <==> c !in s
    ensures k >= 0 ==> s[k] == c && c !in s[..k]
  {
    if s == [] then -1
    else if s[0] == c then 0
    else
      var k := IndexOf(s[1..], c);
      assert k >= 0 ==> s[1..][..k] == s[1..k + 1];
      if k == -1 then -1 else k + 1
  }

  /** `s.replace(from, to)` with a string pattern: only the first `from` is
      replaced. */
  function ReplaceFirst(s: string, from: char, to: char): (r: string)
    ensures |r| == |s|
    ensures forall i :: 0 <= i < |s| ==>
              r[i] == (if i == IndexOf(s, from) then to else s[i])
  {
    if s == [] then []
    else if s[0] == from then [to] + s[1..]
    else [s[0]] + ReplaceFirst(s[1..], from, to)
  }

  /** Only the first occurrence changes: the text before it, which does not
      contain `from`, and everything after it are kept. */
  lemma {:induction false} ReplaceFirstSplit(before: string, from: char, to: char, after: string)
    requires from !in before
    ensures ReplaceFirst(before + [from] + after, from, to) == before + [to] + after
  {
    if before != [] {
      assert (before + [from] + after)[1..] == before[1..] + [from] + after;
      ReplaceFirstSplit(before[1..], from, to, after);
    }
  }

  /** `s.slice(-n)`: the last `n` characters, or all of `s` when shorter. */
  function SliceLast(s: string, n: nat): (r: string)
    ensures |r| == if |s| < n then |s| else n
    ensures r == s[|s| - |r|..]
  {
    if |s| <= n then s else s[|s| - n..]
  }

  /** The characters `String.prototype.trim` removes: the WhiteSpace and
      LineTerminator code points of ECMA-262. */
  predicate IsJsWhitespace(c: char)
  {
    var n := c as int;
    n == 0x09 || n == 0x0A || n == 0x0B || n == 0x0C || n == 0x0D || n == 0x20
    || n == 0xA0 || n == 0x1680 || (0x2000 <= n <= 0x200A)
    || n == 0x2028 || n == 0x2029 || n == 0x202F || n == 0x205F
    || n == 0x3000 || n == 0xFEFF
  }

  function TrimStart(s: string): (r: string)
    ensures |r| <= |s| && r == s[|s| - |r|..]
    ensures forall i :: 0 <= i < |s| - |r| ==> IsJsWhitespace(s[i])
    ensures r != [] ==> !IsJsWhitespace(r[0])
  {
    if s != [] && IsJsWhitespace(s[0]) then TrimStart(s[1..]) else s
  }

  function TrimEnd(s: string): (r: string)
    ensures |r| <= |s| && r == s[..|r|]
    ensures forall i :: |r| <= i < |s| ==> IsJsWhitespace(s[i])
    ensures r != [] ==> !IsJsWhitespace(r[|r| - 1])
  {
    if s != [] && IsJsWhitespace(s[|s| - 1]) then TrimEnd(s[..|s| - 1]) else s
  }

  /** `s.trim()`: a piece of `s` that neither starts nor ends with white
      space; a string that already does not is returned unchanged. */
  function Trim(s: string): (r: string)
    ensures r != [] ==> !IsJsWhitespace(r[0]) && !IsJsWhitespace(r[|r| - 1])
    ensures s != [] && !IsJsWhitespace(s[0]) && !IsJsWhitespace(s[|s| - 1]) ==> r == s
  {
    var t := TrimStart(s);
    assert t != [] ==> t[0] == s[|s| - |t|];
    TrimEnd(t)
  }

  /** `r` is the piece of `s` starting at `i`, with only white space before
      and after it. */
  predicate Piece(s: string, r: string, i: int)
  {
    0 <= i && i + |r| <= |s| && r == s[i..i + |r|]
    && (forall k :: 0 <= k < i ==> IsJsWhitespace(s[k]))
    && (forall k :: i + |r| <= k < |s| ==> IsJsWhitespace(s[k]))
  }

  /** `trim()` removes leading and trailing white space and nothing else. */
  lemma TrimRemovesOnlyEnds(s: string)
    ensures exists i :: Piece(s, Trim(s), i)
  {
    var t := TrimStart(s);
    var i := |s| - |t|;
    var r := Trim(s);
    assert t == s[i..];
    assert r == TrimEnd(t);
    assert r == s[i..i + |r|];
    assert forall k :: i + |r| <= k < |s| ==> s[k] == t[k - i];
    assert Piece(s, r, i);
  }

  /** A string trims to the empty string exactly when every character of it
      is white space. */
  lemma TrimEmpty(s: string)
    ensures Trim(s) == [] <==> forall i :: 0 <= i < |s| ==> IsJsWhitespace(s[i])
  {
    var t := TrimStart(s);
    if Trim(s) == [] {
      assert t == [];
    } else {
      if t != [] {
        assert !IsJsWhitespace(s[|s| - |t|]);
      }
    }
  }
}
