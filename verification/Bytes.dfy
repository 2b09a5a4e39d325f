/** bytes.TrimSpace.  A text is a sequence of bytes, one character each; white space
    is what unicode.IsSpace accepts, in UTF-8 (RFC 3629). */
module Bytes {

  /** White space of one byte. */
  predicate Space(c: char) { c == ' ' || 9 <= c as int <= 13 }

  /** U+0085 and U+00A0. */
  predicate TwoByteSpace(a: char, b: char) { a as int == 0xC2 && (b as int == 0x85 || b as int == 0xA0) }

  /** U+1680, U+2000 to U+200A, U+2028, U+2029, U+202F, U+205F and U+3000. */
  predicate ThreeByteSpace(a: char, b: char, c: char) {
    var x, y, z := a as int, b as int, c as int;
    || (x == 0xE1 && y == 0x9A && z == 0x80)
    || (x == 0xE2 && y == 0x80 && (0x80 <= z <= 0x8A || z == 0xA8 || z == 0xA9 || z == 0xAF))
    || (x == 0xE2 && y == 0x81 && z == 0x9F)
    || (x == 0xE3 && y == 0x80 && z == 0x80)
  }

  /** The width of the white space a text begins with, or 0. */
  function Leading(s: string): (n: nat)
    ensures n <= |s|
  {
    if |s| >= 1 && Space(s[0]) then 1
    else if |s| >= 2 && TwoByteSpace(s[0], s[1]) then 2
    else if |s| >= 3 && ThreeByteSpace(s[0], s[1], s[2]) then 3
    else 0
  }

  /** The width of the white space a text ends with, or 0. */
  function Trailing(s: string): (n: nat)
    ensures n <= |s|
  {
    var e := |s|;
    if e >= 1 && Space(s[e - 1]) then 1
    else if e >= 2 && TwoByteSpace(s[e - 2], s[e - 1]) then 2
    else if e >= 3 && ThreeByteSpace(s[e - 3], s[e - 2], s[e - 1]) then 3
    else 0
  }

  function TrimLeft(s: string): string
    decreases |s|
  {
    if Leading(s) > 0 then TrimLeft(s[Leading(s)..]) else s
  }

  function TrimRight(s: string): string
    decreases |s|
  {
    if Trailing(s) > 0 then TrimRight(s[..|s| - Trailing(s)]) else s
  }

  function Trim(s: string): string { TrimRight(TrimLeft(s)) }

  predicate Trimmed(s: string) { Leading(s) == 0 && Trailing(s) == 0 }

  predicate AllSpace(s: string) { forall i :: 0 <= i < |s| ==> Space(s[i]) }

  lemma {:induction false} TrimRightSpaces(s: string, space: string)
    requires AllSpace(space) && Trimmed(s)
    ensures TrimRight(s + space) == s
    decreases |space|
  {
    var n := |space|;
    if n == 0 {
      assert s + space == s;
    } else {
      assert (s + space)[|s + space| - 1] == space[n - 1];
      assert (s + space)[..|s + space| - 1] == s + space[..n - 1];
      TrimRightSpaces(s, space[..n - 1]);
    }
  }

  /** Surrounding white space goes, and nothing else. */
  lemma TrimAround(before: string, s: string, after: string)
    requires AllSpace(before) && AllSpace(after) && Trimmed(s) && |s| > 0
    ensures Trim(before + s + after) == s
  {
    var tail := s + after;
    assert before + s + after == before + tail;
    forall i | 0 <= i < |tail| ensures tail[i] == if i < |s| then s[i] else after[i - |s|] {}
    assert Leading(tail) == 0;
    TrimLeftKeeps(before, tail);
    TrimRightSpaces(s, after);
  }

  lemma {:induction false} TrimLeftKeeps(space: string, s: string)
    requires AllSpace(space) && Leading(s) == 0
    ensures TrimLeft(space + s) == s
    decreases |space|
  {
    if |space| == 0 {
      assert space + s == s;
    } else {
      assert (space + s)[1..] == space[1..] + s;
      TrimLeftKeeps(space[1..], s);
    }
  }

  // ------------------------------------------------------------------- Unicode

  /** The code points with the property White_Space. */
  predicate WhiteSpace(cp: nat) {
    || 9 <= cp <= 13 || cp == 32 || cp == 0x85 || cp == 0xA0 || cp == 0x1680
    || 0x2000 <= cp <= 0x200A || cp == 0x2028 || cp == 0x2029 || cp == 0x202F || cp == 0x205F || cp == 0x3000
  }

  function Byte(n: nat): char
    requires n < 256
  {
    n as char
  }

  /** The encoding of a code point of the Basic Multilingual Plane (RFC 3629, section 3). */
  function Utf8(cp: nat): (s: string)
    requires cp < 0x10000
    ensures 1 <= |s| <= 3
  {
    if cp < 0x80 then [Byte(cp)]
    else if cp < 0x800 then [Byte(0xC0 + cp / 0x40), Byte(0x80 + cp % 0x40)]
    else [Byte(0xE0 + cp / 0x1000), Byte(0x80 + cp / 0x40 % 0x40), Byte(0x80 + cp % 0x40)]
  }

  /** A text begins, or ends, with white space exactly when its first, or last,
      character is white space; and that is what is taken off. */
  lemma SpaceIsWhiteSpace(cp: nat, rest: string)
    requires cp < 0x10000
    ensures Leading(Utf8(cp) + rest) == if WhiteSpace(cp) then |Utf8(cp)| else 0
    ensures Trailing(rest + Utf8(cp)) == if WhiteSpace(cp) then |Utf8(cp)| else 0
  {
    var s, r := Utf8(cp) + rest, rest + Utf8(cp);
    assert s[0] == Utf8(cp)[0] && r[|r| - 1] == Utf8(cp)[|Utf8(cp)| - 1];
    if cp >= 0x80 {
      assert s[1] == Utf8(cp)[1] && r[|r| - 2] == Utf8(cp)[|Utf8(cp)| - 2];
    }
    if cp >= 0x800 {
      assert s[2] == Utf8(cp)[2] && r[|r| - 3] == Utf8(cp)[0];
    }
  }
}
