// Byte strings, shared by every module that looks at what travels on a wire.
module Bytes {

  // One byte, spelled as the character with that code.
  type byte = c: char | c as int < 256 witness '\0'

  type bytes = seq<byte>

  function Repeat(unit: bytes, n: nat): bytes {
    if n == 0 then [] else unit + Repeat(unit, n - 1)
  }

  lemma {:induction false} RepeatGrowsAtEnd(unit: bytes, n: nat)
    ensures Repeat(unit, n + 1) == Repeat(unit, n) + unit
  {
    if n == 0 {
      assert unit + [] == [] + unit;
    } else {
      RepeatGrowsAtEnd(unit, n - 1);
      assert unit + (Repeat(unit, n - 1) + unit) == (unit + Repeat(unit, n - 1)) + unit;
    }
  }

  predicate IsLineBreak(b: byte) { b == '\n' || b == '\r' }

  predicate SingleLine(s: bytes) {
    forall i :: 0 <= i < |s| ==> !IsLineBreak(s[i])
  }

  // ---------- blanks, as Go's unicode.IsSpace has them ----------

  predicate IsSpace(b: byte) { b in {' ', '\t', '\n', '\r', '\U{0B}', '\U{0C}'} }

  // U+0085, U+00A0, U+1680, U+2000 to U+200A, U+2028, U+2029, U+202F, U+205F
  // and U+3000, in UTF-8.
  predicate IsWideSpace(s: bytes) {
    || s == ['\U{C2}', '\U{85}'] || s == ['\U{C2}', '\U{A0}']
    || s == ['\U{E1}', '\U{9A}', '\U{80}'] || s == ['\U{E2}', '\U{81}', '\U{9F}'] || s == ['\U{E3}', '\U{80}', '\U{80}']
    || (|s| == 3 && s[..2] == ['\U{E2}', '\U{80}']
        && ('\U{80}' <= s[2] <= '\U{8A}' || s[2] in {'\U{A8}', '\U{A9}', '\U{AF}'}))
  }

  // How many bytes the blank at the front takes, or 0.
  function SpaceAhead(s: bytes): (n: nat)
    ensures n <= |s|
  {
    if s != [] && IsSpace(s[0]) then 1
    else if |s| >= 2 && IsWideSpace(s[..2]) then 2
    else if |s| >= 3 && IsWideSpace(s[..3]) then 3
    else 0
  }

  // And the one at the end.
  function SpaceBehind(s: bytes): (n: nat)
    ensures n <= |s|
  {
    if s != [] && IsSpace(s[|s| - 1]) then 1
    else if |s| >= 2 && IsWideSpace(s[|s| - 2..]) then 2
    else if |s| >= 3 && IsWideSpace(s[|s| - 3..]) then 3
    else 0
  }

  function TrimLeft(s: bytes): bytes {
    if SpaceAhead(s) > 0 then TrimLeft(s[SpaceAhead(s)..]) else s
  }

  function TrimRight(s: bytes): bytes {
    if SpaceBehind(s) > 0 then TrimRight(s[..|s| - SpaceBehind(s)]) else s
  }

  function TrimSpace(s: bytes): bytes { TrimRight(TrimLeft(s)) }

  // ---------- quotes ----------

  const QUOTE: byte := '"'

  function UntilQuote(s: bytes): (r: bytes)
    ensures |r| <= |s|
  {
    if s == [] || s[0] == QUOTE then [] else [s[0]] + UntilQuote(s[1..])
  }

  lemma {:induction false} UntilQuoteStops(v: bytes, rest: bytes)
    requires QUOTE !in v
    ensures UntilQuote(v + [QUOTE] + rest) == v
  {
    if v == [] {
      assert (v + [QUOTE] + rest)[0] == QUOTE;
    } else {
      assert (v + [QUOTE] + rest)[1..] == v[1..] + [QUOTE] + rest;
      UntilQuoteStops(v[1..], rest);
      assert v[0] in v;
    }
  }
}
