/**
 Bytes, and the decoding of one UTF-8 sequence (RFC 3629, section 4) with the
 fallback Go's decoder has: a malformed sequence yields the replacement rune and
 spends one byte.
 */
module Utf8 {
  /** A source byte, written as the character with that code. */
  type byte = c: char | c as int < 0x100

  const REPLACEMENT := 0xFFFD

  datatype Rune = Rune(code: int, size: nat)

  predicate Within(s: seq<byte>, i: nat, low: int, high: int) {
    i < |s| && low <= s[i] as int <= high
  }

  /** The low six bits of continuation byte `i`. */
  function Tail(s: seq<byte>, i: nat): int
    requires i < |s|
  {
    (s[i] as int) % 0x40
  }

  /** The rune at `o`; the second byte's range excludes overlong forms, surrogates and codes above 0x10FFFF. */
  function DecodeRune(s: seq<byte>, o: nat): (r: Rune)
    requires o < |s|
    ensures 1 <= r.size <= 4 && o + r.size <= |s|
    ensures 0 <= r.code <= 0x10FFFF && !(0xD800 <= r.code <= 0xDFFF)
    ensures r.size > 1 ==> r.code >= 0x80
    ensures s[o] as int < 0x80 ==> r == Rune(s[o] as int, 1)
  {
    var b := s[o] as int;
    if b < 0x80 then Rune(b, 1)
    else if 0xC2 <= b <= 0xDF && Within(s, o + 1, 0x80, 0xBF) then Rune((b - 0xC0) * 0x40 + Tail(s, o + 1), 2)
    else if 0xE0 <= b <= 0xEF
            && Within(s, o + 1, if b == 0xE0 then 0xA0 else 0x80, if b == 0xED then 0x9F else 0xBF)
            && Within(s, o + 2, 0x80, 0xBF) then
      Rune((b - 0xE0) * 0x1000 + Tail(s, o + 1) * 0x40 + Tail(s, o + 2), 3)
    else if 0xF0 <= b <= 0xF4
            && Within(s, o + 1, if b == 0xF0 then 0x90 else 0x80, if b == 0xF4 then 0x8F else 0xBF)
            && Within(s, o + 2, 0x80, 0xBF) && Within(s, o + 3, 0x80, 0xBF) then
      Rune((b - 0xF0) * 0x40000 + Tail(s, o + 1) * 0x1000 + Tail(s, o + 2) * 0x40 + Tail(s, o + 3), 4)
    else Rune(REPLACEMENT, 1)
  }
}
