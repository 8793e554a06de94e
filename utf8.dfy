/**
 * Rust strings are UTF-8 byte sequences: `str::len` counts bytes and
 * `str::as_bytes` yields them. This module gives the byte view of a Dafny
 * string (a sequence of Unicode scalar values), following the UTF-8 scheme
 * of RFC 3629, section 3.
 */
module Utf8 {

  type byte = x: int | 0 <= x < 0x100

  /** A continuation byte: 10xxxxxx. */
  predicate IsContinuation(b: byte) {
    0x80 <= b < 0xC0
  }

  /** The UTF-8 encoding of one scalar value. The lead byte announces how many
      bytes follow, every other byte is a continuation byte, and only ASCII
      characters take a single byte, which is the character itself. */
  function EncodeChar(ch: char): (bs: seq<byte>)
    ensures 1 <= |bs| <= 4
    ensures |bs| == 1 <==> (ch as int) < 0x80
    ensures |bs| == 1 ==> bs[0] == ch as int
    ensures |bs| == 2 ==> 0xC2 <= bs[0] < 0xE0
    ensures |bs| == 3 ==> 0xE0 <= bs[0] < 0xF0
    ensures |bs| == 4 ==> 0xF0 <= bs[0] < 0xF5
    ensures forall i :: 1 <= i < |bs| ==> IsContinuation(bs[i])
  {
    var c := ch as int;
    if c < 0x80 then
      [c]
    else if c < 0x800 then
      [0xC0 + c / 0x40, 0x80 + c % 0x40]
    else if c < 0x1_0000 then
      [0xE0 + c / 0x1000, 0x80 + (c / 0x40) % 0x40, 0x80 + c % 0x40]
    else
      [0xF0 + c / 0x4_0000, 0x80 + (c / 0x1000) % 0x40, 0x80 + (c / 0x40) % 0x40, 0x80 + c % 0x40]
  }

  /** The bytes of a string, as `str::as_bytes` gives them. Each character
      takes between one and four bytes. */
  function Encode(s: string): (bs: seq<byte>)
    ensures |s| <= |bs| <= 4 * |s|
    ensures |bs| == 0 <==> |s| == 0
  {
    if s == [] then [] else EncodeChar(s[0]) + Encode(s[1..])
  }

  predicate IsAscii(s: string) {
    forall i :: 0 <= i < |s| ==> (s[i] as int) < 0x80
  }

  /** An ASCII string is its own encoding, one byte per character, so its
      byte length is its character count. */
  lemma {:induction false} AsciiEncoding(s: string)
    requires IsAscii(s)
    ensures |Encode(s)| == |s|
    ensures forall i :: 0 <= i < |s| ==> Encode(s)[i] == s[i] as int
  {
    if s != [] {
      AsciiEncoding(s[1..]);
    }
  }

  /** Conversely, a string whose byte length equals its character count is
      ASCII. */
  lemma {:induction false} SameLengthOnlyAscii(s: string)
    requires |Encode(s)| == |s|
    ensures IsAscii(s)
  {
    if s != [] {
      assert |Encode(s[1..])| >= |s[1..]|;
      SameLengthOnlyAscii(s[1..]);
      forall i | 0 <= i < |s| ensures (s[i] as int) < 0x80 {
        if i > 0 { assert s[i] == s[1..][i - 1]; }
      }
    }
  }
}
