/** Go byte strings. Go's `len` and slicing on `string` count bytes, so do we. */
module Bytes {

  /** One Go `byte`. */
  type byte = x: int | 0 <= x < 256

  /** True when every character of `s` is 7-bit ASCII, so that it is one byte in UTF-8. */
  predicate IsAscii(s: string) {
    forall i :: 0 <= i < |s| ==> s[i] as int < 128
  }

  /** The UTF-8 bytes of an ASCII string literal. */
  function Ascii(s: string): (b: seq<byte>)
    requires IsAscii(s)
    ensures |b| == |s|
    ensures forall i :: 0 <= i < |s| ==> b[i] == s[i] as int
  {
    seq(|s|, i requires 0 <= i < |s| => s[i] as int)
  }

  lemma AsciiSlice(s: string, i: int, j: int)
    requires IsAscii(s) && 0 <= i <= j <= |s|
    ensures IsAscii(s[i..j]) && Ascii(s)[i..j] == Ascii(s[i..j])
  {
  }
}
