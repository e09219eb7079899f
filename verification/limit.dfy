/** Head/tail truncation of logged bodies (`limitString`). */
module Limit {
  import opened Wrappers
  import opened Bytes

  /** The separator put between the kept head and tail: "\n---- skipped ----\n", 19 bytes. */
  const Marker: seq<byte> := Ascii("\n---- skipped ----\n")

  lemma MarkerLength()
    ensures |Marker| == 19
  {
  }

  /** Go's `n / 2`: integer division truncating toward zero (not Dafny's Euclidean `/`). */
  function GoHalf(n: int): (h: int)
    ensures n >= 0 ==> 0 <= n - 2 * h <= 1
    ensures n < 0 ==> -1 <= n - 2 * h <= 0
  {
    if n >= 0 then n / 2 else -((-n) / 2)
  }

  /**
   * `limitString(str, size)`. A string no longer than `size` comes back as it is; a longer one
   * keeps its first and last `size/2` bytes around the marker. `None` is the run-time panic of
   * the Go slice expression, which happens exactly when `size/2` is negative, i.e. `size <= -2`.
   */
  function LimitString(s: seq<byte>, size: int): (r: Option<seq<byte>>)
    ensures |s| <= size ==> r == Some(s)
    ensures r.None? <==> size <= -2
    ensures |s| > size && r.Some? ==>
      var h := GoHalf(size);
      && 0 <= h <= |s|
      && |r.value| == 2 * h + |Marker|
      && r.value[..h] == s[..h]
      && r.value[h..h + |Marker|] == Marker
      && r.value[h + |Marker|..] == s[|s| - h..]
  {
    if |s| > size then
      var h := GoHalf(size);
      if 0 <= h <= |s| then Some(s[..h] + Marker + s[|s| - h..]) else None
    else
      Some(s)
  }

  /** The kept head is a prefix of the input and the kept tail a suffix of it, both `size/2` long. */
  lemma TruncationKeepsHeadAndTail(s: seq<byte>, size: int)
    requires 0 <= size < |s|
    ensures LimitString(s, size).Some?
    ensures var r := LimitString(s, size).value;
      && |r| == 2 * (size / 2) + 19
      && r == s[..size / 2] + Marker + s[|s| - size / 2..]
  {
    MarkerLength();
  }

  /** An odd limit keeps one byte fewer than the limit: `2*(size/2) == size - 1`. */
  lemma OddLimitDropsOneByte(s: seq<byte>, size: int)
    requires 0 <= size < |s| && size % 2 == 1
    ensures |LimitString(s, size).value| == size - 1 + |Marker|
  {
  }

  /**
   * Truncation can make the logged text LONGER than the input: whenever the input is at most
   * `2*(size/2) + 18` bytes, the 19-byte marker outweighs what was dropped.
   */
  lemma TruncationMayGrow(s: seq<byte>, size: int)
    requires 0 <= size < |s|
    ensures |LimitString(s, size).value| > |s| <==> |s| < 2 * (size / 2) + 19
  {
    MarkerLength();
  }

  /**
   * `limitString` returns its input unchanged exactly when no truncation happened, or when the
   * input already has the truncated shape: `2*(size/2) + 19` bytes with the marker at `size/2`.
   */
  lemma {:induction false} UnchangedIff(s: seq<byte>, size: int)
    requires size >= 0
    ensures LimitString(s, size) == Some(s) <==>
      (|s| <= size || (|s| == 2 * (size / 2) + |Marker| && s[size / 2..size / 2 + |Marker|] == Marker))
  {
    var h := size / 2;
    if |s| > size && |s| == 2 * h + |Marker| && s[h..h + |Marker|] == Marker {
      var r := LimitString(s, size).value;
      assert s == s[..h] + s[h..h + |Marker|] + s[h + |Marker|..];
      assert r == r[..h] + r[h..h + |Marker|] + r[h + |Marker|..];
      assert s[|s| - h..] == s[h + |Marker|..];
    }
  }

  /** The worked example: limit 10 on "0123456789ABCDEF" logs "01234", the marker, then "BCDEF". */
  lemma SixteenBytesAtLimitTen()
    ensures LimitString(Ascii("0123456789ABCDEF"), 10) == Some(Ascii("01234") + Marker + Ascii("BCDEF"))
  {
    var input := "0123456789ABCDEF";
    var s := Ascii(input);
    TruncationKeepsHeadAndTail(s, 10);
    AsciiSlice(input, 0, 5);
    AsciiSlice(input, 11, 16);
    assert input[0..5] == "01234";
    assert input[11..16] == "BCDEF";
    assert s[..10 / 2] == Ascii("01234");
    assert s[|s| - 10 / 2..] == Ascii("BCDEF");
  }
}
