/** Request identifiers: `generateToken` and `getRequestID`. */
module Token {
  import opened Wrappers
  import opened Bytes

  /** `generateToken` draws this many random bytes. */
  const TokenBytes := 16

  predicate IsLowerHexDigit(c: char) {
    '0' <= c <= '9' || 'a' <= c <= 'f'
  }

  /** True of the strings `%x` prints: lowercase hexadecimal digits only. */
  predicate IsLowerHex(s: string) {
    forall i :: 0 <= i < |s| ==> IsLowerHexDigit(s[i])
  }

  /** The numeric value of a lowercase hex digit. */
  function DigitValue(c: char): (n: int)
    requires IsLowerHexDigit(c)
    ensures 0 <= n < 16
  {
    if c <= '9' then c as int - '0' as int else c as int - 'a' as int + 10
  }

  /** The lowercase hex digit `%x` prints for a nibble. */
  function HexDigit(n: int): (c: char)
    requires 0 <= n < 16
    ensures IsLowerHexDigit(c) && DigitValue(c) == n
  {
    if n < 10 then ('0' as int + n) as char else ('a' as int + n - 10) as char
  }

  /**
   * `fmt.Sprintf("%x", b)`: every byte becomes two lowercase hex digits, high nibble first,
   * in byte order.
   */
  function Hex(b: seq<byte>): (r: string)
    ensures |r| == 2 * |b|
    ensures IsLowerHex(r)
    ensures forall i :: 0 <= i < |b| ==> r[2 * i] == HexDigit(b[i] / 16) && r[2 * i + 1] == HexDigit(b[i] % 16)
  {
    if |b| == 0 then ""
    else [HexDigit(b[0] / 16), HexDigit(b[0] % 16)] + Hex(b[1..])
  }

  /** Reads back what `Hex` prints: pairs of lowercase digits, high nibble first. */
  function Unhex(s: string): (r: Option<seq<byte>>)
    decreases |s|
  {
    if |s| == 0 then Some([])
    else if |s| == 1 || !IsLowerHexDigit(s[0]) || !IsLowerHexDigit(s[1]) then None
    else
      match Unhex(s[2..])
      case None => None
      case Some(rest) => Some([DigitValue(s[0]) * 16 + DigitValue(s[1])] + rest)
  }

  /** Printing then reading back gives the bytes: the token loses nothing. */
  lemma {:induction false} UnhexHex(b: seq<byte>)
    ensures Unhex(Hex(b)) == Some(b)
  {
    if |b| > 0 {
      var s := Hex(b);
      var hi := HexDigit(b[0] / 16);
      var lo := HexDigit(b[0] % 16);
      assert s == [hi, lo] + Hex(b[1..]);
      assert s[0] == hi && s[1] == lo && s[2..] == Hex(b[1..]);
      UnhexHex(b[1..]);
      assert DigitValue(hi) * 16 + DigitValue(lo) == b[0];
      assert Unhex(s) == Some([b[0]] + b[1..]);
      assert [b[0]] + b[1..] == b;
    }
  }

  /** Conversely, every string `Unhex` accepts is exactly the printing of what it reads. */
  lemma {:induction false} HexUnhex(s: string)
    requires Unhex(s).Some?
    ensures Hex(Unhex(s).value) == s
    decreases |s|
  {
    if |s| > 0 {
      HexUnhex(s[2..]);
      var b := Unhex(s).value;
      assert b[1..] == Unhex(s[2..]).value;
      var hi := DigitValue(s[0]);
      var lo := DigitValue(s[1]);
      assert b[0] / 16 == hi && b[0] % 16 == lo;
      HexDigitOfValue(s[0]);
      HexDigitOfValue(s[1]);
      assert s == [s[0], s[1]] + s[2..];
    }
  }

  /** The decoder accepts exactly the even-length lowercase hex strings: the image of `Hex`. */
  lemma {:induction false} UnhexAcceptsEvenHex(s: string)
    ensures Unhex(s).Some? <==> IsLowerHex(s) && |s| % 2 == 0
    decreases |s|
  {
    if |s| >= 2 {
      UnhexAcceptsEvenHex(s[2..]);
      if IsLowerHex(s) {
        assert IsLowerHex(s[2..]) by {
          forall i | 0 <= i < |s[2..]| ensures IsLowerHexDigit(s[2..][i]) {
            assert s[2..][i] == s[i + 2];
          }
        }
      }
      if Unhex(s).Some? {
        HexUnhex(s);
      }
    }
  }

  lemma HexDigitOfValue(c: char)
    requires IsLowerHexDigit(c)
    ensures HexDigit(DigitValue(c)) == c
  {
  }

  /** `generateToken`, with the bytes `crypto/rand` would have filled in passed as a parameter. */
  function GenerateToken(random: seq<byte>): (t: string)
    requires |random| == TokenBytes
    ensures |t| == 32 && IsLowerHex(t)
    ensures Unhex(t) == Some(random)
  {
    UnhexHex(random);
    Hex(random)
  }

  /**
   * `getRequestID`: the X-Request-ID header as the reverse proxy set it, or a generated token
   * when the header is missing or empty (Go's `Header.Get` yields "" for a missing header).
   */
  function GetRequestID(header: string, random: seq<byte>): (id: string)
    requires |random| == TokenBytes
    ensures header != "" ==> id == header
    ensures header == "" ==> |id| == 32 && IsLowerHex(id) && Unhex(id) == Some(random)
  {
    if header == "" then GenerateToken(random) else header
  }

  /** The header is echoed back exactly when it is non-empty; an id is never empty. */
  lemma RequestIDEchoesHeaderIff(header: string, random: seq<byte>)
    requires |random| == TokenBytes
    ensures GetRequestID(header, random) == header <==> header != ""
    ensures GetRequestID(header, random) != ""
  {
  }

  /** Two requests without the header get the same id only if they drew the same random bytes. */
  lemma GeneratedIdsDifferWithBytes(r1: seq<byte>, r2: seq<byte>)
    requires |r1| == TokenBytes && |r2| == TokenBytes
    ensures GetRequestID("", r1) == GetRequestID("", r2) <==> r1 == r2
  {
  }
}
