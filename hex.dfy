/** Base16 as Go's encoding/hex does it (section 8 of RFC 4648, lower-case digits on output). */
module Hex {
  import opened Wrappers

  newtype byte = x: int | 0 <= x < 256

  predicate IsLowerHexDigit(c: char) {
    '0' <= c <= '9' || 'a' <= c <= 'f'
  }

  /** The n-th character of "0123456789abcdef". */
  function HexDigit(n: int): (c: char)
    requires 0 <= n < 16
    ensures IsLowerHexDigit(c)
  {
    if n < 10 then ('0' as int + n) as char else ('a' as int + n - 10) as char
  }

  /** hex's fromHexChar: either case is accepted when decoding. */
  function FromHexChar(c: char): (r: Option<int>)
    ensures r.Some? ==> 0 <= r.value < 16
  {
    if '0' <= c <= '9' then Some(c as int - '0' as int)
    else if 'a' <= c <= 'f' then Some(c as int - 'a' as int + 10)
    else if 'A' <= c <= 'F' then Some(c as int - 'A' as int + 10)
    else None
  }

  /** hex.EncodeToString: two lower-case digits per byte, high nibble first. */
  function EncodeToString(b: seq<byte>): (s: string)
    ensures |s| == 2 * |b|
    ensures forall i :: 0 <= i < |s| ==> IsLowerHexDigit(s[i])
  {
    if b == [] then ""
    else [HexDigit(b[0] as int / 16), HexDigit(b[0] as int % 16)] + EncodeToString(b[1..])
  }

  /** hex.DecodeString: fails on an odd length or a character that is not a hex digit. */
  function DecodeString(s: string): Option<seq<byte>>
    decreases |s|
  {
    if s == [] then Some([])
    else if |s| == 1 then None
    else
      match (FromHexChar(s[0]), FromHexChar(s[1]), DecodeString(s[2..]))
      case (Some(hi), Some(lo), Some(rest)) => Some([(hi * 16 + lo) as byte] + rest)
      case _ => None
  }

  lemma FromHexDigit(n: int)
    requires 0 <= n < 16
    ensures FromHexChar(HexDigit(n)) == Some(n)
  {
  }

  lemma ToHexDigit(c: char)
    requires IsLowerHexDigit(c)
    ensures FromHexChar(c).Some? && HexDigit(FromHexChar(c).value) == c
  {
  }

  lemma Nibbles(hi: int, lo: int)
    requires 0 <= hi < 16 && 0 <= lo < 16
    ensures (hi * 16 + lo) / 16 == hi && (hi * 16 + lo) % 16 == lo
  {
  }

  /** Decoding an encoding gives back the bytes. */
  lemma {:induction false} DecodeEncode(b: seq<byte>)
    ensures DecodeString(EncodeToString(b)) == Some(b)
  {
    if b != [] {
      var s := EncodeToString(b);
      assert s[2..] == EncodeToString(b[1..]);
      DecodeEncode(b[1..]);
      FromHexDigit(b[0] as int / 16);
      FromHexDigit(b[0] as int % 16);
      assert [b[0]] + b[1..] == b;
    }
  }

  /** Every even-length string of lower-case hex digits is the encoding of what it decodes to. */
  lemma {:induction false} EncodeDecode(s: string)
    requires |s| % 2 == 0
    requires forall i :: 0 <= i < |s| ==> IsLowerHexDigit(s[i])
    ensures DecodeString(s).Some?
    ensures EncodeToString(DecodeString(s).value) == s
  {
    if s != [] {
      var t := s[2..];
      forall i | 0 <= i < |t| ensures IsLowerHexDigit(t[i]) {
        assert t[i] == s[i + 2];
      }
      EncodeDecode(t);
      ToHexDigit(s[0]);
      ToHexDigit(s[1]);
      var hi := FromHexChar(s[0]).value;
      var lo := FromHexChar(s[1]).value;
      var rest := DecodeString(t).value;
      var b := (hi * 16 + lo) as byte;
      assert DecodeString(s) == Some([b] + rest);
      Nibbles(hi, lo);
      assert ([b] + rest)[1..] == rest;
      assert EncodeToString([b] + rest) == [HexDigit(hi), HexDigit(lo)] + EncodeToString(rest);
      assert s == [s[0], s[1]] + t;
    }
  }
}
