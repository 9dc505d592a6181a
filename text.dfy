/**
 * The pieces of Go's strings, strconv, unicode and unicode/utf8 packages that the bot's logic
 * relies on. A Dafny `char` stands for one rune of a (valid UTF-8) Go string; where the Go code
 * counts bytes, `Utf8Len` gives the byte count.
 */
module Text {
  import opened Wrappers

  const MaxInt64: int := 0x7FFF_FFFF_FFFF_FFFF
  const MinInt64: int := -0x8000_0000_0000_0000

  /** Every character of s[lo..hi] satisfies p. */
  predicate All(s: string, lo: int, hi: int, p: char -> bool)
    requires 0 <= lo <= hi <= |s|
  {
    forall k :: lo <= k < hi ==> p(s[k])
  }

  /** unicode.IsSpace: the Latin-1 white space and the White_Space runes above Latin-1. */
  predicate IsSpace(c: char) {
    || c == '\t' || c == '\n' || c == '\U{B}' || c == '\U{C}' || c == '\r' || c == ' '
    || c == '\U{85}' || c == '\U{A0}' || c == '\U{1680}'
    || ('\U{2000}' <= c <= '\U{200A}')
    || c == '\U{2028}' || c == '\U{2029}' || c == '\U{202F}' || c == '\U{205F}' || c == '\U{3000}'
  }

  predicate NotSpace(c: char) {
    !IsSpace(c)
  }

  /** `\d` in Go's regexp syntax, and the digits strconv accepts in base 10. */
  predicate IsDigit(c: char) {
    '0' <= c <= '9'
  }

  /** A property of every character of a range is a property of every character of the slice. */
  lemma AllSlice(s: string, lo: int, hi: int, p: char -> bool)
    requires 0 <= lo <= hi <= |s| && All(s, lo, hi, p)
    ensures All(s[lo..hi], 0, hi - lo, p)
  {
    forall k | 0 <= k < hi - lo ensures p(s[lo..hi][k]) {
      assert s[lo..hi][k] == s[lo + k];
    }
  }

  /** A part of s that is all p makes that range of s all p. */
  lemma AllPart(s: string, lo: int, part: string, p: char -> bool)
    requires 0 <= lo && lo + |part| <= |s| && s[lo..lo + |part|] == part
    requires All(part, 0, |part|, p)
    ensures All(s, lo, lo + |part|, p)
  {
    forall k | lo <= k < lo + |part| ensures p(s[k]) {
      assert s[k] == part[k - lo];
    }
  }

  /** The end of the longest run of p-characters of s that starts at i. */
  function RunEnd(s: string, i: nat, p: char -> bool): (j: nat)
    requires i <= |s|
    ensures i <= j <= |s| && All(s, i, j, p)
    ensures j == |s| || !p(s[j])
    decreases |s| - i
  {
    if i < |s| && p(s[i]) then RunEnd(s, i + 1, p) else i
  }

  /** The start of the longest run of p-characters of s that ends at j. */
  function RunStart(s: string, j: nat, p: char -> bool): (i: nat)
    requires j <= |s|
    ensures i <= j && All(s, i, j, p)
    ensures i == 0 || !p(s[i - 1])
  {
    if j > 0 && p(s[j - 1]) then RunStart(s, j - 1, p) else j
  }

  /** A run that is all p and is followed by a non-p character (or the end) is the longest one. */
  lemma RunEndUnique(s: string, i: nat, j: nat, p: char -> bool)
    requires i <= j <= |s| && All(s, i, j, p)
    requires j == |s| || !p(s[j])
    ensures RunEnd(s, i, p) == j
  {
  }

  /** The index of the first non-space character of s, or |s| when there is none. */
  function LeadingSpaces(s: string): (lo: nat)
    ensures lo <= |s| && All(s, 0, lo, IsSpace)
    ensures lo == |s| || !IsSpace(s[lo])
  {
    RunEnd(s, 0, IsSpace)
  }

  /**
   * strings.TrimSpace: what is left of s once its leading and trailing white space is cut off.
   * The result starts at the first non-space character and is followed by spaces only.
   */
  function TrimSpace(s: string): (r: string)
    ensures LeadingSpaces(s) + |r| <= |s|
    ensures r == s[LeadingSpaces(s)..LeadingSpaces(s) + |r|]
    ensures All(s, LeadingSpaces(s) + |r|, |s|, IsSpace)
    ensures r == [] || (!IsSpace(r[0]) && !IsSpace(r[|r| - 1]))
  {
    var lo := LeadingSpaces(s);
    var hi := RunStart(s, |s|, IsSpace);
    if hi <= lo then
      []
    else
      s[lo..hi]
  }

  /** The text is blank exactly when trimming leaves nothing. */
  lemma TrimSpaceEmpty(s: string)
    ensures TrimSpace(s) == [] <==> All(s, 0, |s|, IsSpace)
  {
  }

  /** Text that neither starts nor ends with white space is its own trimming. */
  lemma TrimSpaceUntouched(s: string)
    requires s != [] && !IsSpace(s[0]) && !IsSpace(s[|s| - 1])
    ensures TrimSpace(s) == s
  {
    RunEndUnique(s, 0, 0, IsSpace);
  }

  /** Trimming twice is trimming once. */
  lemma TrimSpaceIdempotent(s: string)
    ensures TrimSpace(TrimSpace(s)) == TrimSpace(s)
  {
    var r := TrimSpace(s);
    if r != [] {
      RunEndUnique(r, 0, 0, IsSpace);
      assert LeadingSpaces(r) == 0;
      var rr := TrimSpace(r);
      assert rr == r[..|rr|];
    }
  }

  /** strings.Fields: the maximal runs of non-space characters of s, in order. */
  function Fields(s: string): (r: seq<string>)
    ensures forall i :: 0 <= i < |r| ==> r[i] != [] && All(r[i], 0, |r[i]|, NotSpace)
    ensures r == [] <==> All(s, 0, |s|, IsSpace)
    ensures r != [] ==>
      && LeadingSpaces(s) + |r[0]| <= |s|
      && r[0] == s[LeadingSpaces(s)..LeadingSpaces(s) + |r[0]|]
      && (LeadingSpaces(s) + |r[0]| == |s| || IsSpace(s[LeadingSpaces(s) + |r[0]|]))
    decreases |s|
  {
    var lo := LeadingSpaces(s);
    if lo == |s| then
      []
    else
      var hi := RunEnd(s, lo, NotSpace);
      assert !IsSpace(s[lo]);
      var rest := Fields(s[hi..]);
      AllSlice(s, lo, hi, NotSpace);
      [s[lo..hi]] + rest
  }

  /** After the first field, the fields of s are the fields of the text that follows it. */
  lemma FieldsRest(s: string)
    requires Fields(s) != []
    ensures var end := RunEnd(s, LeadingSpaces(s), NotSpace);
      end == LeadingSpaces(s) + |Fields(s)[0]| && Fields(s)[1..] == Fields(s[end..])
  {
    var lo := LeadingSpaces(s);
    var hi := RunEnd(s, lo, NotSpace);
    assert Fields(s) == [s[lo..hi]] + Fields(s[hi..]);
  }

  /**
   * There is more than one field exactly when something other than white space follows the end
   * of the first one.
   */
  lemma FieldsMoreThanOne(s: string)
    ensures var end := RunEnd(s, LeadingSpaces(s), NotSpace);
      |Fields(s)| > 1 <==> !All(s, end, |s|, IsSpace)
  {
    var end := RunEnd(s, LeadingSpaces(s), NotSpace);
    if Fields(s) != [] {
      FieldsRest(s);
      var t := s[end..];
      assert All(t, 0, |t|, IsSpace) <==> All(s, end, |s|, IsSpace) by {
        assert forall i :: 0 <= i < |t| ==> t[i] == s[end + i];
      }
    }
  }

  /** The ASCII case of unicode.ToLower. */
  function LowerChar(c: char): char {
    if 'A' <= c <= 'Z' then (c as int + 32) as char else c
  }

  /** strings.ToLower on the ASCII letters; every other rune is kept. */
  function AsciiLower(s: string): (r: string)
    ensures |r| == |s|
  {
    if s == [] then [] else [LowerChar(s[0])] + AsciiLower(s[1..])
  }

  /** Lower-casing works rune by rune: the k-th rune of the result is the k-th rune, lower-cased. */
  lemma {:induction false} AsciiLowerAt(s: string, k: int)
    requires 0 <= k < |s|
    ensures AsciiLower(s)[k] == LowerChar(s[k])
  {
    if k > 0 {
      AsciiLowerAt(s[1..], k - 1);
      assert AsciiLower(s)[k] == AsciiLower(s[1..])[k - 1];
    }
  }

  /** Lower-casing a prefix is taking the prefix of the lower-cased text. */
  lemma {:induction false} AsciiLowerPrefix(s: string, hi: int)
    requires 0 <= hi <= |s|
    ensures AsciiLower(s)[..hi] == AsciiLower(s[..hi])
  {
    if hi > 0 {
      AsciiLowerPrefix(s[1..], hi - 1);
      assert s[..hi][1..] == s[1..][..hi - 1];
      assert AsciiLower(s)[..hi] == [LowerChar(s[0])] + AsciiLower(s[1..])[..hi - 1];
    }
  }

  /** Lower-casing a slice is slicing the lower-cased text. */
  lemma {:induction false} AsciiLowerSlice(s: string, lo: int, hi: int)
    requires 0 <= lo <= hi <= |s|
    ensures AsciiLower(s)[lo..hi] == AsciiLower(s[lo..hi])
  {
    if lo > 0 {
      var rest := s[1..];
      AsciiLowerSlice(rest, lo - 1, hi - 1);
      assert rest[lo - 1..hi - 1] == s[lo..hi] by {
        forall k | 0 <= k < hi - lo ensures rest[lo - 1..hi - 1][k] == s[lo..hi][k] {
          assert rest[lo - 1 + k] == s[lo + k];
        }
      }
      assert AsciiLower(s)[1..] == AsciiLower(rest);
      assert AsciiLower(s)[lo..hi] == AsciiLower(rest)[lo - 1..hi - 1];
    } else {
      AsciiLowerPrefix(s, hi);
    }
  }

  /** pat occurs in s at position j. */
  predicate OccursAt(s: string, pat: string, j: int) {
    0 <= j && j + |pat| <= |s| && s[j..j + |pat|] == pat
  }

  function IndexFrom(s: string, pat: string, i: nat): (r: int)
    requires i <= |s|
    ensures r == -1 || (i <= r && OccursAt(s, pat, r))
    ensures forall j :: i <= j && (r == -1 || j < r) ==> !OccursAt(s, pat, j)
    decreases |s| - i
  {
    if i + |pat| > |s| then -1
    else if s[i..i + |pat|] == pat then i
    else IndexFrom(s, pat, i + 1)
  }

  /** strings.Index: the first position at which pat occurs in s, or -1 when it does not occur. */
  function IndexOf(s: string, pat: string): (r: int)
    ensures r == -1 || OccursAt(s, pat, r)
    ensures forall j :: 0 <= j && (r == -1 || j < r) ==> !OccursAt(s, pat, j)
  {
    IndexFrom(s, pat, 0)
  }

  /** The number of bytes of c's UTF-8 encoding. */
  function RuneLen(c: char): nat {
    if c as int < 0x80 then 1
    else if c as int < 0x800 then 2
    else if c as int < 0x1_0000 then 3
    else 4
  }

  /** Go's len of a string: its length in bytes. */
  function Utf8Len(s: string): (n: nat)
    ensures |s| <= n <= 4 * |s|
  {
    if s == [] then 0 else RuneLen(s[0]) + Utf8Len(s[1..])
  }

  predicate IsAscii(c: char) {
    c as int < 0x80
  }

  /** For ASCII text the byte length and the rune count agree. */
  lemma {:induction false} Utf8LenAscii(s: string)
    requires All(s, 0, |s|, IsAscii)
    ensures Utf8Len(s) == |s|
  {
    if s != [] {
      assert All(s[1..], 0, |s| - 1, IsAscii) by {
        forall k | 0 <= k < |s| - 1 ensures IsAscii(s[1..][k]) {
          assert s[1..][k] == s[k + 1];
        }
      }
      Utf8LenAscii(s[1..]);
    }
  }

  function DigitValue(c: char): nat
    requires IsDigit(c)
  {
    c as int - '0' as int
  }

  function DigitChar(n: nat): (c: char)
    requires n < 10
    ensures IsDigit(c) && DigitValue(c) == n
  {
    ('0' as int + n) as char
  }

  /** The value of a string of decimal digits (most significant first). */
  function DecimalValue(d: string): nat
    requires All(d, 0, |d|, IsDigit)
  {
    if d == [] then 0 else 10 * DecimalValue(d[..|d| - 1]) + DigitValue(d[|d| - 1])
  }

  /** fmt's %d of a natural number: its shortest decimal digits. */
  function NatToDecimal(n: nat): (r: string)
    ensures r != [] && All(r, 0, |r|, IsDigit)
    ensures DecimalValue(r) == n
    ensures r[0] == '0' ==> r == "0"
  {
    if n < 10 then
      [DigitChar(n)]
    else
      var prefix := NatToDecimal(n / 10);
      var r := prefix + [DigitChar(n % 10)];
      assert r[..|r| - 1] == prefix;
      r
  }

  /** fmt's %d of an int: a minus sign for a negative value, then the digits of the magnitude. */
  function IntToDecimal(n: int): (r: string)
    ensures r != []
    ensures n >= 0 ==> r[0] != '-'
    ensures n < 0 ==> r[0] == '-'
  {
    if n < 0 then "-" + NatToDecimal(-n) else NatToDecimal(n)
  }

  /**
   * strconv.ParseInt(s, 10, 64): an optional sign, then one or more decimal digits and nothing
   * else, and a value that fits in an int64. strconv.Atoi on a 64-bit platform is the same
   * function (its short-input fast path accepts exactly the same strings).
   */
  function ParseInt64(s: string): (r: Option<int>)
    ensures r.Some? ==> MinInt64 <= r.value <= MaxInt64
  {
    if s == [] then None
    else
      var digits := if s[0] == '+' || s[0] == '-' then s[1..] else s;
      if digits == [] || !All(digits, 0, |digits|, IsDigit) then None
      else
        var v: int := if s[0] == '-' then -(DecimalValue(digits) as int) else DecimalValue(digits);
        if MinInt64 <= v <= MaxInt64 then Some(v) else None
  }

  /** Parsing what %d prints gives the number back, for every int64. */
  lemma ParseIntToDecimal(n: int)
    requires MinInt64 <= n <= MaxInt64
    ensures ParseInt64(IntToDecimal(n)) == Some(n)
  {
    var s := IntToDecimal(n);
    if n < 0 {
      assert s[1..] == NatToDecimal(-n);
    }
  }

  /** A run of digits parses to its value exactly when that value fits in an int64. */
  lemma ParseDigits(d: string)
    requires d != [] && All(d, 0, |d|, IsDigit)
    ensures ParseInt64(d) == if DecimalValue(d) <= MaxInt64 then Some(DecimalValue(d)) else None
  {
    assert IsDigit(d[0]);
  }
}
