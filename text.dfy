/**
 * The string primitives of the Rust standard library that the program's
 * decisions depend on: `str::trim`, ASCII lowercasing, `str::contains`,
 * `u64`/`usize` printing and `FromStr` parsing, and UTF-8 byte offsets.
 */
module Text {
  import opened Wrappers

  /** `char::is_whitespace`: the characters with the Unicode White_Space property. */
  predicate IsWhitespace(c: char) {
    || ('\U{0009}' <= c <= '\U{000D}')
    || c == ' ' || c == '\U{0085}' || c == '\U{00A0}' || c == '\U{1680}'
    || ('\U{2000}' <= c <= '\U{200A}')
    || c == '\U{2028}' || c == '\U{2029}' || c == '\U{202F}' || c == '\U{205F}' || c == '\U{3000}'
  }

  predicate AllWhitespace(s: string) {
    forall i :: 0 <= i < |s| ==> IsWhitespace(s[i])
  }

  /** `str::trim_start`: drops the leading whitespace. */
  function TrimStart(s: string): string {
    if s != [] && IsWhitespace(s[0]) then TrimStart(s[1..]) else s
  }

  /** `str::trim_end`: drops the trailing whitespace. */
  function TrimEnd(s: string): string {
    if s != [] && IsWhitespace(s[|s| - 1]) then TrimEnd(s[..|s| - 1]) else s
  }

  /** `str::trim`. */
  function Trim(s: string): string {
    TrimEnd(TrimStart(s))
  }

  /** `trim_start` keeps a suffix that does not start with whitespace, and drops only whitespace. */
  lemma {:induction false} TrimStartShape(s: string)
    ensures var r := TrimStart(s);
      && |r| <= |s| && r == s[|s| - |r|..]
      && (r != [] ==> !IsWhitespace(r[0]))
      && AllWhitespace(s[..|s| - |r|])
  {
    if s != [] && IsWhitespace(s[0]) {
      TrimStartShape(s[1..]);
      var r := TrimStart(s);
      assert s[..|s| - |r|] == [s[0]] + s[1..][..|s| - 1 - |r|];
    }
  }

  /** `trim_end` keeps a prefix that does not end with whitespace, and drops only whitespace. */
  lemma {:induction false} TrimEndShape(s: string)
    ensures var r := TrimEnd(s);
      && |r| <= |s| && r == s[..|r|]
      && (r != [] ==> !IsWhitespace(r[|r| - 1]))
      && AllWhitespace(s[|r|..])
  {
    if s != [] && IsWhitespace(s[|s| - 1]) {
      var n := |s| - 1;
      TrimEndShape(s[..n]);
      var r := TrimEnd(s);
      assert s[|r|..] == s[..n][|r|..] + [s[n]];
    }
  }

  /**
   * `trim` keeps an infix that neither starts nor ends with whitespace and
   * drops only whitespace around it; it is empty exactly for a blank string.
   */
  lemma TrimShape(s: string)
    ensures var r := Trim(s);
      && (r != [] ==> !IsWhitespace(r[0]) && !IsWhitespace(r[|r| - 1]))
      && (exists k :: 0 <= k <= |s| - |r| && s[k..k + |r|] == r &&
                     AllWhitespace(s[..k]) && AllWhitespace(s[k + |r|..]))
      && (r == [] <==> AllWhitespace(s))
  {
    TrimStartShape(s);
    var t := TrimStart(s);
    TrimEndShape(t);
    var r := Trim(s);
    var k := |s| - |t|;
    assert s[k..k + |r|] == r && s[k + |r|..] == t[|r|..];
    if r == [] {
      assert t == [] && s[..k] == s;
    } else {
      assert r[0] == s[k] && !IsWhitespace(s[k]);
    }
  }

  /** Leading whitespace is dropped up to the first other character, and no further. */
  lemma {:induction false} TrimStartSkips(ws: string, s: string)
    requires AllWhitespace(ws) && (s == [] || !IsWhitespace(s[0]))
    ensures TrimStart(ws + s) == s
  {
    if ws != [] {
      assert (ws + s)[1..] == ws[1..] + s;
      TrimStartSkips(ws[1..], s);
    } else {
      assert ws + s == s;
    }
  }

  /** Trailing whitespace is dropped back to the last other character, and no further. */
  lemma {:induction false} TrimEndSkips(s: string, ws: string)
    requires AllWhitespace(ws) && (s == [] || !IsWhitespace(s[|s| - 1]))
    ensures TrimEnd(s + ws) == s
  {
    if ws != [] {
      var n := |ws| - 1;
      assert (s + ws)[..|s + ws| - 1] == s + ws[..n];
      TrimEndSkips(s, ws[..n]);
    } else {
      assert s + ws == s;
    }
  }

  /** Trimming a padded word gives the word back. */
  lemma TrimPadded(left: string, s: string, right: string)
    requires AllWhitespace(left) && AllWhitespace(right)
    requires s != [] && !IsWhitespace(s[0]) && !IsWhitespace(s[|s| - 1])
    ensures Trim(left + s + right) == s
  {
    assert left + s + right == left + (s + right);
    TrimStartSkips(left, s + right);
    TrimEndSkips(s, right);
  }

  /** ASCII lowercasing of one character; every other character is left as it is. */
  function LowerAscii(c: char): char {
    if 'A' <= c <= 'Z' then (c as int + 32) as char else c
  }

  function Lowercase(s: string): string {
    seq(|s|, i requires 0 <= i < |s| => LowerAscii(s[i]))
  }

  predicate StartsWith(s: string, prefix: string) {
    |prefix| <= |s| && s[..|prefix|] == prefix
  }

  /** `str::contains` for a string pattern, as a scan over the start positions. */
  predicate Contains(s: string, pattern: string)
    decreases |s|
  {
    StartsWith(s, pattern) || (s != [] && Contains(s[1..], pattern))
  }

  /** The scan finds the pattern exactly when it occurs at some position. */
  lemma {:induction false} ContainsIffOccurs(s: string, pattern: string)
    ensures Contains(s, pattern) <==>
            exists i :: 0 <= i <= |s| - |pattern| && StartsWith(s[i..], pattern)
  {
    if s == [] {
      if exists i :: 0 <= i <= |s| - |pattern| && StartsWith(s[i..], pattern) {
        var i :| 0 <= i <= |s| - |pattern| && StartsWith(s[i..], pattern);
        assert i == 0 && s[i..] == s;
      }
    } else {
      ContainsIffOccurs(s[1..], pattern);
      if Contains(s, pattern) {
        if !StartsWith(s, pattern) {
          var j :| 0 <= j <= |s[1..]| - |pattern| && StartsWith(s[1..][j..], pattern);
          assert s[1..][j..] == s[j + 1..];
        } else {
          assert s[0..] == s;
        }
      } else {
        forall i | 0 <= i <= |s| - |pattern| ensures !StartsWith(s[i..], pattern) {
          if i == 0 {
            assert s[0..] == s;
          } else {
            assert s[1..][i - 1..] == s[i..];
          }
        }
      }
    }
  }

  // ---------------------------------------------------------------------------
  // Decimal numbers: `u64::to_string` and `u64::from_str` (also used for usize,
  // which is 64 bits wide on the targets the program is built for).

  const U64Max: nat := 0xFFFF_FFFF_FFFF_FFFF

  predicate IsDigit(c: char) {
    '0' <= c <= '9'
  }

  predicate AllDigits(s: string) {
    forall i :: 0 <= i < |s| ==> IsDigit(s[i])
  }

  function DigitChar(d: nat): char
    requires d < 10
  {
    ('0' as int + d) as char
  }

  /** The decimal rendering of a number, without sign or leading zeros. */
  function Decimal(n: nat): (r: string)
    ensures r != [] && AllDigits(r)
    ensures n >= 10 ==> r[0] != '0'
    decreases n
  {
    if n < 10 then [DigitChar(n)] else Decimal(n / 10) + [DigitChar(n % 10)]
  }

  function DigitsValue(s: string): nat
    requires AllDigits(s)
  {
    if s == [] then 0 else DigitsValue(s[..|s| - 1]) * 10 + (s[|s| - 1] as int - '0' as int)
  }

  lemma {:induction false} DecimalValue(n: nat)
    ensures DigitsValue(Decimal(n)) == n
    decreases n
  {
    if n >= 10 {
      var r := Decimal(n);
      assert r[..|r| - 1] == Decimal(n / 10);
      DecimalValue(n / 10);
    }
  }

  /**
   * `u64::from_str`: an optional leading '+', then at least one ASCII digit
   * (leading zeros allowed), with a value that fits in 64 bits.
   */
  function ParseU64(s: string): (r: Option<nat>)
    ensures r.Some? ==> r.value <= U64Max
  {
    var digits := if s != [] && s[0] == '+' then s[1..] else s;
    if digits != [] && AllDigits(digits) && DigitsValue(digits) <= U64Max
    then Some(DigitsValue(digits))
    else None
  }

  /** The length of the run of digits a string starts with. */
  function LeadingDigits(s: string): nat {
    if s != [] && IsDigit(s[0]) then 1 + LeadingDigits(s[1..]) else 0
  }

  /** A run of digits followed by anything that does not start with a digit is read back whole. */
  lemma {:induction false} LeadingDigitsOfNumber(digits: string, rest: string)
    requires AllDigits(digits) && (rest == [] || !IsDigit(rest[0]))
    ensures LeadingDigits(digits + rest) == |digits|
  {
    if digits != [] {
      assert (digits + rest)[1..] == digits[1..] + rest;
      LeadingDigitsOfNumber(digits[1..], rest);
    } else {
      assert digits + rest == rest;
    }
  }

  /** Printing a 64-bit number and parsing it back gives the number again. */
  lemma DecimalRoundTrip(n: nat)
    requires n <= U64Max
    ensures ParseU64(Decimal(n)) == Some(n)
  {
    DecimalValue(n);
  }

  /** Printed numbers determine the number: distinct numbers print differently. */
  lemma DecimalInjective(m: nat, n: nat)
    ensures Decimal(m) == Decimal(n) <==> m == n
  {
    if Decimal(m) == Decimal(n) {
      DecimalValue(m);
      DecimalValue(n);
    }
  }

  // ---------------------------------------------------------------------------
  // UTF-8 byte offsets: Rust slices strings by byte offset and panics when the
  // offset falls inside a character.

  function Utf8Width(c: char): nat {
    if c as int < 0x80 then 1
    else if c as int < 0x800 then 2
    else if c as int < 0x1_0000 then 3
    else 4
  }

  function Utf8Length(s: string): nat {
    if s == [] then 0 else Utf8Width(s[0]) + Utf8Length(s[1..])
  }

  /** `str::is_char_boundary`: byte offset `b` lies between two characters of `s`. */
  predicate IsCharBoundary(s: string, b: nat) {
    b == 0 || (s != [] && Utf8Width(s[0]) <= b && IsCharBoundary(s[1..], b - Utf8Width(s[0])))
  }

  /** `&s[..b]`: the characters in the first `b` bytes of the UTF-8 encoding. */
  function BytePrefix(s: string, b: nat): (r: string)
    requires IsCharBoundary(s, b)
    ensures |r| <= |s| && r == s[..|r|]
    ensures Utf8Length(r) == b
  {
    if b == 0 then [] else [s[0]] + BytePrefix(s[1..], b - Utf8Width(s[0]))
  }

  predicate IsAscii(s: string) {
    forall i :: 0 <= i < |s| ==> s[i] as int < 0x80
  }

  /** In an ASCII string every offset up to its length is a boundary, and bytes are characters. */
  lemma {:induction false} AsciiBoundaries(s: string, b: nat)
    requires IsAscii(s) && b <= |s|
    ensures Utf8Length(s) == |s|
    ensures IsCharBoundary(s, b) && BytePrefix(s, b) == s[..b]
  {
    if s != [] {
      assert IsAscii(s[1..]);
      AsciiBoundaries(s[1..], if b == 0 then 0 else b - 1);
      if b > 0 {
        assert [s[0]] + s[1..][..b - 1] == s[..b];
      }
    }
  }
}
