/**
 * The JavaScript string operations the dashboard relies on: `trim`, `\s` /
 * `\S` in regular expressions, `startsWith`, `includes`, `padStart`, and the
 * decimal rendering of integers by `String(n)` and template literals.
 */
module JsStrings {

  /** The single characters among WhiteSpace and LineTerminator of ECMA-262. */
  const WhitespaceChars: set<char> := {
    '\t', '\n', '\U{B}', '\U{C}', '\r', ' ', '\U{A0}', '\U{1680}',
    '\U{2028}', '\U{2029}', '\U{202F}', '\U{205F}', '\U{3000}', '\U{FEFF}'
  }

  /** WhiteSpace and LineTerminator of ECMA-262: what `trim` removes and `\s` matches. */
  predicate IsWhitespace(c: char) {
    c in WhitespaceChars || ('\U{2000}' <= c <= '\U{200A}')
  }

  /** Every character of `s` from position `lo` up to `hi` is whitespace. */
  predicate WhitespaceBetween(s: string, lo: int, hi: int)
    requires 0 <= lo && hi <= |s|
  {
    forall k :: lo <= k < hi ==> IsWhitespace(s[k])
  }

  /** How many whitespace characters follow position `i` of `s`. */
  function SpaceAfter(s: string, i: nat): (n: nat)
    requires i <= |s|
    ensures i + n <= |s| && WhitespaceBetween(s, i, i + n)
    ensures i + n < |s| ==> !IsWhitespace(s[i + n])
    decreases |s| - i
  {
    if i < |s| && IsWhitespace(s[i]) then 1 + SpaceAfter(s, i + 1) else 0
  }

  /** How many whitespace characters precede position `j` of `s`, counting
      no further back than `lo`. */
  function SpaceBefore(s: string, lo: nat, j: nat): (n: nat)
    requires lo <= j <= |s|
    ensures lo <= j - n && WhitespaceBetween(s, j - n, j)
    ensures lo < j - n ==> !IsWhitespace(s[j - n - 1])
  {
    if lo < j && IsWhitespace(s[j - 1]) then 1 + SpaceBefore(s, lo, j - 1) else 0
  }

  /** `r` sits in `s` at `i` with only whitespace before and after it. */
  predicate Framed(s: string, i: int, r: string) {
    && 0 <= i && i + |r| <= |s| && r == s[i..i + |r|]
    && WhitespaceBetween(s, 0, i) && WhitespaceBetween(s, i + |r|, |s|)
  }

  /** `String.prototype.trim`: the part of `s` between its leading and its
      trailing whitespace. */
  function Trim(s: string): (r: string)
    ensures Framed(s, SpaceAfter(s, 0), r)
    ensures r == [] || (!IsWhitespace(r[0]) && !IsWhitespace(r[|r| - 1]))
  {
    var i := SpaceAfter(s, 0);
    s[i..|s| - SpaceBefore(s, i, |s|)]
  }

  /** A string that neither starts nor ends with whitespace is its own trim. */
  lemma TrimUnpadded(s: string)
    requires s == [] || (!IsWhitespace(s[0]) && !IsWhitespace(s[|s| - 1]))
    ensures Trim(s) == s
  {
    assert SpaceAfter(s, 0) == 0;
    assert SpaceBefore(s, 0, |s|) == 0;
  }

  /** Trimming twice changes nothing more. */
  lemma TrimIdempotent(s: string)
    ensures Trim(Trim(s)) == Trim(s)
  {
    TrimUnpadded(Trim(s));
  }

  /** `s.startsWith(p)` */
  predicate StartsWith(s: string, p: string) {
    |p| <= |s| && s[..|p|] == p
  }

  /** Appending leaves the characters already there in place. */
  lemma PrefixIndex(p: string, x: string, i: nat)
    requires i < |p|
    ensures (p + x)[i] == p[i]
  {
  }

  /** `s.includes(sub)` */
  predicate Contains(s: string, sub: string) {
    StartsWith(s, sub) || (|s| > 0 && Contains(s[1..], sub))
  }

  lemma {:induction false} ContainsAt(s: string, sub: string, i: nat)
    requires i + |sub| <= |s| && s[i..i + |sub|] == sub
    ensures Contains(s, sub)
  {
    if i > 0 {
      assert s[1..][i - 1..i - 1 + |sub|] == s[i..i + |sub|];
      ContainsAt(s[1..], sub, i - 1);
    }
  }

  predicate IsDigit(c: char) {
    '0' <= c <= '9'
  }

  predicate AllDigits(s: string) {
    forall k :: 0 <= k < |s| ==> IsDigit(s[k])
  }

  function DigitChar(d: nat): (c: char)
    requires d < 10
    ensures IsDigit(c) && c as int - '0' as int == d
  {
    ('0' as int + d) as char
  }

  /** The number a string of decimal digits denotes. */
  function DigitsValue(s: string): nat
    requires AllDigits(s)
  {
    if s == [] then 0 else 10 * DigitsValue(s[..|s| - 1]) + (s[|s| - 1] as int - '0' as int)
  }

  /** `String(n)` for a non-negative integer below 10^21 (beyond that
      JavaScript switches to exponent notation): its shortest decimal digits. */
  function NatToString(n: nat): (r: string)
    ensures |r| >= 1 && AllDigits(r) && DigitsValue(r) == n
    ensures |r| > 1 ==> r[0] != '0'
    decreases n
  {
    if n < 10 then
      [DigitChar(n)]
    else
      var r := NatToString(n / 10) + [DigitChar(n % 10)];
      assert r[..|r| - 1] == NatToString(n / 10);
      r
  }

  lemma {:induction false} NatToStringLength(n: nat)
    ensures n < 10 <==> |NatToString(n)| == 1
    ensures 10 <= n < 100 <==> |NatToString(n)| == 2
    ensures 1000 <= n < 10000 ==> |NatToString(n)| == 4
  {
    if n >= 10 {
      NatToStringLength(n / 10);
    }
  }

  /** `String(i)` for an integer of magnitude below 10^21. */
  function IntToString(i: int): (r: string)
    ensures |r| >= 1
  {
    if i < 0 then "-" + NatToString(-i) else NatToString(i)
  }

  /** Reads back what `IntToString` writes: an optional minus sign and digits. */
  function ParseInt(s: string): (r: int)
    requires |s| >= 1 && (if s[0] == '-' then |s| >= 2 && AllDigits(s[1..]) else AllDigits(s))
  {
    if s[0] == '-' then 0 - DigitsValue(s[1..]) as int else DigitsValue(s)
  }

  lemma IntToStringRoundTrip(i: int)
    ensures var r := IntToString(i);
      && (if r[0] == '-' then |r| >= 2 && AllDigits(r[1..]) else AllDigits(r))
      && ParseInt(r) == i
  {
    if i < 0 {
      assert IntToString(i)[1..] == NatToString(-i);
    }
  }

  function Repeat(c: char, n: nat): (r: string)
    ensures |r| == n && forall k :: 0 <= k < n ==> r[k] == c
  {
    if n == 0 then [] else [c] + Repeat(c, n - 1)
  }

  /** `s.padStart(n, fill)` with a one-character `fill`. */
  function PadStart(s: string, n: nat, fill: char): (r: string)
    ensures |s| >= n ==> r == s
    ensures |s| < n ==> |r| == n && r[n - |s|..] == s && r[..n - |s|] == Repeat(fill, n - |s|)
  {
    if |s| >= n then s else Repeat(fill, n - |s|) + s
  }

  /** Leading zeros do not change the number a digit string denotes. */
  lemma {:induction false} LeadingZerosValue(k: nat, s: string)
    requires AllDigits(s)
    ensures AllDigits(Repeat('0', k) + s)
    ensures DigitsValue(Repeat('0', k) + s) == DigitsValue(s)
    decreases |s|
  {
    var z := Repeat('0', k);
    if s == [] {
      assert z + s == z;
      ZerosValue(k);
    } else {
      var s' := s[..|s| - 1];
      assert (z + s)[..|z + s| - 1] == z + s';
      LeadingZerosValue(k, s');
    }
  }

  lemma {:induction false} ZerosValue(k: nat)
    ensures AllDigits(Repeat('0', k)) && DigitsValue(Repeat('0', k)) == 0
  {
    if k > 0 {
      var z := Repeat('0', k);
      assert z[..k - 1] == Repeat('0', k - 1);
      ZerosValue(k - 1);
    }
  }

  // ------------------------------------------------------------ UTF-16

  predicate IsHighSurrogate(u: int) {
    0xD800 <= u < 0xDC00
  }

  predicate IsLowSurrogate(u: int) {
    0xDC00 <= u < 0xE000
  }

  /** The UTF-16 code units of one character: itself below U+10000, a
      surrogate pair above. */
  function CodeUnits(c: char): (u: seq<int>)
    ensures 1 <= |u| <= 2 && (|u| == 2 <==> c as int >= 0x1_0000)
    ensures |u| == 1 ==> u[0] == c as int
    ensures |u| == 2 ==> && IsHighSurrogate(u[0]) && IsLowSurrogate(u[1])
                         && 0x1_0000 + (u[0] - 0xD800) * 0x400 + (u[1] - 0xDC00) == c as int
  {
    if c as int < 0x1_0000 then
      [c as int]
    else
      var v := c as int - 0x1_0000;
      assert v == v / 0x400 * 0x400 + v % 0x400;
      [0xD800 + v / 0x400, 0xDC00 + v % 0x400]
  }

  /** A JavaScript string is a sequence of UTF-16 code units: `length`
      counts them and `slice` cuts between them. */
  function Utf16(s: string): (u: seq<int>)
    ensures |s| <= |u| <= 2 * |s|
  {
    if s == [] then [] else CodeUnits(s[0]) + Utf16(s[1..])
  }

  lemma {:induction false} Utf16Append(a: string, b: string)
    ensures Utf16(a + b) == Utf16(a) + Utf16(b)
  {
    if a == [] {
      assert a + b == b;
    } else {
      var ab := a + b;
      assert ab[0] == a[0] && ab[1..] == a[1..] + b;
      Utf16Append(a[1..], b);
      Associative(CodeUnits(a[0]), Utf16(a[1..]), Utf16(b));
    }
  }

  lemma Associative(x: seq<int>, y: seq<int>, z: seq<int>)
    ensures x + (y + z) == (x + y) + z
  {
  }

  /** Below U+10000 every character is one code unit, itself. */
  lemma {:induction false} NarrowUtf16(s: string)
    requires forall k :: 0 <= k < |s| ==> s[k] as int < 0x1_0000
    ensures |Utf16(s)| == |s|
    ensures forall k :: 0 <= k < |s| ==> Utf16(s)[k] == s[k] as int
  {
    if s != [] {
      NarrowUtf16(s[1..]);
      assert Utf16(s) == [s[0] as int] + Utf16(s[1..]);
    }
  }

  /** A character above U+10000 is two code units. */
  lemma {:induction false} WideUtf16(c: char, n: nat)
    requires c as int >= 0x1_0000
    ensures |Utf16(Repeat(c, n))| == 2 * n
  {
    if n > 0 {
      assert Repeat(c, n)[1..] == Repeat(c, n - 1);
      WideUtf16(c, n - 1);
    }
  }
}
