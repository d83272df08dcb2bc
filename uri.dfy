/**
 * `encodeURIComponent` of ECMA-262 (section "URI Handling Functions"):
 * every character outside A-Z a-z 0-9 - _ . ! ~ * ' ( ) is written as the
 * percent-encoded bytes of its UTF-8 form, with upper-case hex digits.
 * Strings here hold Unicode scalar values, so the lone-surrogate URIError of
 * JavaScript cannot arise.
 */
module Uri {

  /** The characters encodeURIComponent leaves unescaped. */
  predicate IsUnreserved(c: char) {
    || ('A' <= c <= 'Z') || ('a' <= c <= 'z') || ('0' <= c <= '9')
    || c == '-' || c == '_' || c == '.' || c == '!' || c == '~' || c == '*'
    || c == '\'' || c == '(' || c == ')'
  }

  /** One octet of a UTF-8 encoding. */
  type Byte = b: int | 0 <= b < 256

  /** The UTF-8 bytes of a code point. */
  function Utf8(cp: nat): (bs: seq<Byte>)
    requires cp < 0x11_0000
    ensures 1 <= |bs| <= 4
  {
    if cp < 0x80 then
      [cp]
    else if cp < 0x800 then
      [0xC0 + cp / 64, 0x80 + cp % 64]
    else if cp < 0x1_0000 then
      var q := cp / 64;
      [0xE0 + q / 64, 0x80 + q % 64, 0x80 + cp % 64]
    else
      var q := cp / 64;
      var q2 := q / 64;
      [0xF0 + q2 / 64, 0x80 + q2 % 64, 0x80 + q % 64, 0x80 + cp % 64]
  }

  /** How many bytes a UTF-8 sequence has, read off its lead byte. */
  function SequenceLength(lead: int): nat {
    if lead < 0x80 then 1 else if lead < 0xE0 then 2 else if lead < 0xF0 then 3 else 4
  }

  /** The code point a well-formed UTF-8 sequence denotes. */
  function Utf8Decode(bs: seq<int>): int
    requires 1 <= |bs| <= 4
  {
    if |bs| == 1 then bs[0]
    else if |bs| == 2 then (bs[0] - 0xC0) * 64 + (bs[1] - 0x80)
    else if |bs| == 3 then ((bs[0] - 0xE0) * 64 + (bs[1] - 0x80)) * 64 + (bs[2] - 0x80)
    else (((bs[0] - 0xF0) * 64 + (bs[1] - 0x80)) * 64 + (bs[2] - 0x80)) * 64 + (bs[3] - 0x80)
  }

  lemma Utf8RoundTrip(cp: nat)
    requires cp < 0x11_0000
    ensures Utf8Decode(Utf8(cp)) == cp
    ensures SequenceLength(Utf8(cp)[0]) == |Utf8(cp)|
  {
    var q := cp / 64;
    var q2 := q / 64;
    assert cp == q * 64 + cp % 64;
    assert q == q2 * 64 + q % 64;
    assert q2 == (q2 / 64) * 64 + q2 % 64;
    if 0x800 <= cp < 0x1_0000 {
      assert q2 < 16;
    } else if cp >= 0x1_0000 {
      assert q2 / 64 < 5;
    }
  }

  /** The upper-case hexadecimal digits, in order. */
  const HexDigits := "0123456789ABCDEF"

  function HexValue(c: char): int {
    if '0' <= c <= '9' then c as int - '0' as int else c as int - 'A' as int + 10
  }

  function HexDigit(d: nat): (c: char)
    requires d < 16
    ensures IsUnreserved(c) && HexValue(c) == d
  {
    HexDigits[d]
  }

  /** `%XY` for one byte. */
  function PercentByte(b: Byte): (r: string)
    ensures |r| == 3 && r[0] == '%' && IsUnreserved(r[1]) && IsUnreserved(r[2])
    ensures HexValue(r[1]) * 16 + HexValue(r[2]) == b
  {
    ['%', HexDigit(b / 16), HexDigit(b % 16)]
  }

  function PercentBytes(bs: seq<Byte>): (r: string)
    ensures |r| == 3 * |bs|
  {
    if bs == [] then [] else PercentByte(bs[0]) + PercentBytes(bs[1..])
  }

  /** An encoding uses only unreserved characters and `%`. */
  lemma {:induction false} PercentBytesChars(bs: seq<Byte>)
    ensures forall k :: 0 <= k < |PercentBytes(bs)| ==>
      IsUnreserved(PercentBytes(bs)[k]) || PercentBytes(bs)[k] == '%'
  {
    if bs != [] {
      var head, rest := PercentByte(bs[0]), PercentBytes(bs[1..]);
      PercentBytesChars(bs[1..]);
      forall k | 0 <= k < |head| + |rest|
        ensures IsUnreserved((head + rest)[k]) || (head + rest)[k] == '%'
      {
        if k >= 3 {
          assert (head + rest)[k] == rest[k - 3];
        } else if k == 0 {
          assert (head + rest)[0] == head[0];
        } else if k == 1 {
          assert (head + rest)[1] == head[1];
        } else {
          assert (head + rest)[2] == head[2];
        }
      }
    }
  }

  /** Two concatenations whose first parts have equal lengths split alike. */
  lemma SplitEqual(x: string, y: string, x': string, y': string)
    requires |x| == |x'| && x + y == x' + y'
    ensures x == x' && y == y'
  {
    assert x == (x + y)[..|x|] && x' == (x' + y')[..|x|];
    assert y == (x + y)[|x|..] && y' == (x' + y')[|x|..];
  }

  /** Distinct byte sequences have distinct encodings. */
  lemma {:induction false} PercentBytesInjective(bs: seq<Byte>, cs: seq<Byte>)
    requires PercentBytes(bs) == PercentBytes(cs)
    ensures bs == cs
  {
    if bs != [] {
      var t, u := PercentByte(bs[0]), PercentByte(cs[0]);
      SplitEqual(t, PercentBytes(bs[1..]), u, PercentBytes(cs[1..]));
      assert HexValue(t[1]) * 16 + HexValue(t[2]) == HexValue(u[1]) * 16 + HexValue(u[2]);
      PercentBytesInjective(bs[1..], cs[1..]);
      assert bs == [bs[0]] + bs[1..] && cs == [cs[0]] + cs[1..];
    }
  }

  /** The encoding of one character. */
  function EncodeChar(c: char): (r: string)
    ensures |r| >= 1
    ensures forall k :: 0 <= k < |r| ==> IsUnreserved(r[k]) || r[k] == '%'
  {
    if IsUnreserved(c) then [c] else
      PercentBytesChars(Utf8(c as int));
      PercentBytes(Utf8(c as int))
  }

  /** The length of the encoded character a string starts with, read off its
      first three characters. */
  function EncodedLength(t: string): nat
    requires |t| >= 1
  {
    if t[0] != '%' then 1
    else if |t| < 3 then 0
    else 3 * SequenceLength(HexValue(t[1]) * 16 + HexValue(t[2]))
  }

  lemma EncodedLengthOf(c: char, rest: string)
    ensures EncodedLength(EncodeChar(c) + rest) == |EncodeChar(c)|
  {
    if !IsUnreserved(c) {
      var bs := Utf8(c as int);
      Utf8RoundTrip(c as int);
      var t := PercentByte(bs[0]);
      assert PercentBytes(bs) == t + PercentBytes(bs[1..]);
      assert (EncodeChar(c) + rest)[..3] == t;
    }
  }

  lemma EncodeCharInjective(c: char, d: char)
    requires EncodeChar(c) == EncodeChar(d)
    ensures c == d
  {
    if !IsUnreserved(c) && !IsUnreserved(d) {
      PercentBytesInjective(Utf8(c as int), Utf8(d as int));
      Utf8RoundTrip(c as int);
      Utf8RoundTrip(d as int);
    }
  }

  /** Encoded characters form a prefix code: no encoding is a proper prefix of another. */
  lemma EncodeCharPrefixFree(c: char, r: string, d: char, t: string)
    requires EncodeChar(c) + r == EncodeChar(d) + t
    ensures c == d && r == t
  {
    var e, f := EncodeChar(c), EncodeChar(d);
    EncodedLengthOf(c, r);
    EncodedLengthOf(d, t);
    assert |e| == |f|;
    assert e == (e + r)[..|e|] && f == (f + t)[..|f|];
    EncodeCharInjective(c, d);
    assert r == (e + r)[|e|..] && t == (f + t)[|f|..];
  }

  /** `encodeURIComponent(s)` */
  function EncodeURIComponent(s: string): (r: string)
    ensures forall k :: 0 <= k < |r| ==> IsUnreserved(r[k]) || r[k] == '%'
    ensures |r| >= |s|
  {
    if s == [] then [] else EncodeChar(s[0]) + EncodeURIComponent(s[1..])
  }

  /** Distinct strings have distinct encodings. */
  lemma {:induction false} EncodeInjective(a: string, b: string)
    requires EncodeURIComponent(a) == EncodeURIComponent(b)
    ensures a == b
  {
    if a != [] && b != [] {
      EncodeCharPrefixFree(a[0], EncodeURIComponent(a[1..]), b[0], EncodeURIComponent(b[1..]));
      EncodeInjective(a[1..], b[1..]);
    }
  }

  /** A string made of unreserved characters is its own encoding. */
  lemma {:induction false} EncodeUnreserved(s: string)
    requires forall k :: 0 <= k < |s| ==> IsUnreserved(s[k])
    ensures EncodeURIComponent(s) == s
  {
    if s != [] {
      EncodeUnreserved(s[1..]);
    }
  }
}
