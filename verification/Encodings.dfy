/** Byte-level encodings used by the queue file names and the media token:
    UTF-8 (RFC 3629), base16 and base64url without padding (RFC 4648, sections 8 and 5). */
module Encodings {
  import opened Wrappers

  type Byte = x: int | 0 <= x < 256
  type Bytes = seq<Byte>

  // ---------------------------------------------------------------- UTF-8

  function Utf8Char(c: char): (b: Bytes)
    ensures |b| > 0
  {
    var n := c as int;
    if n < 0x80 then [n]
    else if n < 0x800 then [0xC0 + n / 64, 0x80 + n % 64]
    else if n < 0x10000 then [0xE0 + n / 4096, 0x80 + n / 64 % 64, 0x80 + n % 64]
    else [0xF0 + n / 262144, 0x80 + n / 4096 % 64, 0x80 + n / 64 % 64, 0x80 + n % 64]
  }

  function Utf8(s: string): (b: Bytes)
    ensures s == "" <==> b == []
  {
    if s == "" then [] else Utf8Char(s[0]) + Utf8(s[1..])
  }

  /** The lead byte alone tells how many bytes a character takes. */
  function Utf8Width(lead: Byte): nat {
    if lead < 0x80 then 1 else if lead < 0xE0 then 2 else if lead < 0xF0 then 3 else 4
  }

  lemma Utf8WidthOfLead(c: char)
    ensures Utf8Width(Utf8Char(c)[0]) == |Utf8Char(c)|
  {
    var n := c as int;
    assert n < 0x110000;
  }

  lemma SixBitDigits(n: nat)
    ensures n == n / 64 * 64 + n % 64
    ensures n == n / 4096 * 4096 + n / 64 % 64 * 64 + n % 64
    ensures n == n / 262144 * 262144 + n / 4096 % 64 * 4096 + n / 64 % 64 * 64 + n % 64
  {
    assert n / 64 / 64 == n / 4096 && n / 4096 / 64 == n / 262144;
  }

  lemma Utf8CharInjective(c: char, d: char)
    requires Utf8Char(c) == Utf8Char(d)
    ensures c == d
  {
    var u, v := Utf8Char(c), Utf8Char(d);
    SixBitDigits(c as int);
    SixBitDigits(d as int);
    assert u[0] == v[0];
    if |u| > 1 { assert u[1] == v[1]; }
    if |u| > 2 { assert u[2] == v[2]; }
    if |u| > 3 { assert u[3] == v[3]; }
  }

  lemma PrefixCancels(u: Bytes, v: Bytes, x: Bytes, y: Bytes)
    requires |u| == |v| && u + x == v + y
    ensures u == v && x == y
  {
    assert u == (u + x)[..|u|] == (v + y)[..|v|] == v;
    assert x == (u + x)[|u|..] && y == (v + y)[|v|..];
  }

  /** The code is prefix-free: the first character can be read off the bytes. */
  lemma Utf8CharPrefixFree(c: char, d: char, x: Bytes, y: Bytes)
    requires Utf8Char(c) + x == Utf8Char(d) + y
    ensures c == d && x == y
  {
    Utf8WidthOfLead(c);
    Utf8WidthOfLead(d);
    assert Utf8Char(c)[0] == (Utf8Char(c) + x)[0] == (Utf8Char(d) + y)[0] == Utf8Char(d)[0];
    PrefixCancels(Utf8Char(c), Utf8Char(d), x, y);
    Utf8CharInjective(c, d);
  }

  lemma {:induction false} Utf8Injective(s: string, t: string)
    requires Utf8(s) == Utf8(t)
    ensures s == t
    decreases |s|
  {
    if s != "" && t != "" {
      Utf8CharPrefixFree(s[0], t[0], Utf8(s[1..]), Utf8(t[1..]));
      Utf8Injective(s[1..], t[1..]);
      assert s == [s[0]] + s[1..] && t == [t[0]] + t[1..];
    }
  }

  /** Strict decoding: a byte string is accepted exactly when it is the encoding of some string,
      which is then unique. */
  ghost function FromUtf8(b: Bytes): (r: Option<string>)
    ensures r.Some? ==> Utf8(r.value) == b
    ensures r.None? ==> forall s :: Utf8(s) != b
  {
    if exists s :: Utf8(s) == b then
      var s :| Utf8(s) == b;
      Some(s)
    else
      None
  }

  lemma FromUtf8OfUtf8(s: string)
    ensures FromUtf8(Utf8(s)) == Some(s)
  {
    var r := FromUtf8(Utf8(s));
    Utf8Injective(r.value, s);
  }

  // ---------------------------------------------------------------- base16

  function HexDigit(n: int): (c: char)
    requires 0 <= n < 16
    ensures '0' <= c <= '9' || 'a' <= c <= 'f'
  {
    if n < 10 then ('0' as int + n) as char else ('a' as int + n - 10) as char
  }

  /** Decoding accepts either letter case. */
  function HexValue(c: char): (r: Option<int>)
    ensures r.Some? ==> 0 <= r.value < 16
  {
    if '0' <= c <= '9' then Some(c as int - '0' as int)
    else if 'a' <= c <= 'f' then Some(c as int - 'a' as int + 10)
    else if 'A' <= c <= 'F' then Some(c as int - 'A' as int + 10)
    else None
  }

  function Hex(b: Bytes): (s: string)
    ensures |s| == 2 * |b|
  {
    if b == [] then "" else [HexDigit(b[0] / 16), HexDigit(b[0] % 16)] + Hex(b[1..])
  }

  function Unhex(s: string): Option<Bytes> {
    if s == "" then Some([])
    else if |s| == 1 then None
    else
      var hi, lo, rest := HexValue(s[0]), HexValue(s[1]), Unhex(s[2..]);
      if hi.Some? && lo.Some? && rest.Some? then Some([hi.value * 16 + lo.value] + rest.value) else None
  }

  lemma {:induction false} UnhexOfHex(b: Bytes)
    ensures Unhex(Hex(b)) == Some(b)
  {
    if b != [] {
      UnhexOfHex(b[1..]);
      assert Hex(b)[2..] == Hex(b[1..]);
      assert b == [b[0]] + b[1..];
    }
  }

  // ---------------------------------------------------------------- base64url, no padding

  function SextetChar(n: int): char
    requires 0 <= n < 64
  {
    if n < 26 then ('A' as int + n) as char
    else if n < 52 then ('a' as int + n - 26) as char
    else if n < 62 then ('0' as int + n - 52) as char
    else if n == 62 then '-' else '_'
  }

  function SextetValue(c: char): (r: Option<int>)
    ensures r.Some? ==> 0 <= r.value < 64 && SextetChar(r.value) == c
  {
    if 'A' <= c <= 'Z' then Some(c as int - 'A' as int)
    else if 'a' <= c <= 'z' then Some(c as int - 'a' as int + 26)
    else if '0' <= c <= '9' then Some(c as int - '0' as int + 52)
    else if c == '-' then Some(62)
    else if c == '_' then Some(63)
    else None
  }

  lemma SextetRoundTrip(n: int)
    requires 0 <= n < 64
    ensures SextetValue(SextetChar(n)) == Some(n)
    ensures SextetChar(n) != '.'
  {
  }

  /** The four characters of three bytes. */
  function Quartet(b0: Byte, b1: Byte, b2: Byte): (s: string)
    ensures |s| == 4
  {
    [SextetChar(b0 / 4), SextetChar(b0 % 4 * 16 + b1 / 16),
     SextetChar(b1 % 16 * 4 + b2 / 64), SextetChar(b2 % 64)]
  }

  function Base64(b: Bytes): string {
    if |b| == 0 then ""
    else if |b| == 1 then Quartet(b[0], 0, 0)[..2]
    else if |b| == 2 then Quartet(b[0], b[1], 0)[..3]
    else Quartet(b[0], b[1], b[2]) + Base64(b[3..])
  }

  /** The three bytes of four characters. */
  function Triple(s: string): (r: Option<(Byte, Byte, Byte)>)
    requires |s| == 4
  {
    var v0, v1, v2, v3 := SextetValue(s[0]), SextetValue(s[1]), SextetValue(s[2]), SextetValue(s[3]);
    if v0.None? || v1.None? || v2.None? || v3.None? then None
    else Some((v0.value * 4 + v1.value / 16, v1.value % 16 * 16 + v2.value / 4,
               v2.value % 4 * 64 + v3.value))
  }

  /** Strict decoding: a lone trailing character, an unknown character and non-zero spare bits
      are all errors. (`A` is the character of the sextet 0.) */
  function Unbase64(s: string): Option<Bytes> {
    if |s| == 0 then Some([])
    else if |s| == 1 then None
    else if |s| == 2 then
      var t := Triple(s + "AA");
      if t.Some? && t.value.1 == 0 then Some([t.value.0]) else None
    else if |s| == 3 then
      var t := Triple(s + "A");
      if t.Some? && t.value.2 == 0 then Some([t.value.0, t.value.1]) else None
    else
      var t, rest := Triple(s[..4]), Unbase64(s[4..]);
      if t.None? || rest.None? then None
      else Some([t.value.0, t.value.1, t.value.2] + rest.value)
  }

  lemma TripleArithmetic(b0: int, b1: int, b2: int)
    requires 0 <= b0 < 256 && 0 <= b1 < 256 && 0 <= b2 < 256
    ensures
      var v0, v1, v2, v3 := b0 / 4, b0 % 4 * 16 + b1 / 16, b1 % 16 * 4 + b2 / 64, b2 % 64;
      v0 * 4 + v1 / 16 == b0 && v1 % 16 * 16 + v2 / 4 == b1 && v2 % 4 * 64 + v3 == b2
  {
  }

  lemma TripleOfSextets(q: string, v0: int, v1: int, v2: int, v3: int)
    requires |q| == 4 && SextetValue(q[0]) == Some(v0) && SextetValue(q[1]) == Some(v1)
    requires SextetValue(q[2]) == Some(v2) && SextetValue(q[3]) == Some(v3)
    ensures Triple(q).Some?
    ensures var t := Triple(q).value;
            t.0 == v0 * 4 + v1 / 16 && t.1 == v1 % 16 * 16 + v2 / 4 && t.2 == v2 % 4 * 64 + v3
  {
  }

  lemma TripleOfQuartet(b0: Byte, b1: Byte, b2: Byte)
    ensures Triple(Quartet(b0, b1, b2)) == Some((b0, b1, b2))
    ensures '.' !in Quartet(b0, b1, b2)
    ensures b2 == 0 ==> Quartet(b0, b1, b2)[3] == 'A'
    ensures b1 == b2 == 0 ==> Quartet(b0, b1, b2)[2] == 'A'
  {
    var v0, v1, v2, v3 := b0 / 4, b0 % 4 * 16 + b1 / 16, b1 % 16 * 4 + b2 / 64, b2 % 64;
    SextetRoundTrip(v0);
    SextetRoundTrip(v1);
    SextetRoundTrip(v2);
    SextetRoundTrip(v3);
    var q := Quartet(b0, b1, b2);
    assert q == [SextetChar(v0), SextetChar(v1), SextetChar(v2), SextetChar(v3)];
    TripleOfSextets(q, v0, v1, v2, v3);
    TripleArithmetic(b0, b1, b2);
  }

  lemma QuartetArithmetic(v0: int, v1: int, v2: int, v3: int)
    requires 0 <= v0 < 64 && 0 <= v1 < 64 && 0 <= v2 < 64 && 0 <= v3 < 64
    ensures
      var b0, b1, b2 := v0 * 4 + v1 / 16, v1 % 16 * 16 + v2 / 4, v2 % 4 * 64 + v3;
      b0 / 4 == v0 && b0 % 4 * 16 + b1 / 16 == v1 && b1 % 16 * 4 + b2 / 64 == v2 && b2 % 64 == v3
  {
  }

  lemma QuartetOfTriple(s: string)
    requires |s| == 4 && Triple(s).Some?
    ensures var t := Triple(s).value; Quartet(t.0, t.1, t.2) == s
  {
    var v0, v1 := SextetValue(s[0]).value, SextetValue(s[1]).value;
    var v2, v3 := SextetValue(s[2]).value, SextetValue(s[3]).value;
    TripleOfSextets(s, v0, v1, v2, v3);
    QuartetArithmetic(v0, v1, v2, v3);
    QuartetFromSextets(Triple(s).value.0, Triple(s).value.1, Triple(s).value.2, v0, v1, v2, v3);
  }

  lemma QuartetFromSextets(b0: Byte, b1: Byte, b2: Byte, v0: int, v1: int, v2: int, v3: int)
    requires 0 <= v0 < 64 && 0 <= v1 < 64 && 0 <= v2 < 64 && 0 <= v3 < 64
    requires b0 / 4 == v0 && b0 % 4 * 16 + b1 / 16 == v1 && b1 % 16 * 4 + b2 / 64 == v2 && b2 % 64 == v3
    ensures Quartet(b0, b1, b2) == [SextetChar(v0), SextetChar(v1), SextetChar(v2), SextetChar(v3)]
  {
  }

  lemma {:induction false} Unbase64OfBase64(b: Bytes)
    ensures Unbase64(Base64(b)) == Some(b)
  {
    if |b| == 1 {
      TripleOfQuartet(b[0], 0, 0);
      assert Quartet(b[0], 0, 0)[..2] + "AA" == Quartet(b[0], 0, 0);
      assert b == [b[0]];
    } else if |b| == 2 {
      TripleOfQuartet(b[0], b[1], 0);
      assert Quartet(b[0], b[1], 0)[..3] + "A" == Quartet(b[0], b[1], 0);
      assert b == [b[0], b[1]];
    } else if |b| > 2 {
      Unbase64OfBase64(b[3..]);
      FullQuartet(b[0], b[1], b[2], b[3..], Base64(b[3..]));
      assert b == [b[0], b[1], b[2]] + b[3..];
    }
  }

  lemma OneQuartetMore(q: string, rest: string)
    requires |q| == 4 && Triple(q).Some? && Unbase64(rest).Some?
    ensures var t := Triple(q).value; Unbase64(q + rest) == Some([t.0, t.1, t.2] + Unbase64(rest).value)
  {
    assert (q + rest)[..4] == q && (q + rest)[4..] == rest;
  }

  lemma FullQuartet(b0: Byte, b1: Byte, b2: Byte, rest: Bytes, code: string)
    requires Unbase64(code) == Some(rest)
    ensures Unbase64(Quartet(b0, b1, b2) + code) == Some([b0, b1, b2] + rest)
  {
    TripleOfQuartet(b0, b1, b2);
    OneQuartetMore(Quartet(b0, b1, b2), code);
  }

  /** The decoder is canonical: what it accepts is the encoding of what it returns. */
  lemma {:induction false} Base64OfUnbase64(s: string)
    requires Unbase64(s).Some?
    ensures Base64(Unbase64(s).value) == s
  {
    var b := Unbase64(s).value;
    if |s| == 2 {
      QuartetOfTriple(s + "AA");
      assert Quartet(b[0], 0, 0)[..2] == (s + "AA")[..2] == s by { SpareBits(s + "AA"); }
    } else if |s| == 3 {
      QuartetOfTriple(s + "A");
      assert (s + "A")[..3] == s;
    } else if |s| > 3 {
      QuartetOfTriple(s[..4]);
      Base64OfUnbase64(s[4..]);
      assert b[3..] == Unbase64(s[4..]).value;
      assert s == s[..4] + s[4..];
    }
  }

  lemma SpareBits(s: string)
    requires |s| == 4 && s[2] == s[3] == 'A' && Triple(s).Some?
    ensures Triple(s).value.2 == 0
  {
    assert SextetValue('A') == Some(0);
  }

  /** The characters of the URL-safe alphabet. */
  predicate UrlSafe(c: char) {
    'A' <= c <= 'Z' || 'a' <= c <= 'z' || '0' <= c <= '9' || c == '-' || c == '_'
  }

  lemma QuartetIsUrlSafe(b0: Byte, b1: Byte, b2: Byte)
    ensures forall i :: 0 <= i < 4 ==> UrlSafe(Quartet(b0, b1, b2)[i])
  {
  }

  /** The encoding passes through a URL path unescaped, and in particular holds no dot. */
  lemma {:induction false} Base64IsUrlSafe(b: Bytes)
    ensures forall i :: 0 <= i < |Base64(b)| ==> UrlSafe(Base64(b)[i])
    ensures '.' !in Base64(b)
  {
    if |b| == 1 {
      QuartetIsUrlSafe(b[0], 0, 0);
    } else if |b| == 2 {
      QuartetIsUrlSafe(b[0], b[1], 0);
    } else if |b| > 2 {
      QuartetIsUrlSafe(b[0], b[1], b[2]);
      Base64IsUrlSafe(b[3..]);
    }
  }
}
