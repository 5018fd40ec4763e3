/** `encode_path_segment` in `src/gowa.rs`: percent-encoding of one URL path segment (section 2.1 of
    RFC 3986). */
module PathSegments {
  import opened Wrappers
  import opened Text
  import opened Encodings

  predicate Unreserved(b: Byte) {
    var c := b as char;
    'A' <= c <= 'Z' || 'a' <= c <= 'z' || IsDigit(c) || c == '-' || c == '.' || c == '_' || c == '~'
  }

  function UpperHexDigit(n: int): (c: char)
    requires 0 <= n < 16
    ensures HexValue(c) == Some(n)
    ensures IsDigit(c) || 'A' <= c <= 'F'
  {
    if n < 10 then ('0' as int + n) as char else ('A' as int + n - 10) as char
  }

  function EncodedByte(b: Byte): string {
    if Unreserved(b) then [b as char] else ['%', UpperHexDigit(b / 16), UpperHexDigit(b % 16)]
  }

  function Encoded(value: Bytes): string {
    if value == [] then "" else Encoded(value[..|value| - 1]) + EncodedByte(value[|value| - 1])
  }

  method EncodePathSegment(value: string) returns (out: string)
    ensures out == Encoded(Utf8(value))
  {
    out := "";
    var bytes := Utf8(value);
    for i := 0 to |bytes|
      invariant out == Encoded(bytes[..i])
    {
      assert bytes[..i + 1][..i] == bytes[..i];
      var byte := bytes[i];
      if Unreserved(byte) {
        out := out + [byte as char];
      } else {
        out := out + ['%', UpperHexDigit(byte / 16), UpperHexDigit(byte % 16)];
      }
    }
    assert bytes[..|bytes|] == bytes;
  }

  /** Percent-decoding: `%` and two hexadecimal digits stand for a byte, an ASCII character for
      itself; anything else is malformed. */
  function Decoded(s: string): Option<Bytes> {
    if s == "" then Some([])
    else if s[0] == '%' then
      if |s| < 3 then None
      else
        var hi, lo, rest := HexValue(s[1]), HexValue(s[2]), Decoded(s[3..]);
        if hi.Some? && lo.Some? && rest.Some? then Some([hi.value * 16 + lo.value] + rest.value) else None
    else if s[0] as int < 128 then
      var rest := Decoded(s[1..]);
      if rest.Some? then Some([s[0] as int] + rest.value) else None
    else None
  }

  lemma DecodeOneByte(b: Byte, rest: string)
    requires Decoded(rest).Some?
    ensures Decoded(EncodedByte(b) + rest) == Some([b] + Decoded(rest).value)
  {
    var s := EncodedByte(b) + rest;
    assert s[|EncodedByte(b)|..] == rest;
  }

  lemma EncodedLast(value: Bytes, rest: string)
    requires value != []
    ensures var n := |value| - 1; Encoded(value) + rest == Encoded(value[..n]) + (EncodedByte(value[n]) + rest)
  {
  }

  lemma LastMovesOver(value: Bytes, tail: Bytes)
    requires value != []
    ensures var n := |value| - 1; value[..n] + ([value[n]] + tail) == value + tail
  {
  }

  lemma {:induction false} DecodeAfter(value: Bytes, rest: string)
    requires Decoded(rest).Some?
    ensures Decoded(Encoded(value) + rest) == Some(value + Decoded(rest).value)
    decreases |value|
  {
    if value == [] {
      assert Encoded(value) + rest == rest;
      assert value + Decoded(rest).value == Decoded(rest).value;
    } else {
      var n := |value| - 1;
      var after := EncodedByte(value[n]) + rest;
      DecodeOneByte(value[n], rest);
      DecodeAfter(value[..n], after);
      EncodedLast(value, rest);
      LastMovesOver(value, Decoded(rest).value);
    }
  }

  /** Decoding recovers every input, so different ids never address the same path. */
  lemma SegmentRoundTrip(value: string)
    ensures Decoded(Encoded(Utf8(value))) == Some(Utf8(value))
    ensures FromUtf8(Decoded(Encoded(Utf8(value))).value) == Some(value)
  {
    var bytes := Utf8(value);
    DecodeAfter(bytes, "");
    assert Encoded(bytes) + "" == Encoded(bytes) && bytes + [] == bytes;
    FromUtf8OfUtf8(value);
  }

  /** Every character is unreserved or belongs to a `%XX` triple; in particular there is no `/`. */
  predicate SegmentSafe(s: string) {
    if s == "" then true
    else if s[0] == '%' then
      |s| >= 3 && HexValue(s[1]).Some? && HexValue(s[2]).Some? && SegmentSafe(s[3..])
    else s[0] as int < 128 && Unreserved(s[0] as int) && SegmentSafe(s[1..])
  }

  lemma {:induction false} SafeAfter(value: Bytes, rest: string)
    requires SegmentSafe(rest)
    ensures SegmentSafe(Encoded(value) + rest)
    decreases |value|
  {
    if value == [] {
      assert Encoded(value) + rest == rest;
    } else {
      var n := |value| - 1;
      var piece := EncodedByte(value[n]);
      assert (piece + rest)[|piece|..] == rest;
      SafeAfter(value[..n], piece + rest);
      assert Encoded(value) + rest == Encoded(value[..n]) + (piece + rest);
    }
  }

  lemma SegmentIsSafe(value: string)
    ensures SegmentSafe(Encoded(Utf8(value))) && '/' !in Encoded(Utf8(value))
  {
    SafeAfter(Utf8(value), "");
    assert Encoded(Utf8(value)) + "" == Encoded(Utf8(value));
    SafeHasNoSlash(Encoded(Utf8(value)));
  }

  lemma {:induction false} SafeHasNoSlash(s: string)
    requires SegmentSafe(s)
    ensures '/' !in s
  {
    if s != "" {
      if s[0] == '%' {
        SafeHasNoSlash(s[3..]);
        assert s == [s[0], s[1], s[2]] + s[3..];
      } else {
        SafeHasNoSlash(s[1..]);
        assert s == [s[0]] + s[1..];
      }
    }
  }

  /** The characters that mean nothing in a URL. */
  predicate Plain(c: char) {
    'A' <= c <= 'Z' || 'a' <= c <= 'z' || '0' <= c <= '9' || c in "-._~"
  }

  lemma {:induction false} SafeIsPlain(s: string)
    requires SegmentSafe(s)
    ensures forall c :: c in s ==> Plain(c) || c == '%'
  {
    if s != "" {
      if s[0] == '%' {
        SafeIsPlain(s[3..]);
        HexIsPlain(s[1]);
        HexIsPlain(s[2]);
        assert s == [s[0], s[1], s[2]] + s[3..];
      } else {
        SafeIsPlain(s[1..]);
        assert s == [s[0]] + s[1..];
      }
    }
  }

  lemma HexIsPlain(c: char)
    requires HexValue(c).Some?
    ensures Plain(c)
  {
  }

  /** Whatever the id holds, the segment ends neither the path nor itself: no slash, question mark or number sign. */
  lemma SegmentHasNoDelimiters(value: string)
    ensures forall c :: c in Encoded(Utf8(value)) ==> (Plain(c) || c == '%') && c != '/' && c != '?' && c != '#'
  {
    SegmentIsSafe(value);
    SafeIsPlain(Encoded(Utf8(value)));
  }

  /** A byte that stands for a plain character is not escaped. */
  lemma PlainIsKept(b: Byte)
    ensures (b < 128 && Plain(b as char)) <==> EncodedByte(b) == [b as char]
  {
  }
}
