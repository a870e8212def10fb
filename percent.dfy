/**
 * Percent-encoding (section 2.1 of RFC 3986) as ECMAScript's
 * `encodeURIComponent` performs it (ECMA-262, section 19.2.6.5): every
 * character outside the unescaped set `A-Z a-z 0-9 - _ . ! ~ * ' ( )` is
 * replaced by `%XY` for each of its UTF-8 octets, with upper-case hex
 * digits. `DecodeURIComponent` is the reference decoder it is proved against.
 */
module PercentEncoding {
  import opened Wrappers
  import opened Utf8

  predicate IsAsciiAlphanumeric(c: char) {
    ('A' <= c <= 'Z') || ('a' <= c <= 'z') || ('0' <= c <= '9')
  }

  /** The characters `encodeURIComponent` copies unchanged. */
  predicate IsUriUnreserved(c: char) {
    IsAsciiAlphanumeric(c) || c in "-_.!~*'()"
  }

  /** The characters that give a URL its structure: path separator, query start, pair separator, key/value separator, fragment start. */
  predicate IsUrlDelimiter(c: char) {
    c in "/?&=#"
  }

  predicate IsUpperHex(c: char) {
    ('0' <= c <= '9') || ('A' <= c <= 'F')
  }

  predicate IsHexDigit(c: char) {
    IsUpperHex(c) || ('a' <= c <= 'f')
  }

  function HexValue(c: char): (d: nat)
    requires IsHexDigit(c)
    ensures d < 16
  {
    if '0' <= c <= '9' then c as int - '0' as int
    else if 'A' <= c <= 'F' then c as int - 'A' as int + 10
    else c as int - 'a' as int + 10
  }

  /** The upper-case hex digit of `d`, which `HexValue` reads back. */
  function HexChar(d: nat): (c: char)
    requires d < 16
    ensures IsUpperHex(c) && HexValue(c) == d
  {
    if d < 10 then ('0' as int + d) as char else ('A' as int + (d - 10)) as char
  }

  /** `%XY` for one octet. */
  function PercentByte(b: byte): (r: string)
    ensures |r| == 3 && r[0] == '%'
  {
    ['%', HexChar(b / 16), HexChar(b % 16)]
  }

  function PercentOctets(bs: seq<byte>): (r: string)
    ensures |r| == 3 * |bs|
    ensures forall i :: 0 <= i < |r| ==> r[i] == '%' || IsUpperHex(r[i])
  {
    if bs == [] then "" else PercentByte(bs[0]) + PercentOctets(bs[1..])
  }

  function EncodeUriChar(c: char): string {
    if IsUriUnreserved(c) then [c] else PercentOctets(EncodeChar(c))
  }

  /** `encodeURIComponent(s)`. */
  function EncodeURIComponent(s: string): (r: string)
    ensures |r| >= |s|
  {
    if s == [] then "" else EncodeUriChar(s[0]) + EncodeURIComponent(s[1..])
  }

  /** The characters `encodeURIComponent` can emit. */
  predicate IsEncodedChar(c: char) {
    IsUriUnreserved(c) || c == '%'
  }

  predicate AllEncodedChars(s: string) {
    forall i :: 0 <= i < |s| ==> IsEncodedChar(s[i])
  }

  lemma AllEncodedCharsConcat(a: string, b: string)
    requires AllEncodedChars(a) && AllEncodedChars(b)
    ensures AllEncodedChars(a + b)
  {
    assert forall i :: |a| <= i < |a| + |b| ==> (a + b)[i] == b[i - |a|];
  }

  /** Encoded text holds only unreserved characters and `%`. */
  lemma {:induction false} EncodedChars(s: string)
    ensures AllEncodedChars(EncodeURIComponent(s))
    decreases |s|
  {
    if s != [] {
      EncodedChars(s[1..]);
      AllEncodedCharsConcat(EncodeUriChar(s[0]), EncodeURIComponent(s[1..]));
    }
  }

  /** Hence encoded text holds none of `/ ? & = #`, whatever the input. */
  lemma EncodedHasNoDelimiter(s: string)
    ensures forall i :: 0 <= i < |EncodeURIComponent(s)| ==> !IsUrlDelimiter(EncodeURIComponent(s)[i])
  {
    EncodedChars(s);
  }

  function PrependOctets(bs: seq<byte>, r: Option<seq<byte>>): Option<seq<byte>> {
    match r
    case None => None
    case Some(t) => Some(bs + t)
  }

  /**
   * Percent-decoding to octets: `%XY` gives one octet, any other character
   * its UTF-8 octets; a `%` without two hex digits after it fails, as
   * `decodeURIComponent` does. With `plusIsSpace`, `+` stands for a space,
   * as in application/x-www-form-urlencoded text.
   */
  function PercentDecode(t: string, plusIsSpace: bool): Option<seq<byte>>
    decreases |t|
  {
    if t == [] then Some([])
    else if t[0] == '%' then
      if |t| >= 3 && IsHexDigit(t[1]) && IsHexDigit(t[2])
      then PrependOctets([16 * HexValue(t[1]) + HexValue(t[2])], PercentDecode(t[3..], plusIsSpace))
      else None
    else if t[0] == '+' && plusIsSpace then PrependOctets([0x20], PercentDecode(t[1..], plusIsSpace))
    else PrependOctets(EncodeChar(t[0]), PercentDecode(t[1..], plusIsSpace))
  }

  /** `decodeURIComponent(t)`, or `None` where it would throw a `URIError`. */
  function DecodeURIComponent(t: string): Option<string> {
    match PercentDecode(t, false)
    case None => None
    case Some(bs) => Decode(bs)
  }

  lemma {:induction false} PercentDecodeOctets(bs: seq<byte>, rest: string, plusIsSpace: bool)
    ensures PercentDecode(PercentOctets(bs) + rest, plusIsSpace) == PrependOctets(bs, PercentDecode(rest, plusIsSpace))
    decreases |bs|
  {
    if bs != [] {
      var tail := PercentOctets(bs[1..]) + rest;
      assert PercentOctets(bs) + rest == PercentByte(bs[0]) + tail;
      PercentDecodeByte(bs[0], tail, plusIsSpace);
      PercentDecodeOctets(bs[1..], rest, plusIsSpace);
      PrependTwice([bs[0]], bs[1..], PercentDecode(rest, plusIsSpace));
      ConsTail(bs);
    } else {
      assert PercentOctets(bs) + rest == rest;
      PrependNothing(bs, PercentDecode(rest, plusIsSpace));
    }
  }

  lemma PercentDecodeByte(b: byte, tail: string, plusIsSpace: bool)
    ensures PercentDecode(PercentByte(b) + tail, plusIsSpace) == PrependOctets([b], PercentDecode(tail, plusIsSpace))
  {
    var t := PercentByte(b) + tail;
    assert t[0] == '%' && t[1] == HexChar(b / 16) && t[2] == HexChar(b % 16);
    assert 16 * HexValue(t[1]) + HexValue(t[2]) == b;
    assert t[3..] == tail;
  }

  lemma PrependTwice<X>(a: seq<X>, b: seq<X>, r: Option<seq<X>>)
    ensures (match r case None => None case Some(t) => Some(a + (b + t)))
      == (match r case None => None case Some(t) => Some((a + b) + t))
  {
    if r.Some? {
      assert a + (b + r.value) == (a + b) + r.value;
    }
  }

  lemma ConsTail<X>(xs: seq<X>)
    requires xs != []
    ensures [xs[0]] + xs[1..] == xs
  {
  }

  lemma PrependNothing(bs: seq<byte>, r: Option<seq<byte>>)
    requires bs == []
    ensures PrependOctets(bs, r) == r
  {
    if r.Some? {
      assert bs + r.value == r.value;
    }
  }


  lemma PercentDecodeUriChar(c: char, rest: string)
    ensures PercentDecode(EncodeUriChar(c) + rest, false) == PrependOctets(EncodeChar(c), PercentDecode(rest, false))
  {
    if IsUriUnreserved(c) {
      var t := [c] + rest;
      assert t[1..] == rest;
    } else {
      PercentDecodeOctets(EncodeChar(c), rest, false);
    }
  }

  /** The octets an encoded string stands for are the UTF-8 octets of the original. */
  lemma {:induction false} PercentDecodeEncode(s: string)
    ensures PercentDecode(EncodeURIComponent(s), false) == Some(Utf8.Encode(s))
    decreases |s|
  {
    if s != [] {
      PercentDecodeUriChar(s[0], EncodeURIComponent(s[1..]));
      PercentDecodeEncode(s[1..]);
    }
  }

  /** `decodeURIComponent(encodeURIComponent(s)) == s`. */
  lemma DecodeEncode(s: string)
    ensures DecodeURIComponent(EncodeURIComponent(s)) == Some(s)
  {
    PercentDecodeEncode(s);
    Utf8.DecodeEncode(s);
  }

  /** Two different strings never encode to the same text. */
  lemma EncodeInjective(s: string, t: string)
    requires EncodeURIComponent(s) == EncodeURIComponent(t)
    ensures s == t
  {
    DecodeEncode(s);
    DecodeEncode(t);
  }

  /** A string made only of unescaped characters is its own encoding. */
  lemma {:induction false} EncodeIdentity(s: string)
    requires forall i :: 0 <= i < |s| ==> IsUriUnreserved(s[i])
    ensures EncodeURIComponent(s) == s
    decreases |s|
  {
    if s != [] {
      EncodeIdentity(s[1..]);
      assert [s[0]] + s[1..] == s;
    }
  }

  /**
   * Conversely, an encoding no longer than its input escapes nothing; in
   * particular a string that is its own encoding is made of unescaped characters.
   */
  lemma {:induction false} EncodeFixedPoint(s: string)
    requires |EncodeURIComponent(s)| == |s|
    ensures forall i :: 0 <= i < |s| ==> IsUriUnreserved(s[i])
    decreases |s|
  {
    if s != [] && IsUriUnreserved(s[0]) {
      EncodeFixedPoint(s[1..]);
    }
  }
}
