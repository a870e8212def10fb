/**
 * UTF-8 (RFC 3629, section 3) over Dafny's `char`, which holds exactly the
 * Unicode scalar values. Both percent-encoders of the client encode the
 * UTF-8 octets of every character they do not leave as it is.
 */
module Utf8 {
  import opened Wrappers

  /** An octet. */
  type byte = b: int | 0 <= b < 0x100

  predicate IsScalarValue(cp: int) {
    (0 <= cp < 0xD800) || (0xE000 <= cp < 0x11_0000)
  }

  predicate IsContinuation(b: byte) {
    0x80 <= b < 0xC0
  }

  /** The number of octets a sequence starting with lead octet `b` has; 0 for an octet that cannot start one. */
  function LeadLength(b: byte): (n: nat)
    ensures n <= 4
  {
    if b < 0x80 then 1
    else if 0xC2 <= b < 0xE0 then 2
    else if 0xE0 <= b < 0xF0 then 3
    else if 0xF0 <= b < 0xF5 then 4
    else 0
  }

  /** The UTF-8 octets of one character. */
  function EncodeChar(c: char): (r: seq<byte>)
    ensures 1 <= |r| <= 4
    ensures LeadLength(r[0]) == |r|
    ensures (|r| == 1) <==> (c as int < 0x80)
    ensures |r| == 1 ==> r[0] == c as int
    ensures forall i :: 1 <= i < |r| ==> IsContinuation(r[i])
  {
    var cp := c as int;
    if cp < 0x80 then [cp]
    else if cp < 0x800 then [0xC0 + cp / 64, 0x80 + cp % 64]
    else if cp < 0x1_0000 then [0xE0 + (cp / 64) / 64, 0x80 + (cp / 64) % 64, 0x80 + cp % 64]
    else [0xF0 + ((cp / 64) / 64) / 64, 0x80 + ((cp / 64) / 64) % 64, 0x80 + (cp / 64) % 64, 0x80 + cp % 64]
  }

  function Encode(s: string): (r: seq<byte>)
    ensures |r| >= |s|
  {
    if s == [] then [] else EncodeChar(s[0]) + Encode(s[1..])
  }

  /**
   * The character a complete, well-formed octet sequence stands for; `None`
   * for a bad continuation octet, an overlong form, a surrogate or a value
   * beyond U+10FFFF.
   */
  function DecodeScalar(bs: seq<byte>): Option<char>
    requires 1 <= |bs| <= 4 && LeadLength(bs[0]) == |bs|
  {
    if |bs| == 1 then Some(bs[0] as char)
    else if exists i :: 1 <= i < |bs| && !IsContinuation(bs[i]) then None
    else
      var b: seq<int> := bs;
      var cp: int :=
        if |b| == 2 then (b[0] - 0xC0) * 64 + (b[1] - 0x80)
        else if |b| == 3 then ((b[0] - 0xE0) * 64 + (b[1] - 0x80)) * 64 + (b[2] - 0x80)
        else (((b[0] - 0xF0) * 64 + (b[1] - 0x80)) * 64 + (b[2] - 0x80)) * 64 + (b[3] - 0x80);
      var least: int := if |bs| == 2 then 0x80 else if |bs| == 3 then 0x800 else 0x1_0000;
      if least <= cp && IsScalarValue(cp) then Some(cp as char) else None
  }

  /** Decodes a whole octet sequence; `None` when it is not well-formed UTF-8. */
  function Decode(bs: seq<byte>): Option<string>
    decreases |bs|
  {
    if bs == [] then Some([])
    else
      var n := LeadLength(bs[0]);
      if n == 0 || |bs| < n then None
      else match DecodeScalar(bs[..n])
        case None => None
        case Some(c) =>
          match Decode(bs[n..])
          case None => None
          case Some(rest) => Some([c] + rest)
  }

  function Prepend(c: char, r: Option<string>): Option<string> {
    match r
    case None => None
    case Some(t) => Some([c] + t)
  }

  lemma DecodeScalarEncodeChar(c: char)
    ensures DecodeScalar(EncodeChar(c)) == Some(c)
  {
    var cp := c as int;
    var bs := EncodeChar(c);
    var q1 := cp / 64;
    var q2 := q1 / 64;
    var q3 := q2 / 64;
    assert cp == q1 * 64 + cp % 64;
    assert q1 == q2 * 64 + q1 % 64;
    assert q2 == q3 * 64 + q2 % 64;
    if |bs| == 2 {
      assert bs == [0xC0 + q1, 0x80 + cp % 64];
    } else if |bs| == 3 {
      assert bs == [0xE0 + q2, 0x80 + q1 % 64, 0x80 + cp % 64];
    } else if |bs| == 4 {
      assert bs == [0xF0 + q3, 0x80 + q2 % 64, 0x80 + q1 % 64, 0x80 + cp % 64];
    }
  }

  lemma DecodeEncodeChar(c: char, rest: seq<byte>)
    ensures Decode(EncodeChar(c) + rest) == Prepend(c, Decode(rest))
  {
    var e := EncodeChar(c);
    var bs := e + rest;
    assert bs[0] == e[0];
    assert bs[..|e|] == e;
    assert bs[|e|..] == rest;
    DecodeScalarEncodeChar(c);
  }

  /** Decoding undoes encoding, for every string. */
  lemma {:induction false} DecodeEncode(s: string)
    ensures Decode(Encode(s)) == Some(s)
    decreases |s|
  {
    if s != [] {
      DecodeEncodeChar(s[0], Encode(s[1..]));
      DecodeEncode(s[1..]);
      assert [s[0]] + s[1..] == s;
    }
  }
}
