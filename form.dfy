/**
 * The application/x-www-form-urlencoded serializer of section 5.2 of the
 * WHATWG URL Standard, which `URLSearchParams` uses to write a URL's query,
 * and the parser of section 5.1 as its reference inverse.
 */
module FormUrlEncoded {
  import opened Wrappers
  import opened Utf8
  import opened PercentEncoding

  /** A name/value pair of a `URLSearchParams` list. */
  type Pair = (string, string)

  /** The characters the serializer copies unchanged: ASCII alphanumerics and `* - . _`. */
  predicate IsFormSafe(c: char) {
    IsAsciiAlphanumeric(c) || c in "*-._"
  }

  function FormEncodeChar(c: char): string {
    if c == ' ' then "+"
    else if IsFormSafe(c) then [c]
    else PercentOctets(EncodeChar(c))
  }

  /**
   * The urlencoded byte serializer applied to the UTF-8 octets of `s`: a
   * space becomes `+`, every other unsafe character `%XY` per octet. The
   * result never holds `&`, `=` or another URL delimiter.
   */
  function FormEncode(s: string): (r: string)
    ensures |r| >= |s|
  {
    if s == [] then "" else FormEncodeChar(s[0]) + FormEncode(s[1..])
  }

  /** The characters the serializer can emit. */
  predicate IsFormEncodedChar(c: char) {
    IsFormSafe(c) || c == '+' || c == '%'
  }

  predicate AllFormEncodedChars(s: string) {
    forall i :: 0 <= i < |s| ==> IsFormEncodedChar(s[i])
  }

  lemma AllFormEncodedCharsConcat(a: string, b: string)
    requires AllFormEncodedChars(a) && AllFormEncodedChars(b)
    ensures AllFormEncodedChars(a + b)
  {
    assert forall i :: |a| <= i < |a| + |b| ==> (a + b)[i] == b[i - |a|];
  }

  /** Form-encoded text holds only safe characters, `+` and `%`. */
  lemma {:induction false} FormEncodedChars(s: string)
    ensures AllFormEncodedChars(FormEncode(s))
    decreases |s|
  {
    if s != [] {
      FormEncodedChars(s[1..]);
      AllFormEncodedCharsConcat(FormEncodeChar(s[0]), FormEncode(s[1..]));
    }
  }

  /** Hence form-encoded text holds none of `/ ? & = #`, whatever the input. */
  lemma FormEncodeChars(s: string)
    ensures forall i :: 0 <= i < |FormEncode(s)| ==> !IsUrlDelimiter(FormEncode(s)[i])
  {
    FormEncodedChars(s);
  }

  function SerializePair(p: Pair): (r: string)
    ensures |r| > 0
  {
    FormEncode(p.0) + "=" + FormEncode(p.1)
  }

  /** The serialization of a list: its pairs in order, `name=value`, joined by `&`. */
  function Serialize(ps: seq<Pair>): (r: string)
    ensures r == "" <==> ps == []
    decreases |ps|
  {
    if |ps| == 0 then ""
    else if |ps| == 1 then SerializePair(ps[0])
    else Serialize(ps[..|ps| - 1]) + "&" + SerializePair(ps[|ps| - 1])
  }

  function FirstIndexOf(t: string, c: char): (r: Option<nat>)
    ensures r.Some? ==> r.value < |t| && t[r.value] == c && forall i :: 0 <= i < r.value ==> t[i] != c
    ensures r.None? ==> forall i :: 0 <= i < |t| ==> t[i] != c
    decreases |t|
  {
    if t == [] then None
    else if t[0] == c then Some(0)
    else match FirstIndexOf(t[1..], c)
      case None => None
      case Some(j) => Some(j + 1)
  }

  function LastIndexOf(t: string, c: char): (r: Option<nat>)
    ensures r.Some? ==> r.value < |t| && t[r.value] == c && forall i :: r.value < i < |t| ==> t[i] != c
    ensures r.None? ==> forall i :: 0 <= i < |t| ==> t[i] != c
    decreases |t|
  {
    if t == [] then None
    else if t[|t| - 1] == c then Some(|t| - 1)
    else LastIndexOf(t[..|t| - 1], c)
  }

  /** Strict splitting on `sep`: always at least one piece, possibly empty ones. */
  function Split(t: string, sep: char): (r: seq<string>)
    ensures |r| >= 1
    decreases |t|
  {
    match LastIndexOf(t, sep)
    case None => [t]
    case Some(j) => Split(t[..j], sep) + [t[j + 1..]]
  }

  /** `+` stands for a space, then percent-decoding and UTF-8 decoding. */
  function FormDecode(t: string): Option<string> {
    match PercentDecode(t, true)
    case None => None
    case Some(bs) => Decode(bs)
  }

  /** One `&`-separated sequence: split at the first `=`; without one, the whole is the name and the value is empty. */
  function ParseSequence(seg: string): Option<Pair> {
    var name := match FirstIndexOf(seg, '=') case None => seg case Some(j) => seg[..j];
    var value := match FirstIndexOf(seg, '=') case None => "" case Some(j) => seg[j + 1..];
    match FormDecode(name)
    case None => None
    case Some(n) =>
      match FormDecode(value)
      case None => None
      case Some(v) => Some((n, v))
  }

  /** Parses the sequences in order, skipping empty ones. */
  function ParseSequences(segs: seq<string>): Option<seq<Pair>>
    decreases |segs|
  {
    if segs == [] then Some([])
    else
      match ParseSequences(segs[..|segs| - 1])
      case None => None
      case Some(init) =>
        if segs[|segs| - 1] == "" then Some(init)
        else
          match ParseSequence(segs[|segs| - 1])
          case None => None
          case Some(p) => Some(init + [p])
  }

  /**
   * The urlencoded parser, decoding strictly: `None` where the lenient
   * standard parser would substitute U+FFFD or keep a stray `%`.
   */
  function Parse(t: string): Option<seq<Pair>> {
    ParseSequences(Split(t, '&'))
  }

  // ---- Proofs ----

  lemma PercentDecodeFormChar(c: char, rest: string)
    ensures PercentDecode(FormEncodeChar(c) + rest, true) == PrependOctets(EncodeChar(c), PercentDecode(rest, true))
  {
    if c == ' ' || IsFormSafe(c) {
      var t := FormEncodeChar(c) + rest;
      assert t[1..] == rest;
    } else {
      PercentDecodeOctets(EncodeChar(c), rest, true);
    }
  }

  lemma {:induction false} PercentDecodeFormEncode(s: string)
    ensures PercentDecode(FormEncode(s), true) == Some(Utf8.Encode(s))
    decreases |s|
  {
    if s != [] {
      PercentDecodeFormChar(s[0], FormEncode(s[1..]));
      PercentDecodeFormEncode(s[1..]);
    }
  }

  /** Form-decoding undoes form-encoding. */
  lemma FormDecodeEncode(s: string)
    ensures FormDecode(FormEncode(s)) == Some(s)
  {
    PercentDecodeFormEncode(s);
    Utf8.DecodeEncode(s);
  }

  /** An encoded pair splits back at its `=` into the encoded name and value. */
  lemma ParseSerializedPair(p: Pair)
    ensures ParseSequence(SerializePair(p)) == Some(p)
  {
    var a := FormEncode(p.0);
    FormEncodeChars(p.0);
    var seg := SerializePair(p);
    assert seg[|a|] == '=';
    assert forall i :: 0 <= i < |a| ==> seg[i] == a[i];
    assert FirstIndexOf(seg, '=') == Some(|a|);
    assert seg[..|a|] == a;
    assert seg[|a| + 1..] == FormEncode(p.1);
    FormDecodeEncode(p.0);
    FormDecodeEncode(p.1);
  }

  lemma SerializePairHasNoAmpersand(p: Pair)
    ensures forall i :: 0 <= i < |SerializePair(p)| ==> SerializePair(p)[i] != '&'
  {
    FormEncodeChars(p.0);
    FormEncodeChars(p.1);
    var a := FormEncode(p.0);
    var b := FormEncode(p.1);
    assert forall i :: |a| < i < |SerializePair(p)| ==> SerializePair(p)[i] == b[i - |a| - 1];
  }

  lemma SplitWithoutSeparator(t: string, sep: char)
    requires forall i :: 0 <= i < |t| ==> t[i] != sep
    ensures Split(t, sep) == [t]
  {
  }

  lemma SplitAppend(a: string, b: string, sep: char)
    requires forall i :: 0 <= i < |b| ==> b[i] != sep
    ensures Split(a + [sep] + b, sep) == Split(a, sep) + [b]
  {
    var t := a + [sep] + b;
    assert t[|a|] == sep;
    assert forall i :: |a| < i < |t| ==> t[i] == b[i - |a| - 1];
    assert LastIndexOf(t, sep) == Some(|a|);
    assert t[..|a|] == a;
    assert t[|a| + 1..] == b;
  }

  /** Splitting a serialization on `&` gives back one serialized pair per pair. */
  lemma {:induction false} SplitSerialize(ps: seq<Pair>)
    requires |ps| >= 1
    ensures Split(Serialize(ps), '&') == SerializedPairs(ps)
    decreases |ps|
  {
    var last := SerializePair(ps[|ps| - 1]);
    SerializePairHasNoAmpersand(ps[|ps| - 1]);
    if |ps| == 1 {
      SplitWithoutSeparator(last, '&');
    } else {
      var init := ps[..|ps| - 1];
      SplitSerialize(init);
      SplitAppend(Serialize(init), last, '&');
    }
  }

  /** The serialized pairs, one string each. */
  function SerializedPairs(ps: seq<Pair>): (r: seq<string>)
    ensures |r| == |ps|
    decreases |ps|
  {
    if ps == [] then [] else SerializedPairs(ps[..|ps| - 1]) + [SerializePair(ps[|ps| - 1])]
  }

  lemma {:induction false} ParseSequencesSerialized(ps: seq<Pair>)
    ensures ParseSequences(SerializedPairs(ps)) == Some(ps)
    decreases |ps|
  {
    if ps != [] {
      var n := |ps| - 1;
      var init, last := SerializedPairs(ps[..n]), SerializePair(ps[n]);
      assert SerializedPairs(ps) == init + [last];
      Snoc(init, last);
      ParseSequencesSerialized(ps[..n]);
      ParseSerializedPair(ps[n]);
      ParseSequencesStep(init + [last], ps[..n], ps[n]);
      PrefixSnoc(ps);
    }
  }

  lemma PrefixSnoc<X>(xs: seq<X>)
    requires xs != []
    ensures xs[..|xs| - 1] + [xs[|xs| - 1]] == xs
  {
  }

  lemma Snoc<X>(xs: seq<X>, x: X)
    ensures (xs + [x])[..|xs|] == xs && (xs + [x])[|xs|] == x
  {
  }

  lemma ParseSequencesStep(segs: seq<string>, init: seq<Pair>, p: Pair)
    requires segs != [] && ParseSequences(segs[..|segs| - 1]) == Some(init)
    requires segs[|segs| - 1] != "" && ParseSequence(segs[|segs| - 1]) == Some(p)
    ensures ParseSequences(segs) == Some(init + [p])
  {
  }

  /** Parsing a serialization gives back the same pairs in the same order. */
  lemma ParseSerialize(ps: seq<Pair>)
    ensures Parse(Serialize(ps)) == Some(ps)
  {
    if ps == [] {
      assert Split("", '&') == [""];
      assert ParseSequences([""]) == ParseSequences([]);
    } else {
      SplitSerialize(ps);
      ParseSequencesSerialized(ps);
    }
  }

  /** Serialization is injective: different lists never give the same query. */
  lemma SerializeInjective(ps: seq<Pair>, qs: seq<Pair>)
    requires Serialize(ps) == Serialize(qs)
    ensures ps == qs
  {
    ParseSerialize(ps);
    ParseSerialize(qs);
  }

  /** A string of form-safe characters serializes to itself. */
  lemma {:induction false} FormEncodeIdentity(s: string)
    requires forall i :: 0 <= i < |s| ==> IsFormSafe(s[i])
    ensures FormEncode(s) == s
    decreases |s|
  {
    if s != [] {
      FormEncodeIdentity(s[1..]);
      assert [s[0]] + s[1..] == s;
    }
  }
}
