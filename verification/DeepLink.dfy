/** The deep link: the URL the command line prints for a path, and the path the
    application extracts from it, over UTF-8 bytes. */
module DeepLink {
  import opened Json

  type byte = b: int | 0 <= b < 256

  type Bytes = seq<byte>

  const PERCENT: byte := 0x25
  const SLASH: byte := 0x2F

  /** `kanban://open/` */
  const PREFIX: Bytes := [0x6B, 0x61, 0x6E, 0x62, 0x61, 0x6E, 0x3A, 0x2F, 0x2F, 0x6F, 0x70, 0x65, 0x6E, 0x2F]

  /** The prefix, character by character. */
  lemma PrefixText()
    ensures |PREFIX| == |"kanban://open/"| && forall i :: 0 <= i < |PREFIX| ==> PREFIX[i] == "kanban://open/"[i] as int
  {
  }

  /** The unreserved characters of section 2.3 of RFC 3986. */
  predicate Unreserved(b: byte) {
    || 0x30 <= b <= 0x39 || 0x41 <= b <= 0x5A || 0x61 <= b <= 0x7A
    || b == 0x2D || b == 0x2E || b == 0x5F || b == 0x7E
  }

  function HexDigit(n: int): (b: byte)
    requires 0 <= n < 16
    ensures IsHexDigit(b, n) && FromHex(b) == Some(n) && Unreserved(b)
  {
    if n < 10 then 0x30 + n else 0x41 + n - 10
  }

  function FromHex(b: byte): Option<int> {
    if 0x30 <= b <= 0x39 then Some(b - 0x30)
    else if 0x41 <= b <= 0x46 then Some(b - 0x41 + 10)
    else if 0x61 <= b <= 0x66 then Some(b - 0x61 + 10)
    else None
  }

  /** `b` is a digit for `n`, in either case. */
  ghost predicate IsHexDigit(b: byte, n: int) {
    || (0 <= n < 10 && b == 0x30 + n)
    || (10 <= n < 16 && (b == 0x41 + n - 10 || b == 0x61 + n - 10))
  }

  function EncodeByte(b: byte): Bytes {
    if Unreserved(b) then [b] else [PERCENT, HexDigit(b / 16), HexDigit(b % 16)]
  }

  /** Percent-encoding, section 2.1 of RFC 3986. */
  function Encode(s: Bytes): Bytes {
    if s == [] then [] else EncodeByte(s[0]) + Encode(s[1..])
  }

  /** Percent-decoding; a `%` without two hex digits stands for itself. */
  function Decode(s: Bytes): Bytes {
    if s == [] then []
    else if s[0] == PERCENT && |s| >= 3 && FromHex(s[1]).Some? && FromHex(s[2]).Some? then
      [DecodePair(s[1], s[2])] + Decode(s[3..])
    else [s[0]] + Decode(s[1..])
  }

  function DecodePair(hi: byte, lo: byte): (b: byte)
    requires FromHex(hi).Some? && FromHex(lo).Some?
  {
    FromHex(hi).value * 16 + FromHex(lo).value
  }

  predicate Continuation(b: byte) { 0x80 <= b <= 0xBF }

  /** Well-formed UTF-8. */
  predicate ValidUtf8(s: Bytes) {
    if s == [] then true
    else if s[0] <= 0x7F then ValidUtf8(s[1..])
    else if 0xC2 <= s[0] <= 0xDF then |s| >= 2 && Continuation(s[1]) && ValidUtf8(s[2..])
    else if 0xE0 <= s[0] <= 0xEF then
      |s| >= 3 && Continuation(s[1]) && Continuation(s[2]) &&
      (s[0] == 0xE0 ==> s[1] >= 0xA0) && (s[0] == 0xED ==> s[1] <= 0x9F) && ValidUtf8(s[3..])
    else if 0xF0 <= s[0] <= 0xF4 then
      |s| >= 4 && Continuation(s[1]) && Continuation(s[2]) && Continuation(s[3]) &&
      (s[0] == 0xF0 ==> s[1] >= 0x90) && (s[0] == 0xF4 ==> s[1] <= 0x8F) && ValidUtf8(s[4..])
    else false
  }

  // ---- what well-formed means -----------------------------------------------------------

  /** A Unicode scalar value: a code point that is no surrogate. */
  type Scalar = c: int | (0 <= c <= 0xD7FF) || (0xE000 <= c <= 0x10FFFF)

  /** The encoding of one scalar value, section 3 of RFC 3629. */
  function EncodeScalar(c: Scalar): Bytes {
    if c <= 0x7F then [c]
    else if c <= 0x7FF then [0xC0 + c / 0x40, 0x80 + c % 0x40]
    else if c <= 0xFFFF then [0xE0 + c / 0x1000, 0x80 + c / 0x40 % 0x40, 0x80 + c % 0x40]
    else [0xF0 + c / 0x40000, 0x80 + c / 0x1000 % 0x40, 0x80 + c / 0x40 % 0x40, 0x80 + c % 0x40]
  }

  function Utf8(text: seq<Scalar>): Bytes {
    if text == [] then [] else EncodeScalar(text[0]) + Utf8(text[1..])
  }

  lemma EncodedScalarValid(c: Scalar, rest: Bytes)
    ensures ValidUtf8(EncodeScalar(c) + rest) == ValidUtf8(rest)
  {
    var t := EncodeScalar(c) + rest;
    assert t[|EncodeScalar(c)|..] == rest;
  }

  lemma {:induction false} TextIsValid(text: seq<Scalar>)
    ensures ValidUtf8(Utf8(text))
  {
    if text != [] {
      TextIsValid(text[1..]);
      EncodedScalarValid(text[0], Utf8(text[1..]));
    }
  }

  /** The scalar value that well-formed bytes begin with. */
  lemma FirstScalar(s: Bytes) returns (c: Scalar, n: nat)
    requires s != [] && ValidUtf8(s)
    ensures 0 < n <= |s| && s[..n] == EncodeScalar(c) && ValidUtf8(s[n..])
  {
    if s[0] <= 0x7F {
      c, n := s[0], 1;
    } else if s[0] <= 0xDF {
      c := TwoBytes(s[0], s[1]);
      n := 2;
    } else if s[0] <= 0xEF {
      c := ThreeBytes(s[0], s[1], s[2]);
      n := 3;
    } else {
      c := FourBytes(s[0], s[1], s[2], s[3]);
      n := 4;
    }
  }

  lemma TwoBytes(a: byte, b: byte) returns (c: Scalar)
    requires 0xC2 <= a <= 0xDF && Continuation(b)
    ensures EncodeScalar(c) == [a, b]
  {
    c := (a - 0xC0) * 0x40 + (b - 0x80);
  }

  lemma ThreeBytes(a: byte, b: byte, d: byte) returns (c: Scalar)
    requires 0xE0 <= a <= 0xEF && Continuation(b) && Continuation(d)
    requires (a == 0xE0 ==> b >= 0xA0) && (a == 0xED ==> b <= 0x9F)
    ensures EncodeScalar(c) == [a, b, d]
  {
    var high := (a - 0xE0) * 0x40 + (b - 0x80);
    c := high * 0x40 + (d - 0x80);
    assert c / 0x40 == high && c % 0x40 == d - 0x80;
    assert c / 0x1000 == a - 0xE0;
  }

  lemma FourBytes(a: byte, b: byte, d: byte, e: byte) returns (c: Scalar)
    requires 0xF0 <= a <= 0xF4 && Continuation(b) && Continuation(d) && Continuation(e)
    requires (a == 0xF0 ==> b >= 0x90) && (a == 0xF4 ==> b <= 0x8F)
    ensures EncodeScalar(c) == [a, b, d, e]
  {
    var top := (a - 0xF0) * 0x40 + (b - 0x80);
    var high := top * 0x40 + (d - 0x80);
    c := high * 0x40 + (e - 0x80);
    assert c / 0x40 == high && c % 0x40 == e - 0x80;
    assert c / 0x1000 == top && c / 0x40000 == a - 0xF0;
  }

  /** The bytes accepted as UTF-8 are exactly the encodings of texts. */
  lemma ValidIsText(s: Bytes)
    ensures ValidUtf8(s) <==> exists text :: Utf8(text) == s
  {
    if ValidUtf8(s) {
      var text := TextOf(s);
      assert Utf8(text) == s;
    }
    forall text | Utf8(text) == s ensures ValidUtf8(s) { TextIsValid(text); }
  }

  /** The text that well-formed bytes encode. */
  lemma {:induction false} TextOf(s: Bytes) returns (text: seq<Scalar>)
    requires ValidUtf8(s)
    ensures Utf8(text) == s
    decreases |s|
  {
    if s == [] {
      text := [];
    } else {
      var c, n := FirstScalar(s);
      var rest := TextOf(s[n..]);
      text := [c] + rest;
      assert text[1..] == rest;
      assert s == s[..n] + s[n..];
    }
  }

  function TrimEnd(s: Bytes): Bytes {
    if s != [] && s[|s| - 1] == SLASH then TrimEnd(s[..|s| - 1]) else s
  }

  /** The URL `handle_open` prints. */
  function OpenUrl(path: Bytes): Bytes { PREFIX + Encode(path) }

  /** `extract_open_path` */
  function ExtractOpenPath(url: Bytes): Option<Bytes> {
    if !(PREFIX <= url) then None
    else
      var path := TrimEnd(url[|PREFIX|..]);
      if path == [] then None
      else if ValidUtf8(Decode(path)) then Some(Decode(path))
      else None
  }

  lemma {:induction false} DecodeEncode(s: Bytes)
    ensures Decode(Encode(s)) == s
  {
    if s != [] {
      DecodeEncode(s[1..]);
      var t := Encode(s);
      if Unreserved(s[0]) {
        assert t[0] == s[0] && t[1..] == Encode(s[1..]);
      } else {
        assert t[0] == PERCENT && t[1] == HexDigit(s[0] / 16) && t[2] == HexDigit(s[0] % 16);
        assert t[3..] == Encode(s[1..]);
        assert DecodePair(t[1], t[2]) == s[0];
      }
      assert s == [s[0]] + s[1..];
    }
  }

  /** An encoded path is made of unreserved characters and percent signs, so it
      holds no slash for the trimming to eat. */
  lemma {:induction false} EncodedBytes(s: Bytes)
    ensures forall i :: 0 <= i < |Encode(s)| ==> Unreserved(Encode(s)[i]) || Encode(s)[i] == PERCENT
    ensures Encode(s) == [] <==> s == []
  {
    if s != [] { EncodedBytes(s[1..]); }
  }

  /** Exactly the letters, the digits and four signs are printed as they are. */
  lemma PrintedAsIs(b: byte)
    ensures Encode([b]) == [b] <==>
            || 'A' as int <= b <= 'Z' as int || 'a' as int <= b <= 'z' as int || '0' as int <= b <= '9' as int
            || b == '-' as int || b == '.' as int || b == '_' as int || b == '~' as int
  {
    assert [b][1..] == [] && Encode([]) == [];
  }

  /** The deep-link round trip: every non-empty text comes back as a path, and
      the empty one is refused. */
  lemma OpenUrlRoundTrip(text: seq<Scalar>)
    ensures ExtractOpenPath(OpenUrl(Utf8(text))) == if text == [] then None else Some(Utf8(text))
  {
    var path := Utf8(text);
    var url := OpenUrl(path);
    TextIsValid(text);
    assert url[|PREFIX|..] == Encode(path);
    EncodedBytes(path);
    assert Encode(path) != [] ==> Encode(path)[|Encode(path)| - 1] != SLASH;
    DecodeEncode(path);
  }

  /** `t` spells `s`: a byte stands for itself or is escaped, and a percent sign
      always is. */
  ghost predicate Spells(t: Bytes, s: Bytes) {
    if s == [] then t == []
    else
      || (t != [] && t[0] == s[0] != PERCENT && Spells(t[1..], s[1..]))
      || (|t| >= 3 && t[0] == PERCENT && IsHexDigit(t[1], s[0] / 16) && IsHexDigit(t[2], s[0] % 16) &&
          Spells(t[3..], s[1..]))
  }

  lemma {:induction false} SpellingDecodes(t: Bytes, s: Bytes)
    requires Spells(t, s)
    ensures Decode(t) == s
  {
    if s != [] {
      if t[0] == s[0] != PERCENT {
        SpellingDecodes(t[1..], s[1..]);
      } else {
        assert FromHex(t[1]) == Some(s[0] / 16) && FromHex(t[2]) == Some(s[0] % 16);
        assert DecodePair(t[1], t[2]) == s[0];
        SpellingDecodes(t[3..], s[1..]);
      }
      assert s == [s[0]] + s[1..];
    }
  }

  /** Every spelling of a non-empty text is read back, whichever of its bytes are
      escaped and in either case of the digits; only slashes at the very end are
      lost when they are not escaped. */
  lemma SpellingReadsBack(text: seq<Scalar>, t: Bytes)
    requires text != [] && Spells(t, Utf8(text)) && t[|t| - 1] != SLASH
    ensures ExtractOpenPath(PREFIX + t) == Some(Utf8(text))
  {
    TextIsValid(text);
    SpellingDecodes(t, Utf8(text));
    assert (PREFIX + t)[|PREFIX|..] == t;
  }

  lemma {:induction false} TrimEndIs(s: Bytes)
    ensures TrimEnd(s) <= s && (TrimEnd(s) != [] ==> TrimEnd(s)[|TrimEnd(s)| - 1] != SLASH)
    ensures forall i :: |TrimEnd(s)| <= i < |s| ==> s[i] == SLASH
  {
    if s != [] && s[|s| - 1] == SLASH { TrimEndIs(s[..|s| - 1]); }
  }

  /** A URL gives a path exactly when it has the prefix, goes on with something
      else than slashes, and what it spells is a text. */
  lemma ExtractsTexts(url: Bytes)
    ensures ExtractOpenPath(url).Some? <==>
            && PREFIX <= url
            && (exists i :: |PREFIX| <= i < |url| && url[i] != SLASH)
            && exists text :: Utf8(text) == Decode(TrimEnd(url[|PREFIX|..]))
    ensures ExtractOpenPath(url).Some? ==> ExtractOpenPath(url).value == Decode(TrimEnd(url[|PREFIX|..]))
  {
    if PREFIX <= url {
      var rest := url[|PREFIX|..];
      TrimEndIs(rest);
      ValidIsText(Decode(TrimEnd(rest)));
      if TrimEnd(rest) != [] {
        assert url[|PREFIX| + |TrimEnd(rest)| - 1] != SLASH;
      } else {
        forall i | |PREFIX| <= i < |url| ensures url[i] == SLASH { assert url[i] == rest[i - |PREFIX|]; }
      }
    }
  }

  function Slashes(n: nat): Bytes { seq(n, _ => SLASH) }

  lemma {:induction false} TrimSlashes(s: Bytes, n: nat)
    ensures TrimEnd(s + Slashes(n)) == TrimEnd(s)
  {
    if n == 0 {
      assert s + Slashes(0) == s;
    } else {
      var t := s + Slashes(n);
      assert t[|t| - 1] == SLASH;
      assert t[..|t| - 1] == s + Slashes(n - 1);
      TrimSlashes(s, n - 1);
    }
  }

  /** Slashes added after the printed path make no difference. */
  lemma TrailingSlashesIgnored(path: Bytes, n: nat)
    ensures ExtractOpenPath(OpenUrl(path) + Slashes(n)) == ExtractOpenPath(OpenUrl(path))
  {
    var url := OpenUrl(path) + Slashes(n);
    assert url[|PREFIX|..] == Encode(path) + Slashes(n);
    assert OpenUrl(path)[|PREFIX|..] == Encode(path);
    TrimSlashes(Encode(path), n);
  }

  /** Two paths never print the same URL. */
  lemma OpenUrlInjective(a: Bytes, b: Bytes)
    requires OpenUrl(a) == OpenUrl(b)
    ensures a == b
  {
    assert OpenUrl(a)[|PREFIX|..] == Encode(a) && OpenUrl(b)[|PREFIX|..] == Encode(b);
    DecodeEncode(a);
    DecodeEncode(b);
  }
}
