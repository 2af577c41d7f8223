/** Reading a profile picture from the hex dump of the directory service. */
module ProfilePhoto {
  import opened Json

  type byte = b: int | 0 <= b < 256

  const HEADER := "JPEGPhoto:\n"
  const SOI_LEN := 2
  const SOI_FIRST: byte := 0xFF
  const SOI_SECOND: byte := 0xD8

  function HexValue(c: char): Option<int> {
    if '0' <= c <= '9' then Some(c as int - '0' as int)
    else if 'a' <= c <= 'f' then Some(c as int - 'a' as int + 10)
    else if 'A' <= c <= 'F' then Some(c as int - 'A' as int + 10)
    else None
  }

  /** The nibbles of the hex digits in a text; every other character is layout. */
  function Nibbles(s: string): seq<int> {
    if s == "" then []
    else (match HexValue(s[0]) case Some(n) => [n] case None => []) + Nibbles(s[1..])
  }

  ghost predicate AreNibbles(ns: seq<int>) { forall i :: 0 <= i < |ns| ==> 0 <= ns[i] < 16 }

  /** The nibbles a dump of these bytes spells. */
  function Spelled(bytes: seq<byte>): (ns: seq<int>)
    ensures |ns| == 2 * |bytes|
  {
    if bytes == [] then [] else Spelled(bytes[..|bytes| - 1]) + [bytes[|bytes| - 1] / 16, bytes[|bytes| - 1] % 16]
  }

  function Body(stdout: string): string {
    if HEADER <= stdout then stdout[|HEADER|..] else stdout
  }

  lemma {:induction false} NibblesRange(s: string)
    ensures AreNibbles(Nibbles(s))
  {
    if s != "" { NibblesRange(s[1..]); }
  }

  lemma NibblesLast(s: string)
    requires s != ""
    ensures var n := |s| - 1;
            Nibbles(s) == Nibbles(s[..n]) + match HexValue(s[n]) case Some(v) => [v] case None => []
  {
    var n := |s| - 1;
    NibblesConcat(s[..n], [s[n]]);
    NibblesOne(s[n]);
    assert s == s[..n] + [s[n]];
  }

  lemma NibblesOne(c: char)
    ensures Nibbles([c]) == match HexValue(c) case Some(v) => [v] case None => []
  {
    assert [c][1..] == "";
  }

  /** Keeps the hex digits of a text. */
  method HexClean(s: string) returns (clean: string)
    ensures |clean| == |Nibbles(s)| && forall i :: 0 <= i < |clean| ==> HexValue(clean[i]) == Some(Nibbles(s)[i])
  {
    clean := "";
    for i := 0 to |s|
      invariant |clean| == |Nibbles(s[..i])|
      invariant forall j :: 0 <= j < |clean| ==> HexValue(clean[j]) == Some(Nibbles(s[..i])[j])
    {
      assert s[..i + 1][..i] == s[..i];
      NibblesLast(s[..i + 1]);
      if HexValue(s[i]).Some? {
        clean := clean + [s[i]];
      }
    }
    assert s[..|s|] == s;
  }

  lemma SpelledNext(bytes: seq<byte>, hi: int, lo: int)
    requires 0 <= hi < 16 && 0 <= lo < 16
    ensures Spelled(bytes + [hi * 16 + lo]) == Spelled(bytes) + [hi, lo]
  {
    assert (bytes + [hi * 16 + lo])[..|bytes|] == bytes;
  }

  lemma {:induction false} SpelledAt(bytes: seq<byte>, m: nat)
    requires m < |bytes|
    ensures Spelled(bytes)[2 * m] == bytes[m] / 16 && Spelled(bytes)[2 * m + 1] == bytes[m] % 16
    decreases |bytes|
  {
    var n := |bytes| - 1;
    if m < n { SpelledAt(bytes[..n], m); }
  }

  predicate JpegBytes(bytes: seq<byte>) {
    |bytes| > SOI_LEN && bytes[0] == SOI_FIRST && bytes[1] == SOI_SECOND
  }

  predicate StartsJpeg(ns: seq<int>) {
    |ns| >= 4 && ns[0] == 0xF && ns[1] == 0xF && ns[2] == 0xD && ns[3] == 0x8
  }

  lemma SameByte(a: byte, b: byte)
    ensures a == b <==> a / 16 == b / 16 && a % 16 == b % 16
  {
    assert a == a / 16 * 16 + a % 16 && b == b / 16 * 16 + b % 16;
  }

  /** Whether the bytes begin like a JPEG, read off the nibbles they spell. */
  lemma SpelledStart(bytes: seq<byte>)
    requires |bytes| > SOI_LEN
    ensures JpegBytes(bytes) <==> StartsJpeg(Spelled(bytes))
  {
    var ns := Spelled(bytes);
    assert ns[0] == bytes[0] / 16 && ns[1] == bytes[0] % 16 by { SpelledAt(bytes, 0); }
    assert ns[2] == bytes[1] / 16 && ns[3] == bytes[1] % 16 by { SpelledAt(bytes, 1); }
    SameByte(bytes[0], SOI_FIRST);
    SameByte(bytes[1], SOI_SECOND);
  }

  /** Pairs the digits up; a last one without a partner is dropped. */
  method Pairs(clean: string, ghost ns: seq<int>) returns (bytes: seq<byte>)
    requires |clean| == |ns| && AreNibbles(ns)
    requires forall i :: 0 <= i < |clean| ==> HexValue(clean[i]) == Some(ns[i])
    ensures |bytes| == |ns| / 2 && Spelled(bytes) == ns[..2 * |bytes|]
  {
    bytes := [];
    var i := 0;
    while i + 1 < |clean|
      invariant 0 <= i <= |clean| && i == 2 * |bytes| && Spelled(bytes) == ns[..i]
    {
      var hi, lo := HexValue(clean[i]).value, HexValue(clean[i + 1]).value;
      SpelledNext(bytes, hi, lo);
      assert ns[..i + 2] == ns[..i] + [hi, lo];
      bytes := bytes + [hi * 16 + lo];
      i := i + 2;
    }
  }

  /** The spelled bytes, exactly when they begin like a JPEG and go on. */
  ghost predicate IsPhotoOf(stdout: string, photo: Option<seq<byte>>) { IsPhotoFrom(Nibbles(Body(stdout)), photo) }

  ghost predicate IsPhotoFrom(ns: seq<int>, photo: Option<seq<byte>>) {
    && (photo.Some? <==> |ns| / 2 > SOI_LEN && StartsJpeg(ns))
    && (photo.Some? ==> Spelled(photo.value) == ns[..2 * (|ns| / 2)])
  }

  /** `dscl_jpeg_photo`, from the command's output to the picture's bytes. */
  method JpegPhoto(stdout: string) returns (photo: Option<seq<byte>>)
    ensures IsPhotoOf(stdout, photo)
  {
    var body := if HEADER <= stdout then stdout[|HEADER|..] else stdout;
    var clean := HexClean(body);
    NibblesRange(body);
    var bytes := Pairs(clean, Nibbles(body));
    if |bytes| > SOI_LEN { SpelledStart(bytes); }
    if JpegBytes(bytes) {
      photo := Some(bytes);
    } else {
      photo := None;
    }
  }

  lemma {:induction false} SpelledInjective(a: seq<byte>, b: seq<byte>)
    ensures Spelled(a) == Spelled(b) <==> a == b
    decreases |a|
  {
    if Spelled(a) == Spelled(b) && a != [] {
      var n := |a| - 1;
      assert Spelled(a)[..2 * n] == Spelled(a[..n]) && Spelled(b)[..2 * n] == Spelled(b[..n]);
      SpelledInjective(a[..n], b[..n]);
      assert Spelled(a)[2 * n] == a[n] / 16 && Spelled(a)[2 * n + 1] == a[n] % 16;
      assert Spelled(b)[2 * n] == b[n] / 16 && Spelled(b)[2 * n + 1] == b[n] % 16;
      assert a[n] == b[n];
      assert a == a[..n] + [a[n]] && b == b[..n] + [b[n]];
    }
  }

  lemma {:induction false} NibblesConcat(a: string, b: string)
    ensures Nibbles(a + b) == Nibbles(a) + Nibbles(b)
  {
    if a == "" {
      assert a + b == b;
    } else {
      assert (a + b)[1..] == a[1..] + b;
      NibblesConcat(a[1..], b);
    }
  }

  lemma SpelledPhoto(bytes: seq<byte>, photo: Option<seq<byte>>)
    requires IsPhotoFrom(Spelled(bytes), photo)
    ensures photo == if JpegBytes(bytes) then Some(bytes) else None
  {
    if |bytes| > SOI_LEN { SpelledStart(bytes); }
    var ns := Spelled(bytes);
    assert |ns| / 2 == |bytes|;
    if photo.Some? {
      assert Spelled(photo.value) == ns;
      SpelledInjective(photo.value, bytes);
    }
  }

  const LOWER := "0123456789abcdef"
  const UPPER := "0123456789ABCDEF"

  /** The text spells the nibbles by hex digits of either case, with any other
      characters between them. */
  ghost predicate SpellsNibbles(s: string, ns: seq<int>) {
    if s == "" then ns == []
    else if s[0] !in LOWER && s[0] !in UPPER then SpellsNibbles(s[1..], ns)
    else ns != [] && 0 <= ns[0] < 16 && s[0] in [LOWER[ns[0]], UPPER[ns[0]]] && SpellsNibbles(s[1..], ns[1..])
  }

  lemma HexDigits(c: char, n: nat)
    requires n < 16
    ensures c in [LOWER[n], UPPER[n]] <==> HexValue(c) == Some(n)
  {
  }

  lemma HexCharacters(c: char)
    ensures HexValue(c).Some? <==> c in LOWER || c in UPPER
    ensures HexValue(c).Some? ==> 0 <= HexValue(c).value < 16
  {
    if HexValue(c).Some? { HexDigits(c, HexValue(c).value); }
    if c in LOWER {
      var i :| 0 <= i < |LOWER| && LOWER[i] == c;
      HexDigits(c, i);
    } else if c in UPPER {
      var i :| 0 <= i < |UPPER| && UPPER[i] == c;
      HexDigits(c, i);
    }
  }

  /** The nibbles read are the ones spelled. */
  lemma {:induction false} SpelledIsRead(s: string, ns: seq<int>)
    ensures SpellsNibbles(s, ns) <==> Nibbles(s) == ns
  {
    if s != "" {
      HexCharacters(s[0]);
      if HexValue(s[0]).Some? {
        if ns != [] {
          if 0 <= ns[0] < 16 { HexDigits(s[0], ns[0]); }
          SpelledIsRead(s[1..], ns[1..]);
          assert ns == [ns[0]] + ns[1..];
        }
      } else {
        SpelledIsRead(s[1..], ns);
      }
    }
  }

  /** Reading back: a dump that spells some bytes in hex, in either case and with
      any layout, gives those bytes when they begin like a JPEG and go on. */
  lemma DumpReadsBack(dump: string, bytes: seq<byte>, photo: Option<seq<byte>>)
    requires SpellsNibbles(dump, Spelled(bytes)) && IsPhotoOf("JPEGPhoto:\n" + dump, photo)
    ensures photo == if |bytes| > 2 && bytes[0] == 0xFF && bytes[1] == 0xD8 then Some(bytes) else None
  {
    SpelledIsRead(dump, Spelled(bytes));
    assert Body(HEADER + dump) == dump;
    SpelledPhoto(bytes, photo);
  }

  lemma LeadingE(t: string)
    ensures Nibbles("JPE" + t) == [0xE] + Nibbles(t)
  {
    NibblesConcat("JPE", t);
    assert "JPE"[1..] == "PE" && "PE"[1..] == "E" && "E"[1..] == "";
    assert Nibbles("E") == [0xE] + Nibbles("E"[1..]);
  }

  /** A dump on the header's own line is never accepted: the header's letter E
      is itself a hex digit and comes before every other. */
  lemma OneLineDumpRefused(rest: string, photo: Option<seq<byte>>)
    requires !(HEADER <= "JPEGPhoto:" + rest) && IsPhotoOf("JPEGPhoto:" + rest, photo)
    ensures photo == None
  {
    assert "JPEGPhoto:" + rest == "JPE" + ("GPhoto:" + rest);
    LeadingE("GPhoto:" + rest);
  }
}
