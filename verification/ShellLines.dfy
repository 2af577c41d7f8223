/** What the shell's reading of a line means, from the writer's side: every list of
    words, however each is quoted, is read back, and what cannot be a plain list of
    words is refused wherever it stands. */
module ShellLines {
  import opened Json
  import opened AppleScript
  import opened ShellWords

  /** A piece of a word: one character as it is, one behind a backslash, or a text
      in single or in double quotes. */
  datatype Piece = Character(c: char) | Escaped(c: char) | Quoted1(text: string) | Quoted2(text: string)

  ghost predicate PieceOk(p: Piece) {
    match p
    case Character(c) => c !in " '\"\\\n\t;&|<>()$`*?[]#~!{}=%"
    case Escaped(c) => c != '\n'
    case Quoted1(text) => '\'' !in text
    case Quoted2(text) => forall i :: 0 <= i < |text| ==> text[i] !in "\"\\$`"
  }

  function PieceText(p: Piece): string {
    match p
    case Character(c) => [c]
    case Escaped(c) => ['\\', c]
    case Quoted1(text) => ['\''] + text + ['\'']
    case Quoted2(text) => ['"'] + text + ['"']
  }

  function PieceValue(p: Piece): string {
    match p
    case Character(c) => [c]
    case Escaped(c) => [c]
    case Quoted1(text) => text
    case Quoted2(text) => text
  }

  function WordText(pieces: seq<Piece>): string {
    if pieces == [] then "" else PieceText(pieces[0]) + WordText(pieces[1..])
  }

  function WordValue(pieces: seq<Piece>): string {
    if pieces == [] then "" else PieceValue(pieces[0]) + WordValue(pieces[1..])
  }

  function Spaces(n: nat): string { seq(n, _ => ' ') }

  /** The words with the given numbers of spaces before, between and after them. */
  function Line(words: seq<seq<Piece>>, gaps: seq<nat>): string
    requires |gaps| == |words| + 1
  {
    Spaces(gaps[0]) + if words == [] then "" else WordText(words[0]) + Line(words[1..], gaps[1..])
  }

  function Values(words: seq<seq<Piece>>): seq<string> {
    if words == [] then [] else [WordValue(words[0])] + Values(words[1..])
  }

  ghost predicate WordOk(pieces: seq<Piece>) {
    pieces != [] && forall i :: 0 <= i < |pieces| ==> PieceOk(pieces[i])
  }

  ghost predicate LineOk(words: seq<seq<Piece>>, gaps: seq<nat>) {
    && |gaps| == |words| + 1
    && (forall i :: 0 <= i < |words| ==> WordOk(words[i]))
    && (forall i :: 0 < i < |words| ==> gaps[i] > 0)
  }

  // ---- reading what is spelled ---------------------------------------------------------

  lemma {:induction false} SpacesSkipped(n: nat, rest: string)
    ensures Words(Spaces(n) + rest, Between) == Words(rest, Between)
  {
    if n == 0 {
      assert Spaces(0) + rest == rest;
    } else {
      assert (Spaces(n) + rest)[1..] == Spaces(n - 1) + rest;
      SpacesSkipped(n - 1, rest);
    }
  }

  lemma {:induction false} DoubleQuoted(text: string, rest: string, w: string)
    requires forall i :: 0 <= i < |text| ==> text[i] !in "\"\\$`"
    ensures Words(text + rest, Double(w)) == Words(rest, Double(w + text))
  {
    if text == "" {
      assert text + rest == rest && w + text == w;
    } else {
      assert (text + rest)[1..] == text[1..] + rest;
      DoubleQuoted(text[1..], rest, w + [text[0]]);
      assert w + [text[0]] + text[1..] == w + text;
    }
  }

  lemma CharacterRead(c: char, rest: string, w: string)
    requires PieceOk(Character(c))
    ensures Words([c] + rest, Bare(w)) == Words(rest, Bare(w + [c]))
  {
    assert ([c] + rest)[1..] == rest && Plain(c);
  }

  lemma EscapedRead(c: char, rest: string, w: string)
    requires c != '\n'
    ensures Words(['\\', c] + rest, Bare(w)) == Words(rest, Bare(w + [c]))
  {
    assert (['\\', c] + rest)[2..] == rest;
  }

  lemma Quoted1Read(text: string, rest: string, w: string)
    requires '\'' !in text
    ensures Words(['\''] + text + ['\''] + rest, Bare(w)) == Words(rest, Bare(w + text))
  {
    var t := ['\''] + text + ['\''] + rest;
    assert t[1..] == text + [APOSTROPHE] + rest;
    PlainQuoted(text, rest, w);
  }

  lemma Quoted2Read(text: string, rest: string, w: string)
    requires forall i :: 0 <= i < |text| ==> text[i] !in "\"\\$`"
    ensures Words(['"'] + text + ['"'] + rest, Bare(w)) == Words(rest, Bare(w + text))
  {
    var t := ['"'] + text + ['"'] + rest;
    assert t[1..] == text + (['"'] + rest);
    DoubleQuoted(text, ['"'] + rest, w);
    assert (['"'] + rest)[1..] == rest;
  }

  lemma PieceRead(p: Piece, rest: string, w: string)
    requires PieceOk(p)
    ensures Words(PieceText(p) + rest, Bare(w)) == Words(rest, Bare(w + PieceValue(p)))
  {
    match p {
      case Character(c) => CharacterRead(c, rest, w);
      case Escaped(c) => EscapedRead(c, rest, w);
      case Quoted1(text) => Quoted1Read(text, rest, w);
      case Quoted2(text) => Quoted2Read(text, rest, w);
    }
  }

  lemma {:induction false} PiecesRead(pieces: seq<Piece>, rest: string, w: string)
    requires forall i :: 0 <= i < |pieces| ==> PieceOk(pieces[i])
    ensures Words(WordText(pieces) + rest, Bare(w)) == Words(rest, Bare(w + WordValue(pieces)))
  {
    if pieces == [] {
      assert WordText(pieces) + rest == rest && w + WordValue(pieces) == w;
    } else {
      assert WordText(pieces) + rest == PieceText(pieces[0]) + (WordText(pieces[1..]) + rest);
      PieceRead(pieces[0], WordText(pieces[1..]) + rest, w);
      PiecesRead(pieces[1..], rest, w + PieceValue(pieces[0]));
      assert w + PieceValue(pieces[0]) + WordValue(pieces[1..]) == w + WordValue(pieces);
    }
  }

  /** A word at the start of a line. */
  lemma WordRead(pieces: seq<Piece>, rest: string)
    requires WordOk(pieces)
    ensures Words(WordText(pieces) + rest, Between) == Words(rest, Bare(WordValue(pieces)))
  {
    PiecesRead(pieces, rest, "");
    assert PieceOk(pieces[0]);
    BetweenIsBare(WordText(pieces) + rest);
    assert "" + WordValue(pieces) == WordValue(pieces);
  }

  /** Reading `s` gives `first` and then whatever reading `rest` gives. */
  ghost predicate ReadsThen(s: string, first: seq<string>, rest: string) {
    Words(s, Between) == match Words(rest, Between) case None => None case Some(ws) => Some(first + ws)
  }

  lemma FirstWord(gap: nat, pieces: seq<Piece>, more: string)
    requires WordOk(pieces) && (more == "" || more[0] == ' ')
    ensures ReadsThen(Spaces(gap) + (WordText(pieces) + more), [WordValue(pieces)], more)
  {
    SpacesSkipped(gap, WordText(pieces) + more);
    WordRead(pieces, more);
    WordEnds(WordValue(pieces), more);
  }

  lemma ReadsFurther(s: string, a: seq<string>, t: string, b: seq<string>, u: string)
    requires ReadsThen(s, a, t) && ReadsThen(t, b, u)
    ensures ReadsThen(s, a + b, u)
  {
    if Words(u, Between).Some? { assert a + (b + Words(u, Between).value) == a + b + Words(u, Between).value; }
  }

  lemma OnlySpaces(gap: nat, rest: string)
    ensures ReadsThen(Spaces(gap) + rest, [], rest)
  {
    SpacesSkipped(gap, rest);
    if Words(rest, Between).Some? { assert [] + Words(rest, Between).value == Words(rest, Between).value; }
  }

  /** The words of a line, followed by anything once a space has closed the last. */
  lemma {:induction false} LineThen(words: seq<seq<Piece>>, gaps: seq<nat>, rest: string)
    requires LineOk(words, gaps) && (words == [] || rest == "" || gaps[|words|] > 0)
    ensures ReadsThen(Line(words, gaps) + rest, Values(words), rest)
    decreases |words|
  {
    if words == [] {
      assert Line(words, gaps) + rest == Spaces(gaps[0]) + rest;
      OnlySpaces(gaps[0], rest);
    } else {
      var more := Line(words[1..], gaps[1..]) + rest;
      assert Line(words, gaps) + rest == Spaces(gaps[0]) + (WordText(words[0]) + more);
      LineStarts(words[1..], gaps[1..], rest);
      FirstWord(gaps[0], words[0], more);
      LineThen(words[1..], gaps[1..], rest);
      ReadsFurther(Line(words, gaps) + rest, [WordValue(words[0])], more, Values(words[1..]), rest);
    }
  }

  lemma WordEnds(w: string, more: string)
    requires more == "" || more[0] == ' '
    ensures Words(more, Bare(w)) == match Words(more, Between) case None => None case Some(ws) => Some([w] + ws)
  {
    if more == "" { assert [w] + [] == [w]; }
  }

  lemma LineStarts(words: seq<seq<Piece>>, gaps: seq<nat>, rest: string)
    requires LineOk(words, gaps) && (gaps[0] > 0 || (words == [] && rest == ""))
    ensures var t := Line(words, gaps) + rest;
            t == "" || t[0] == ' '
  {
  }

  /** Every list of words, however it is spaced and quoted, is read back. */
  lemma LineReadsBack(words: seq<seq<Piece>>, gaps: seq<nat>)
    requires LineOk(words, gaps)
    ensures Words(Line(words, gaps), Between) == Some(Values(words))
  {
    LineThen(words, gaps, "");
    assert Line(words, gaps) + "" == Line(words, gaps) && Values(words) + [] == Values(words);
  }

  // ---- refusing the rest -----------------------------------------------------------------

  /** What no word goes on with: an unquoted character with a meaning of its own, a
      backslash before nothing or a line break, a quote that is not closed, or a
      character that keeps its meaning in double quotes. */
  ghost predicate Unreadable(tail: string) {
    && tail != ""
    && (|| tail[0] in "\n\t;&|<>()$`*?[]#~!{}=%"
        || (tail[0] == '\\' && (|tail| == 1 || tail[1] == '\n'))
        || (tail[0] == '\'' && '\'' !in tail[1..])
        || (tail[0] == '"' && exists n: nat :: Breaks(tail[1..], n)))
  }

  /** The text in double quotes ends or meets such a character before it is closed. */
  ghost predicate Breaks(s: string, n: nat) {
    n <= |s| && (n == |s| || s[n] in "\\$`") && forall i :: 0 <= i < n ==> s[i] !in "\"\\$`"
  }

  lemma {:induction false} SingleOpen(s: string, w: string)
    requires '\'' !in s
    ensures Words(s, Single(w)) == None
  {
    if s != "" { SingleOpen(s[1..], w + [s[0]]); }
  }

  lemma TailRefused(tail: string, w: string)
    requires Unreadable(tail)
    ensures Words(tail, Bare(w)) == None
  {
    if tail[0] == '\'' {
      SingleOpen(tail[1..], w);
    } else if tail[0] == '"' {
      var n: nat :| Breaks(tail[1..], n);
      DoubleQuoted(tail[1..][..n], tail[1..][n..], w);
      assert tail[1..] == tail[1..][..n] + tail[1..][n..];
    }
  }

  /** Such a tail is refused after any words and any pieces of the next one. */
  lemma UnreadableRefused(words: seq<seq<Piece>>, gaps: seq<nat>, pieces: seq<Piece>, tail: string)
    requires LineOk(words, gaps) && (words == [] || gaps[|words|] > 0) && Unreadable(tail)
    requires forall i :: 0 <= i < |pieces| ==> PieceOk(pieces[i])
    ensures Words(Line(words, gaps) + (WordText(pieces) + tail), Between) == None
  {
    LineThen(words, gaps, WordText(pieces) + tail);
    if pieces == [] {
      assert WordText(pieces) + tail == tail;
      BetweenIsBare(tail);
      TailRefused(tail, "");
    } else {
      WordRead(pieces, tail);
      TailRefused(tail, WordValue(pieces));
    }
  }
}
