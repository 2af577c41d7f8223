/** How the shell reads the privileged link command: the words it splits the
    command line into, and exactly which paths survive the quoting. */
module ShellWords {
  import opened Json
  import opened AppleScript

  const APOSTROPHE := '\''

  /** Between two words, or inside one: bare, single-quoted or double-quoted. */
  datatype Mode = Between | Bare(word: string) | Single(word: string) | Double(word: string)

  /** Characters that, unquoted, make a line more than a list of plain words. */
  predicate Special(c: char) {
    c in "\n\t;&|<>()$`*?[]#~!{}=%"
  }

  predicate Plain(c: char) { c != ' ' && c != APOSTROPHE && c != QUOTE && c != BACKSLASH && !Special(c) }

  /** The words of a command line, read from `mode` on; `None` when a quote is
      left open or the line is not a plain list of words. */
  function Words(s: string, mode: Mode): Option<seq<string>>
    decreases |s|, mode.Between?
  {
    match mode
    case Between =>
      if s == "" then Some([])
      else if s[0] == ' ' then Words(s[1..], Between)
      else Words(s, Bare(""))
    case Bare(w) =>
      if s == "" then Some([w])
      else if s[0] == ' ' then
        (match Words(s[1..], Between)
         case None => None
         case Some(ws) => Some([w] + ws))
      else if s[0] == APOSTROPHE then Words(s[1..], Single(w))
      else if s[0] == QUOTE then Words(s[1..], Double(w))
      else if s[0] == BACKSLASH then
        if |s| == 1 || s[1] == '\n' then None else Words(s[2..], Bare(w + [s[1]]))
      else if Special(s[0]) then None
      else Words(s[1..], Bare(w + [s[0]]))
    case Single(w) =>
      if s == "" then None
      else if s[0] == APOSTROPHE then Words(s[1..], Bare(w))
      else Words(s[1..], Single(w + [s[0]]))
    case Double(w) =>
      if s == "" then None
      else if s[0] == QUOTE then Words(s[1..], Bare(w))
      else if s[0] == BACKSLASH || s[0] == '$' || s[0] == '`' then None
      else Words(s[1..], Double(w + [s[0]]))
  }

  // ---- without an apostrophe the quoting holds -------------------------------------------

  lemma {:induction false} PlainQuoted(text: string, rest: string, w: string)
    requires APOSTROPHE !in text
    ensures Words(text + [APOSTROPHE] + rest, Single(w)) == Words(rest, Bare(w + text))
  {
    var t := text + [APOSTROPHE] + rest;
    if text == "" {
      assert t[1..] == rest && w + text == w;
    } else {
      assert t[1..] == text[1..] + [APOSTROPHE] + rest;
      PlainQuoted(text[1..], rest, w + [text[0]]);
      assert w + [text[0]] + text[1..] == w + text;
    }
  }

  /** A quoted word at the start of a line, up to the space or end behind it. */
  lemma QuotedWord(text: string, rest: string)
    requires APOSTROPHE !in text
    ensures Words([APOSTROPHE] + text + [APOSTROPHE] + rest, Between) == Words(rest, Bare(text))
  {
    var t := [APOSTROPHE] + text + [APOSTROPHE] + rest;
    assert t[1..] == text + [APOSTROPHE] + rest;
    PlainQuoted(text, rest, "");
    assert "" + text == text;
    assert Words(t, Between) == Words(t, Bare(""));
  }

  lemma {:induction false} PlainWord(word: string, rest: string, w: string)
    requires forall i :: 0 <= i < |word| ==> Plain(word[i])
    ensures Words(word + [' '] + rest, Bare(w)) ==
            match Words(rest, Between) case None => None case Some(ws) => Some([w + word] + ws)
  {
    var t := word + [' '] + rest;
    if word == "" {
      assert t[1..] == rest && w + word == w;
    } else {
      assert t[1..] == word[1..] + [' '] + rest;
      assert Plain(t[0]);
      PlainWord(word[1..], rest, w + [word[0]]);
      assert w + [word[0]] + word[1..] == w + word;
    }
  }

  function Arguments(bundled: string, link: string): string {
    [APOSTROPHE] + bundled + [APOSTROPHE] + ([' '] + ([APOSTROPHE] + link + [APOSTROPHE] + ""))
  }

  lemma CommandShape(bundled: string, link: string)
    ensures ShellCommand(bundled, link) == "ln" + [' '] + ("-sf" + [' '] + Arguments(bundled, link))
  {
  }

  lemma BetweenIsBare(s: string)
    requires s != "" && s[0] != ' '
    ensures Words(s, Between) == Words(s, Bare(""))
  {
  }

  lemma BareEnds(w: string, rest: string)
    ensures Words("", Bare(w)) == Some([w])
    ensures Words([' '] + rest, Bare(w)) == match Words(rest, Between) case None => None case Some(ws) => Some([w] + ws)
  {
    assert ([' '] + rest)[1..] == rest;
  }

  lemma QuotedTail(bundled: string, link: string)
    requires APOSTROPHE !in bundled && APOSTROPHE !in link
    ensures Words(Arguments(bundled, link), Between) == Some([bundled, link])
  {
    var second := [APOSTROPHE] + link + [APOSTROPHE] + "";
    QuotedWord(link, "");
    BareEnds(link, "");
    assert Words(second, Between) == Some([link]);
    QuotedWord(bundled, [' '] + second);
    BareEnds(bundled, second);
    assert [bundled] + [link] == [bundled, link];
  }

  lemma QuotingHolds(bundled: string, link: string)
    requires APOSTROPHE !in bundled && APOSTROPHE !in link
    ensures Words(ShellCommand(bundled, link), Between) == Some(["ln", "-sf", bundled, link])
  {
    var tail := "-sf" + [' '] + Arguments(bundled, link);
    QuotedTail(bundled, link);
    PlainWord("-sf", Arguments(bundled, link), "");
    BetweenIsBare(tail);
    assert "" + "-sf" == "-sf" && "" + "ln" == "ln";
    assert Words(tail, Between) == Some(["-sf"] + [bundled, link]);
    PlainWord("ln", tail, "");
    BetweenIsBare("ln" + [' '] + tail);
    CommandShape(bundled, link);
    assert ["ln"] + (["-sf"] + [bundled, link]) == ["ln", "-sf", bundled, link];
  }

  // ---- with one it never does ---------------------------------------------------------------

  function Apostrophes(s: string): nat {
    if s == "" then 0 else (if s[0] == APOSTROPHE then 1 else 0) + Apostrophes(s[1..])
  }

  lemma {:induction false} ApostrophesConcat(a: string, b: string)
    ensures Apostrophes(a + b) == Apostrophes(a) + Apostrophes(b)
  {
    if a == "" {
      assert a + b == b;
    } else {
      assert (a + b)[1..] == a[1..] + b;
      ApostrophesConcat(a[1..], b);
    }
  }

  lemma {:induction false} NoApostrophe(s: string)
    ensures Apostrophes(s) == 0 <==> APOSTROPHE !in s
  {
    if s != "" { NoApostrophe(s[1..]); }
  }

  function TotalLength(ws: seq<string>): nat {
    if ws == [] then 0 else |ws[0]| + TotalLength(ws[1..])
  }

  function TotalApostrophes(ws: seq<string>): nat {
    if ws == [] then 0 else Apostrophes(ws[0]) + TotalApostrophes(ws[1..])
  }

  function Pending(mode: Mode): string { if mode.Between? then "" else mode.word }

  /** What quoting an apostrophe costs: inside double quotes the closing one is
      still to come; elsewhere a word gains one only behind a backslash or such. */
  function Cost(mode: Mode, ws: seq<string>): nat {
    if mode.Double? || TotalApostrophes(ws) > Apostrophes(Pending(mode)) then 1 else 0
  }

  /** Characters that do not reach a word: at least every apostrophe that quotes,
      a space between two words, and the cost of one that is kept. */
  ghost predicate Accounts(s: string, mode: Mode, ws: seq<string>) {
    |s| + |Pending(mode)| - TotalLength(ws) >=
    Apostrophes(s) + Apostrophes(Pending(mode)) - TotalApostrophes(ws) + |ws| - 1 + Cost(mode, ws)
  }

  lemma Grown(w: string, c: char)
    ensures Apostrophes(w + [c]) == Apostrophes(w) + if c == APOSTROPHE then 1 else 0
  {
    ApostrophesConcat(w, [c]);
    assert [c][1..] == "";
  }

  lemma WordDone(s: string, w: string, ws: seq<string>)
    requires s != "" && s[0] == ' ' && Accounts(s[1..], Between, ws)
    ensures Accounts(s, Bare(w), [w] + ws)
  {
    assert ([w] + ws)[1..] == ws;
  }

  lemma {:induction false} BareAccounts(s: string, w: string)
    requires Words(s, Bare(w)).Some?
    ensures Accounts(s, Bare(w), Words(s, Bare(w)).value)
    decreases |s|, 0
  {
    if s == "" {
      assert [w][1..] == [];
    } else if s[0] == ' ' {
      ReadAccounts(s[1..], Between);
      WordDone(s, w, Words(s[1..], Between).value);
    } else if s[0] == APOSTROPHE {
      ReadAccounts(s[1..], Single(w));
    } else if s[0] == QUOTE {
      ReadAccounts(s[1..], Double(w));
    } else if s[0] == BACKSLASH {
      Grown(w, s[1]);
      assert s[1..][1..] == s[2..];
      ReadAccounts(s[2..], Bare(w + [s[1]]));
    } else {
      Grown(w, s[0]);
      ReadAccounts(s[1..], Bare(w + [s[0]]));
    }
  }

  lemma {:induction false} ReadAccounts(s: string, mode: Mode)
    requires Words(s, mode).Some?
    ensures Accounts(s, mode, Words(s, mode).value)
    decreases |s|, if mode.Between? then 2 else 1
  {
    match mode {
      case Between =>
        if s != "" {
          if s[0] == ' ' { ReadAccounts(s[1..], Between); } else { ReadAccounts(s, Bare("")); }
        }
      case Bare(w) => BareAccounts(s, w);
      case Single(w) =>
        if s[0] == APOSTROPHE {
          ReadAccounts(s[1..], Bare(w));
        } else {
          Grown(w, s[0]);
          ReadAccounts(s[1..], Single(w + [s[0]]));
        }
      case Double(w) =>
        Grown(w, s[0]);
        if s[0] == QUOTE { ReadAccounts(s[1..], Bare(w)); } else { ReadAccounts(s[1..], Double(w + [s[0]])); }
    }
  }

  lemma CommandCounts(bundled: string, link: string)
    ensures |ShellCommand(bundled, link)| == 12 + |bundled| + |link|
    ensures Apostrophes(ShellCommand(bundled, link)) == 4 + Apostrophes(bundled) + Apostrophes(link)
  {
    ApostrophesConcat("ln -sf '" + bundled + "' '" + link, "'");
    ApostrophesConcat("ln -sf '" + bundled + "' '", link);
    ApostrophesConcat("ln -sf '" + bundled, "' '");
    ApostrophesConcat("ln -sf '", bundled);
    ApostrophesConcat("ln -sf ", "'");
    ApostrophesConcat("'", " '");
    ApostrophesConcat(" ", "'");
    NoApostrophe("ln -sf ");
    NoApostrophe(" ");
    assert "ln -sf " + "'" == "ln -sf '" && " " + "'" == " '" && "'" + " '" == "' '";
    assert "'"[1..] == "";
  }

  lemma TotalsOf(word: string, ws: seq<string>)
    ensures TotalLength([word] + ws) == |word| + TotalLength(ws)
    ensures TotalApostrophes([word] + ws) == Apostrophes(word) + TotalApostrophes(ws)
  {
    assert ([word] + ws)[1..] == ws;
  }

  lemma WordCounts(bundled: string, link: string)
    ensures var ws := ["ln", "-sf", bundled, link];
            TotalLength(ws) == 5 + |bundled| + |link| && TotalApostrophes(ws) == Apostrophes(bundled) + Apostrophes(link)
  {
    TotalsOf(link, []);
    TotalsOf(bundled, [link] + []);
    TotalsOf("-sf", [bundled] + ([link] + []));
    TotalsOf("ln", ["-sf"] + ([bundled] + ([link] + [])));
    NoApostrophe("ln");
    NoApostrophe("-sf");
    assert ["ln", "-sf", bundled, link] == ["ln"] + (["-sf"] + ([bundled] + ([link] + [])));
  }

  /** The shell reads the command as linking the one path to the other if and
      only if neither path holds an apostrophe. */
  lemma ShellReadsBack(bundled: string, link: string)
    ensures Words(ShellCommand(bundled, link), Between) == Some(["ln", "-sf", bundled, link]) <==>
            APOSTROPHE !in bundled && APOSTROPHE !in link
  {
    var ws := ["ln", "-sf", bundled, link];
    if APOSTROPHE !in bundled && APOSTROPHE !in link {
      QuotingHolds(bundled, link);
    } else if Words(ShellCommand(bundled, link), Between) == Some(ws) {
      ReadAccounts(ShellCommand(bundled, link), Between);
      CommandCounts(bundled, link);
      WordCounts(bundled, link);
      NoApostrophe(bundled);
      NoApostrophe(link);
      assert false;
    }
  }
}
