/** Escaping text into AppleScript string literals, and the rendered install
    script read back by the literal rules. */
module AppleScript {
  import opened Json

  const BACKSLASH := '\\'
  const QUOTE := '\"'

  /** Every occurrence of `c` replaced by `by`, as the library's `replace`. */
  function Replace(s: string, c: char, sub: string): string {
    if s == "" then "" else (if s[0] == c then sub else [s[0]]) + Replace(s[1..], c, sub)
  }

  /** `applescript_escape`: backslashes first, then quotes. */
  function Escape(s: string): string {
    Replace(Replace(s, BACKSLASH, [BACKSLASH, BACKSLASH]), QUOTE, [BACKSLASH, QUOTE])
  }

  function EscapeChar(c: char): string {
    if c == BACKSLASH || c == QUOTE then [BACKSLASH, c] else [c]
  }

  /** The one-pass form. */
  function EscapeOnce(s: string): string {
    if s == "" then "" else EscapeChar(s[0]) + EscapeOnce(s[1..])
  }

  /** Reading a literal after its opening quote: the text, and what follows the
      closing quote. `None` when it is never closed. */
  function ReadLiteral(s: string): Option<(string, string)> {
    if s == "" then None
    else if s[0] == QUOTE then Some(("", s[1..]))
    else if s[0] == BACKSLASH then
      if |s| == 1 then None
      else
        match ReadLiteral(s[2..])
        case None => None
        case Some(r) => Some(([s[1]] + r.0, r.1))
    else
      match ReadLiteral(s[1..])
      case None => None
      case Some(r) => Some(([s[0]] + r.0, r.1))
  }

  lemma {:induction false} ReplaceConcat(a: string, b: string, c: char, sub: string)
    ensures Replace(a + b, c, sub) == Replace(a, c, sub) + Replace(b, c, sub)
  {
    if a == "" {
      assert a + b == b;
    } else {
      assert (a + b)[1..] == a[1..] + b;
      ReplaceConcat(a[1..], b, c, sub);
    }
  }

  /** The two passes amount to escaping character by character. */
  lemma {:induction false} TwoPassesAreOne(s: string)
    ensures Escape(s) == EscapeOnce(s)
  {
    if s != "" {
      var first := if s[0] == BACKSLASH then [BACKSLASH, BACKSLASH] else [s[0]];
      var rest := Replace(s[1..], BACKSLASH, [BACKSLASH, BACKSLASH]);
      ReplaceConcat(first, rest, QUOTE, [BACKSLASH, QUOTE]);
      TwoPassesAreOne(s[1..]);
      if s[0] == BACKSLASH {
        assert first[1..] == [BACKSLASH] && first[1..][1..] == [];
        assert Replace(first, QUOTE, [BACKSLASH, QUOTE]) == first;
      } else {
        assert first[1..] == [];
        assert Replace(first, QUOTE, [BACKSLASH, QUOTE]) == EscapeChar(s[0]);
      }
    }
  }

  /** Reading an escaped text back gives the text, and stops exactly at the
      quote that closes it, whatever follows. */
  lemma {:induction false} EscapeReadsBack(s: string, rest: string)
    ensures ReadLiteral(Escape(s) + [QUOTE] + rest) == Some((s, rest))
  {
    TwoPassesAreOne(s);
    ReadBackOnce(s, rest);
  }

  lemma {:induction false} ReadBackOnce(s: string, rest: string)
    ensures ReadLiteral(EscapeOnce(s) + [QUOTE] + rest) == Some((s, rest))
  {
    var t := EscapeOnce(s) + [QUOTE] + rest;
    if s == "" {
      assert t[1..] == rest;
    } else {
      ReadBackOnce(s[1..], rest);
      var u := EscapeOnce(s[1..]) + [QUOTE] + rest;
      assert t == EscapeChar(s[0]) + u;
      if s[0] == BACKSLASH || s[0] == QUOTE {
        assert t[2..] == u;
      } else {
        assert t[1..] == u;
      }
      assert s == [s[0]] + s[1..];
    }
  }

  /** No quote of an escaped text stands unescaped: read as an open literal, it
      is never closed. */
  lemma {:induction false} NoUnescapedQuote(s: string)
    ensures ReadLiteral(Escape(s)) == None
  {
    TwoPassesAreOne(s);
    NeverClosed(s);
  }

  lemma {:induction false} NeverClosed(s: string)
    ensures ReadLiteral(EscapeOnce(s)) == None
  {
    if s != "" {
      NeverClosed(s[1..]);
      var t := EscapeOnce(s);
      assert t == EscapeChar(s[0]) + EscapeOnce(s[1..]);
      if s[0] == BACKSLASH || s[0] == QUOTE {
        assert t[2..] == EscapeOnce(s[1..]);
      } else {
        assert t[1..] == EscapeOnce(s[1..]);
      }
    }
  }

  // ---- the rendered script ------------------------------------------------------------

  const EXPLANATION :=
    "Kanban can install the \"kanban\" command-line tool so you can use it " +
    "from the Terminal.\n\nThis needs your administrator password to add " +
    "the command to your PATH."

  function ShellCommand(bundled: string, link: string): string {
    "ln -sf '" + bundled + "' '" + link + "'"
  }

  const OPENING := "display dialog "
  const BUTTONS :=
    " with title \"Install kanban command-line tool\" " +
    "buttons {\"Not Now\", \"Install\"} " +
    "default button \"Install\" cancel button \"Not Now\" with icon note\n" +
    "do shell script "
  const CLOSING := " with administrator privileges"

  function Quoted(s: string): string { [QUOTE] + Escape(s) + [QUOTE] }

  /** `build_install_applescript` */
  function BuildInstallAppleScript(bundled: string, link: string): string {
    OPENING + Quoted(EXPLANATION) + BUTTONS + Quoted(ShellCommand(bundled, link)) + CLOSING
  }

  /** The text before the next quote, and what follows that quote. */
  function UpToQuote(s: string): Option<(string, string)> {
    if s == "" then None
    else if s[0] == QUOTE then Some(("", s[1..]))
    else
      match UpToQuote(s[1..])
      case None => None
      case Some(r) => Some(([s[0]] + r.0, r.1))
  }

  lemma {:induction false} UpToQuoteAt(plain: string, rest: string)
    requires QUOTE !in plain
    ensures UpToQuote(plain + [QUOTE] + rest) == Some((plain, rest))
  {
    var t := plain + [QUOTE] + rest;
    if plain == "" {
      assert t[1..] == rest;
    } else {
      assert t[1..] == plain[1..] + [QUOTE] + rest;
      UpToQuoteAt(plain[1..], rest);
      assert plain == [plain[0]] + plain[1..];
    }
  }

  /** What follows the dialog's literal. */
  function AfterDialog(bundled: string, link: string): string {
    BUTTONS + Quoted(ShellCommand(bundled, link)) + CLOSING
  }

  lemma DialogReadsBack(bundled: string, link: string)
    ensures UpToQuote(BuildInstallAppleScript(bundled, link)) ==
            Some((OPENING, Escape(EXPLANATION) + [QUOTE] + AfterDialog(bundled, link)))
    ensures ReadLiteral(Escape(EXPLANATION) + [QUOTE] + AfterDialog(bundled, link)) ==
            Some((EXPLANATION, AfterDialog(bundled, link)))
  {
    var inner := Escape(EXPLANATION) + [QUOTE] + AfterDialog(bundled, link);
    assert BuildInstallAppleScript(bundled, link) == OPENING + [QUOTE] + inner;
    assert QUOTE !in OPENING;
    UpToQuoteAt(OPENING, inner);
    EscapeReadsBack(EXPLANATION, AfterDialog(bundled, link));
  }

  lemma AfterClause(clause: string, text: string, closing: string)
    ensures ReadLiteral((clause + Quoted(text) + closing)[|clause| + 1..]) == Some((text, closing))
  {
    EscapeReadsBack(text, closing);
    assert (clause + Quoted(text) + closing)[|clause| + 1..] == Escape(text) + [QUOTE] + closing;
  }

  /** Whatever the two paths contain, the script's first literal is the
      explanation and, past the fixed button clause, its next computed literal
      is the shell command; both end where the template closes them. */
  lemma ScriptReadsBack(bundled: string, link: string)
    ensures var script, afterDialog := BuildInstallAppleScript(bundled, link), AfterDialog(bundled, link);
            && UpToQuote(script).Some? && UpToQuote(script).value.0 == OPENING
            && ReadLiteral(UpToQuote(script).value.1) == Some((EXPLANATION, afterDialog))
            && ReadLiteral(afterDialog[|BUTTONS| + 1..]) == Some((ShellCommand(bundled, link), CLOSING))
  {
    DialogReadsBack(bundled, link);
    AfterClause(BUTTONS, ShellCommand(bundled, link), CLOSING);
  }
}
