/** The self-healing `kanban` link on the PATH: one launch, and every history of
    launches. */
module CliInstall {
  import opened Json
  import opened InstallPaths
  import opened AppleScript
  import opened ShellWords

  /** What stands at `kanban` in the target directory. */
  datatype Entry = Absent | RealFile(content: nat) | Directory | Link(dest: Path)

  datatype InstallOutcome = Created | AlreadyCurrent | Repaired | Skipped

  datatype Result<T> = Ok(value: T) | IoError

  predicate AlreadyInstalled(e: Entry, bundled: Path) {
    e == Link(bundled)
  }

  /** An entry the install must leave alone. */
  predicate Foreign(e: Entry) {
    e.RealFile? || e.Directory? || (e.Link? && !InsideKanbanBundle(e.dest))
  }

  // ---- one install, step by step ----------------------------------------------------------

  /** File operations that may fail: reading metadata, removing and creating. */
  datatype Faults = Faults(metadata: bool, remove: bool, create: bool)

  const NO_FAULTS := Faults(false, false, false)

  class TargetDirectory {
    var entry: Entry

    constructor (e: Entry)
      ensures entry == e
    {
      entry := e;
    }

    method CreateSymlink(bundled: Path, faults: Faults) returns (ok: bool)
      modifies this
      ensures ok <==> !faults.create && old(entry) == Absent
      ensures entry == if ok then Link(bundled) else old(entry)
    {
      ok := !faults.create && entry == Absent;
      if ok {
        entry := Link(bundled);
      }
    }

    /** Removes the stale link, then creates the new one. */
    method ReplaceSymlink(bundled: Path, faults: Faults) returns (ok: bool)
      modifies this
      ensures ok <==> !faults.remove && !faults.create
      ensures entry == if ok then Link(bundled) else if faults.remove then old(entry) else Absent
    {
      if faults.remove {
        return false;
      }
      entry := Absent;
      ok := CreateSymlink(bundled, faults);
    }

    /** `install_cli_symlink`: never touches a foreign entry, and whenever it
        reports success on anything else the link points at this bundle. */
    method InstallCliSymlink(bundled: Path, faults: Faults) returns (r: Result<InstallOutcome>)
      modifies this
      ensures old(entry) != Absent && !(old(entry).Link? && RunsThroughBundle(old(entry).dest)) ==> entry == old(entry)
      ensures r == Ok(Created) <==> !faults.metadata && old(entry) == Absent && !faults.create
      ensures r == Ok(AlreadyCurrent) <==> !faults.metadata && old(entry) == Link(bundled)
      ensures r == Ok(Repaired) <==>
                !faults.metadata && old(entry).Link? && old(entry).dest != bundled && RunsThroughBundle(old(entry).dest) &&
                !faults.remove && !faults.create
      ensures r == Ok(Skipped) <==>
                !faults.metadata && old(entry) != Absent && old(entry) != Link(bundled) &&
                !(old(entry).Link? && RunsThroughBundle(old(entry).dest))
      ensures r == Ok(Created) || r == Ok(Repaired) ==> entry == Link(bundled)
      ensures r == Ok(AlreadyCurrent) || r == Ok(Skipped) ==> entry == old(entry)
      ensures r == IoError ==> entry == old(entry) || (entry == Absent && !faults.remove && faults.create)
      ensures faults == NO_FAULTS ==> r.Ok? && entry == Installed(old(entry), bundled)
    {
      if entry.Link? { InsideIsThrough(entry.dest); }
      if faults.metadata {
        return IoError;
      }
      match entry {
        case Absent =>
          var ok := CreateSymlink(bundled, faults);
          r := if ok then Ok(Created) else IoError;
        case RealFile(_) =>
          r := Ok(Skipped);
        case Directory =>
          r := Ok(Skipped);
        case Link(current) =>
          if current == bundled {
            r := Ok(AlreadyCurrent);
          } else if InsideKanbanBundle(current) {
            var ok := ReplaceSymlink(bundled, faults);
            r := if ok then Ok(Repaired) else IoError;
          } else {
            r := Ok(Skipped);
          }
      }
    }

    /** `run`: skip when installed, run the privileged command when the directory
        is not writable and the user consents, else install. */
    method Run(l: Launch)
      modifies this
      ensures entry == Launched(old(entry), l)
    {
      if AlreadyInstalled(entry, l.bundled) {
        return;
      }
      if Escalates(l) {
        if l.consents {
          LinkByShell(l);
        }
        return;
      }
      var r := InstallCliSymlink(l.bundled, NO_FAULTS);
    }

    /** `ln -sf` as the shell reads the command: nothing happens when the line is
        not that command, the directory is missing, or a directory is met. */
    method LinkByShell(l: Launch)
      modifies this
      ensures entry == if l.dirExists && !LeadsToDirectory(old(entry), l.dirs) && Linked(l).Some?
                       then Link(Linked(l).value) else old(entry)
    {
      var words := Words(ShellCommand(Render(l.bundled, l.shown), SYSTEM_LINK), Between);
      if words.None? || !IsLinkCommand(words.value) || !l.dirExists || LeadsToDirectory(entry, l.dirs) {
        return;
      }
      entry := Link(PathOf(words.value[2]));
    }
  }

  /** The entry after a faultless install. */
  function Installed(e: Entry, bundled: Path): Entry {
    if Foreign(e) && !AlreadyInstalled(e, bundled) then e else Link(bundled)
  }

  // ---- histories of launches -----------------------------------------------------------------

  /** One launch: whether the target directory exists and can be written, whether
      the user consents to the privileged command, which paths are directories,
      and how a name that is not text is shown. */
  datatype Launch = Launch(
    bundled: Path, dirExists: bool, writable: bool, consents: bool, dirs: set<Path>, shown: seq<nat> -> string)

  /** The link the privileged command makes, in `/usr/local/bin`. */
  const SYSTEM_LINK := "/usr/local/bin/kanban"

  /** A directory that does not exist is not writable. */
  predicate Escalates(l: Launch) { !(l.dirExists && l.writable) }

  predicate LeadsToDirectory(e: Entry, dirs: set<Path>) {
    e.Directory? || (e.Link? && e.dest in dirs)
  }

  predicate IsLinkCommand(words: seq<string>) {
    |words| == 4 && words[0] == "ln" && words[1] == "-sf" && words[3] == SYSTEM_LINK
  }

  /** What the privileged command links to, when it is read as a link command. */
  function Linked(l: Launch): Option<Path> {
    match Words(ShellCommand(Render(l.bundled, l.shown), SYSTEM_LINK), Between)
    case None => None
    case Some(words) => if IsLinkCommand(words) then Some(PathOf(words[2])) else None
  }

  function Launched(e: Entry, l: Launch): Entry {
    if AlreadyInstalled(e, l.bundled) then e
    else if !Escalates(l) then Installed(e, l.bundled)
    else if l.consents && l.dirExists && !LeadsToDirectory(e, l.dirs) && Linked(l).Some? then Link(Linked(l).value)
    else e
  }

  function History(e: Entry, launches: seq<Launch>): Entry {
    if launches == [] then e else Launched(History(e, launches[..|launches| - 1]), launches[|launches| - 1])
  }

  // ---- paths as the command shows them -----------------------------------------------------

  function Shown(c: Component, shown: seq<nat> -> string): string {
    match c
    case Utf8(s) => s
    case NotUtf8(raw) => shown(raw)
  }

  /** An absolute path as text. */
  function Render(p: Path, shown: seq<nat> -> string): string {
    if p == [] then "" else "/" + Shown(p[0], shown) + Render(p[1..], shown)
  }

  function NameEnd(s: string): (n: nat)
    ensures n <= |s|
  {
    if s == "" || s[0] == '/' then 0 else 1 + NameEnd(s[1..])
  }

  function Names(s: string): Path
    decreases |s|
  {
    if s == "" then []
    else if s[0] == '/' then Names(s[1..])
    else
      assert NameEnd(s) > 0;
      [Utf8(s[..NameEnd(s)])] + Names(s[NameEnd(s)..])
  }

  /** The path a text names; one that is not absolute has an empty first name. */
  function PathOf(s: string): Path {
    if s != "" && s[0] == '/' then Names(s) else [Utf8("")] + Names(s)
  }

  /** Every name is non-empty and free of separators. */
  predicate Proper(p: Path) {
    forall i :: 0 <= i < |p| ==> p[i].Utf8? ==> p[i].s != "" && '/' !in p[i].s
  }

  predicate AllText(p: Path) { forall i :: 0 <= i < |p| ==> p[i].Utf8? }

  lemma {:induction false} NameEndAt(name: string, rest: string)
    requires '/' !in name && (rest == "" || rest[0] == '/')
    ensures NameEnd(name + rest) == |name|
  {
    if name == "" {
      assert name + rest == rest;
    } else {
      assert (name + rest)[1..] == name[1..] + rest;
      NameEndAt(name[1..], rest);
    }
  }

  lemma {:induction false} NamesRender(p: Path, shown: seq<nat> -> string)
    requires Proper(p) && AllText(p)
    ensures Names(Render(p, shown)) == p
  {
    if p != [] {
      var name, rest := p[0].s, Render(p[1..], shown);
      NamesRender(p[1..], shown);
      NameEndAt(name, rest);
      var t := Render(p, shown);
      assert t == "/" + name + rest && t[1..] == name + rest;
      assert (name + rest)[..|name|] == name && (name + rest)[|name|..] == rest;
      assert Names(t) == Names(name + rest) == [Utf8(name)] + Names(rest);
    }
  }

  lemma PathOfRender(p: Path, shown: seq<nat> -> string)
    requires Proper(p) && AllText(p) && p != []
    ensures PathOf(Render(p, shown)) == p
  {
    NamesRender(p, shown);
  }

  function TotalNames(p: Path): nat {
    if p == [] then 0 else (if p[0].Utf8? then |p[0].s| else 0) + TotalNames(p[1..])
  }

  function NameApostrophes(p: Path): nat {
    if p == [] then 0 else (if p[0].Utf8? then Apostrophes(p[0].s) else 0) + NameApostrophes(p[1..])
  }

  lemma {:induction false} NameEndStops(s: string)
    ensures NameEnd(s) == |s| || s[NameEnd(s)] == '/'
    ensures '/' !in s[..NameEnd(s)]
  {
    if s != "" && s[0] != '/' {
      NameEndStops(s[1..]);
      assert s[..NameEnd(s)] == [s[0]] + s[1..][..NameEnd(s[1..])];
    }
  }

  /** What a text names is proper text, so that rendering and reading it again
      gives the same path. */
  lemma {:induction false} NamesProper(s: string)
    ensures Proper(Names(s)) && AllText(Names(s))
    decreases |s|
  {
    if s != "" {
      if s[0] == '/' {
        NamesProper(s[1..]);
      } else {
        NameEndStops(s);
        NamesProper(s[NameEnd(s)..]);
      }
    }
  }

  /** A text is at least as long as its names and their separators, and holds
      their apostrophes. */
  lemma {:induction false} NamesCount(s: string)
    ensures TotalNames(Names(s)) + |Names(s)| <= |s| + (if s != "" && s[0] == '/' then 0 else 1)
    ensures NameApostrophes(Names(s)) == Apostrophes(s)
    decreases |s|
  {
    if s != "" {
      if s[0] == '/' {
        NamesCount(s[1..]);
      } else {
        var n := NameEnd(s);
        NameEndStops(s);
        NamesCount(s[n..]);
        NamesHead(s[..n], Names(s[n..]));
        ApostrophesConcat(s[..n], s[n..]);
        assert s == s[..n] + s[n..];
      }
    }
  }

  lemma NamesHead(name: string, rest: Path)
    ensures TotalNames([Utf8(name)] + rest) == |name| + TotalNames(rest)
    ensures NameApostrophes([Utf8(name)] + rest) == Apostrophes(name) + NameApostrophes(rest)
  {
    assert ([Utf8(name)] + rest)[1..] == rest;
  }

  lemma {:induction false} RenderCount(p: Path, shown: seq<nat> -> string)
    requires AllText(p)
    ensures |Render(p, shown)| == TotalNames(p) + |p| && Apostrophes(Render(p, shown)) == NameApostrophes(p)
  {
    if p != [] {
      var name, rest := p[0].s, Render(p[1..], shown);
      RenderCount(p[1..], shown);
      ApostrophesConcat("/" + name, rest);
      ApostrophesConcat("/", name);
      assert "/"[1..] == "";
    }
  }

  /** Read as the command that links `x`, a command made from an apostrophe names
      another path than it was made from. */
  lemma MisreadLinksElsewhere(p: Path, shown: seq<nat> -> string, link: string, x: string)
    requires Proper(p) && p != [] && APOSTROPHE !in link
    requires Words(ShellCommand(Render(p, shown), link), Between) == Some(["ln", "-sf", x, link]) && PathOf(x) == p
    ensures AllText(p) && APOSTROPHE !in Render(p, shown)
  {
    PathOfCount(p, shown, x);
    ReadAccounts(ShellCommand(Render(p, shown), link), Between);
    CommandCounts(Render(p, shown), link);
    WordCounts(x, link);
    NoApostrophe(Render(p, shown));
  }

  lemma PathOfCount(p: Path, shown: seq<nat> -> string, x: string)
    requires Proper(p) && p != [] && PathOf(x) == p
    ensures AllText(p) && |x| >= |Render(p, shown)| && Apostrophes(x) == Apostrophes(Render(p, shown))
  {
    NamesProper(x);
    assert p[0] != Utf8("");
    assert x != "" && x[0] == '/';
    NamesCount(x);
    RenderCount(p, shown);
  }

  lemma LinkCommand(words: seq<string>)
    requires IsLinkCommand(words)
    ensures words == ["ln", "-sf", words[2], SYSTEM_LINK]
  {
  }

  /** The privileged command links this very bundle exactly when its path is text
      without an apostrophe. */
  lemma LinksThisBundle(l: Launch)
    requires Proper(l.bundled) && l.bundled != []
    ensures Linked(l) == Some(l.bundled) <==> AllText(l.bundled) && APOSTROPHE !in Render(l.bundled, l.shown)
  {
    var words := Words(ShellCommand(Render(l.bundled, l.shown), SYSTEM_LINK), Between);
    LinkIsPlain();
    if AllText(l.bundled) && APOSTROPHE !in Render(l.bundled, l.shown) {
      QuotingHolds(Render(l.bundled, l.shown), SYSTEM_LINK);
      PathOfRender(l.bundled, l.shown);
    }
    if Linked(l) == Some(l.bundled) {
      LinkCommand(words.value);
      MisreadLinksElsewhere(l.bundled, l.shown, SYSTEM_LINK, words.value[2]);
    }
  }

  /** A launch leaves this bundle's link exactly when it stood there already; or
      the directory can be written and the entry was absent or a link into some
      bundle; or the user consented, the directory was there and met by no
      other, and the path is text without an apostrophe. */
  lemma LaunchInstalls(e: Entry, l: Launch)
    requires Proper(l.bundled) && l.bundled != []
    ensures Launched(e, l) == Link(l.bundled) <==>
            || e == Link(l.bundled)
            || (l.dirExists && l.writable && (e == Absent || (e.Link? && RunsThroughBundle(e.dest))))
            || (l.dirExists && !l.writable && l.consents && !e.Directory? && !(e.Link? && e.dest in l.dirs) &&
                AllText(l.bundled) && APOSTROPHE !in Render(l.bundled, l.shown))
  {
    LinksThisBundle(l);
    if e.Link? { InsideIsThrough(e.dest); }
  }

  /** The shell reads the privileged command as linking to `x`. */
  ghost predicate ReadAsLink(l: Launch, x: string) {
    Words(ShellCommand(Render(l.bundled, l.shown), SYSTEM_LINK), Between) == Some(["ln", "-sf", x, SYSTEM_LINK])
  }

  /** A launch leaves something else than it found or this bundle's link exactly
      when a consented privileged command is read as linking something else and
      meets an existing directory but none in the entry's place. */
  lemma LaunchMislinks(e: Entry, l: Launch)
    ensures Launched(e, l) != e && Launched(e, l) != Link(l.bundled) <==>
            && e != Link(l.bundled)
            && l.dirExists && !l.writable && l.consents && !e.Directory? && !(e.Link? && e.dest in l.dirs)
            && exists x :: ReadAsLink(l, x) && PathOf(x) != l.bundled && e != Link(PathOf(x))
  {
    LinkedIs(l);
  }

  lemma LinkedIs(l: Launch)
    ensures forall x :: ReadAsLink(l, x) ==> Linked(l) == Some(PathOf(x))
    ensures Linked(l).Some? ==> exists x :: ReadAsLink(l, x) && Linked(l) == Some(PathOf(x))
  {
    if Linked(l).Some? {
      var words := Words(ShellCommand(Render(l.bundled, l.shown), SYSTEM_LINK), Between).value;
      LinkCommand(words);
      assert ReadAsLink(l, words[2]);
    }
  }

  /** A file, a directory or a link that runs through no bundle is replaced
      exactly by a privileged command that the user consents to, that is read as a
      link command to something else, and that meets an existing directory but
      none in the entry's place. */
  lemma ForeignReplaced(e: Entry, l: Launch)
    requires e != Absent && !(e.Link? && RunsThroughBundle(e.dest)) && RunsThroughBundle(l.bundled)
    ensures Launched(e, l) != e <==>
            && l.dirExists && !l.writable && l.consents && !e.Directory? && !(e.Link? && e.dest in l.dirs)
            && exists x :: ReadAsLink(l, x) && e != Link(PathOf(x))
  {
    LinkedIs(l);
    if e.Link? { InsideIsThrough(e.dest); }
  }

  // ---- paths with apostrophes ----------------------------------------------------------------

  lemma {:induction false} PlainRun(word: string, rest: string, w: string)
    requires forall i :: 0 <= i < |word| ==> Plain(word[i])
    ensures Words(word + rest, Bare(w)) == Words(rest, Bare(w + word))
  {
    if word == "" {
      assert word + rest == rest && w + word == w;
    } else {
      var t := word + rest;
      assert t[1..] == word[1..] + rest && Plain(t[0]);
      PlainRun(word[1..], rest, w + [word[0]]);
      assert w + [word[0]] + word[1..] == w + word;
    }
  }

  lemma {:induction false} OpenEnds(text: string, w: string)
    requires APOSTROPHE !in text
    ensures Words(text, Single(w)) == None
  {
    if text != "" { OpenEnds(text[1..], w + [text[0]]); }
  }

  /** What follows the path's opening quote. */
  function AfterQuote(path: string, link: string): string {
    path + [APOSTROPHE] + ([' '] + ([APOSTROPHE] + link + [APOSTROPHE]))
  }

  /** The command up to the path, read. */
  lemma CommandOpens(path: string, link: string)
    ensures Words(ShellCommand(path, link), Between) ==
            match Words(AfterQuote(path, link), Single(""))
            case None => None
            case Some(ws) => Some(["ln"] + (["-sf"] + ws))
  {
    var tail := [APOSTROPHE] + AfterQuote(path, link);
    BetweenIsBare(tail);
    QuoteOpens("", AfterQuote(path, link));
    WordThen("-sf", tail);
    WordThen("ln", "-sf" + [' '] + tail);
    assert ShellCommand(path, link) == "ln" + [' '] + ("-sf" + [' '] + tail);
  }

  lemma WordThen(word: string, rest: string)
    requires word != "" && forall i :: 0 <= i < |word| ==> Plain(word[i])
    ensures Words(word + [' '] + rest, Between) ==
            match Words(rest, Between) case None => None case Some(ws) => Some([word] + ws)
  {
    var t := word + [' '] + rest;
    assert t[0] == word[0] && Plain(word[0]);
    BetweenIsBare(t);
    PlainWord(word, rest, "");
    assert "" + word == word;
  }

  lemma QuoteOpens(w: string, rest: string)
    ensures Words([APOSTROPHE] + rest, Bare(w)) == Words(rest, Single(w))
  {
    assert ([APOSTROPHE] + rest)[1..] == rest;
  }

  lemma OddQuoteOpen(x: string, y: string, link: string)
    requires APOSTROPHE !in x && APOSTROPHE !in link
    requires (forall i :: 0 <= i < |y| ==> Plain(y[i])) && forall i :: 0 <= i < |link| ==> Plain(link[i])
    ensures Words(ShellCommand(x + [APOSTROPHE] + y, link), Between) == None
  {
    var last := link + [APOSTROPHE];
    var quoted := [' '] + [APOSTROPHE] + last;
    CommandOpens(x + [APOSTROPHE] + y, link);
    assert AfterQuote(x + [APOSTROPHE] + y, link) == x + [APOSTROPHE] + (y + ([APOSTROPHE] + quoted));
    PlainQuoted(x, y + ([APOSTROPHE] + quoted), "");
    PlainRun(y, [APOSTROPHE] + quoted, "" + x);
    QuoteOpens("" + x + y, quoted);
    PlainQuoted([' '], last, "" + x + y);
    PlainRun(link, [APOSTROPHE], "" + x + y + [' ']);
    assert [APOSTROPHE] + "" == [APOSTROPHE];
    QuoteOpens("" + x + y + [' '] + link, "");
    OpenEnds("", "" + x + y + [' '] + link);
  }

  /** One apostrophe leaves a quote open: the command does nothing. */
  lemma OneApostropheFails(l: Launch, x: string, y: string, e: Entry)
    requires Render(l.bundled, l.shown) == x + [APOSTROPHE] + y && APOSTROPHE !in x
    requires forall i :: 0 <= i < |y| ==> Plain(y[i])
    requires !(l.dirExists && l.writable)
    ensures Launched(e, l) == e
  {
    LinkIsPlain();
    OddQuoteOpen(x, y, SYSTEM_LINK);
  }

  lemma LinkIsPlain()
    ensures forall i :: 0 <= i < |SYSTEM_LINK| ==> Plain(SYSTEM_LINK[i])
    ensures APOSTROPHE !in SYSTEM_LINK
  {
  }

  lemma QuotesCancel(x: string, y: string, z: string, link: string)
    requires APOSTROPHE !in x && APOSTROPHE !in z && APOSTROPHE !in link && forall i :: 0 <= i < |y| ==> Plain(y[i])
    ensures Words(ShellCommand(x + [APOSTROPHE] + y + [APOSTROPHE] + z, link), Between) == Some(["ln", "-sf", x + y + z, link])
  {
    var path := x + [APOSTROPHE] + y + [APOSTROPHE] + z;
    var last := [APOSTROPHE] + link + [APOSTROPHE] + "";
    var tail := z + [APOSTROPHE] + ([' '] + last);
    CommandOpens(path, link);
    assert AfterQuote(path, link) == x + [APOSTROPHE] + (y + ([APOSTROPHE] + tail));
    PlainQuoted(x, y + ([APOSTROPHE] + tail), "");
    PlainRun(y, [APOSTROPHE] + tail, "" + x);
    QuoteOpens("" + x + y, tail);
    PlainQuoted(z, [' '] + last, "" + x + y);
    BareEnds("" + x + y + z, last);
    QuotedWord(link, "");
    BareEnds(link, "");
    assert "" + x + y + z == x + y + z;
    assert ["ln"] + (["-sf"] + ([x + y + z] + [link])) == ["ln", "-sf", x + y + z, link];
  }

  /** Two apostrophes cancel: the command links to another path. */
  lemma TwoApostrophesMislink(l: Launch, x: string, y: string, z: string)
    requires Render(l.bundled, l.shown) == x + [APOSTROPHE] + y + [APOSTROPHE] + z
    requires APOSTROPHE !in x && APOSTROPHE !in z && forall i :: 0 <= i < |y| ==> Plain(y[i])
    ensures Linked(l) == Some(PathOf(x + y + z))
  {
    LinkIsPlain();
    QuotesCancel(x, y, z, SYSTEM_LINK);
  }

  /** Into a directory that is not there nothing is ever installed. */
  lemma {:induction false} NoDirectoryNoLink(e: Entry, launches: seq<Launch>)
    requires forall i :: 0 <= i < |launches| ==> !launches[i].dirExists
    ensures History(e, launches) == e
  {
    if launches != [] { NoDirectoryNoLink(e, launches[..|launches| - 1]); }
  }

  /** Over every history of launches into a writable directory, a target that
      started absent or as a link into a bundle points at the latest bundle. */
  lemma {:induction false} HistoryHeals(e: Entry, launches: seq<Launch>)
    requires launches != [] && (e == Absent || (e.Link? && RunsThroughBundle(e.dest)))
    requires forall i :: 0 <= i < |launches| ==>
                           RunsThroughBundle(launches[i].bundled) && launches[i].dirExists && launches[i].writable
    ensures History(e, launches) == Link(launches[|launches| - 1].bundled)
  {
    var n := |launches| - 1;
    if n > 0 {
      HistoryHeals(e, launches[..n]);
      InsideIsThrough(launches[n - 1].bundled);
    } else if e.Link? {
      InsideIsThrough(e.dest);
    }
  }

  /** And a real file, a directory or a link that runs through no bundle is never
      changed. */
  lemma {:induction false} HistorySparesForeign(e: Entry, launches: seq<Launch>)
    requires e != Absent && !(e.Link? && RunsThroughBundle(e.dest))
    requires forall i :: 0 <= i < |launches| ==> RunsThroughBundle(launches[i].bundled)
    requires forall i :: 0 <= i < |launches| && launches[i].dirExists && !launches[i].writable && launches[i].consents ==>
                           e.Directory? || (e.Link? && e.dest in launches[i].dirs) || Linked(launches[i]).None?
    ensures History(e, launches) == e
  {
    if launches != [] {
      var n := |launches| - 1;
      HistorySparesForeign(e, launches[..n]);
      ForeignReplaced(e, launches[n]);
      LinkedIs(launches[n]);
    }
  }

  /** The launch right after a launch from the same place changes nothing. */
  lemma RelaunchIsNoOp(e: Entry, l: Launch)
    requires RunsThroughBundle(l.bundled)
    ensures var once := Launched(e, l);
            && Launched(once, l) == once
            && (l.dirExists && l.writable ==>
                  once == Link(l.bundled) || (once == e && e != Absent && !(e.Link? && RunsThroughBundle(e.dest))))
  {
    InsideIsThrough(l.bundled);
    if e.Link? { InsideIsThrough(e.dest); }
  }
}
