/** What every run of opening, switching, closing and focusing keeps: an open
    board behind the most-recent entry and behind every window. */
module BoardSafety {
  import opened Json
  import opened UiState
  import opened Boards

  ghost predicate NoDuplicates(paths: seq<string>) {
    forall i, j :: 0 <= i < j < |paths| ==> paths[i] != paths[j]
  }

  /** Open boards are listed once each under canonical paths, and the
      most-recent entry names one of them while there is any. */
  ghost predicate OpenSetOk(fs: FileSys, app: App) {
    && (forall k :: k in app.boards ==> k in app.ui.openBoards && fs.canon(k) == k)
    && NoDuplicates(app.ui.openBoards)
    && (app.boards != map[] ==> app.ui.mostRecent.Some? && app.ui.mostRecent.value in app.boards)
  }

  /** Every window with a board shows an open one. */
  ghost predicate WindowsShowOpen(app: App) {
    forall w :: w in app.ui.windows && app.ui.windows[w].boardPath != "" ==> app.ui.windows[w].boardPath in app.boards
  }

  ghost predicate Safe(fs: FileSys, app: App) {
    OpenSetOk(fs, app) && WindowsShowOpen(app)
  }

  /** With a board open, commands without an explicit board find a handle. */
  lemma ActiveHandleExists(fs: FileSys, app: App)
    requires OpenSetOk(fs, app)
    ensures app.boards != map[] ==>
              ActiveHandle(fs, app).Some? && ActiveHandle(fs, app).value == app.boards[app.ui.mostRecent.value]
  {
  }

  lemma {:induction false} WithoutKeepsDistinct(paths: seq<string>, path: string)
    requires NoDuplicates(paths)
    ensures NoDuplicates(Without(paths, path))
  {
    if paths != [] {
      forall i, j | 0 <= i < j < |paths[1..]| ensures paths[1..][i] != paths[1..][j] {
        assert paths[i + 1] != paths[j + 1];
      }
      WithoutKeepsDistinct(paths[1..], path);
      var rest := Without(paths[1..], path);
      forall j | 0 <= j < |rest| ensures rest[j] != paths[0] {
        WithoutMembers(paths[1..], path, rest[j]);
        var m :| 0 <= m < |paths[1..]| && paths[1..][m] == rest[j];
        assert paths[0] != paths[m + 1];
      }
    }
  }

  lemma OpenKeeps(fs: FileSys, app: App, path: string, built: Option<nat>)
    requires CanonStable(fs) && OpenSetOk(fs, app)
    ensures var app' := OpenBoard(fs, app, path, built);
            && OpenSetOk(fs, app')
            && (WindowsShowOpen(app) ==> WindowsShowOpen(app'))
            && (Opens(fs, app, path, built) ==> KeyFor(fs, path) in app'.boards && app'.ui.mostRecent == Some(KeyFor(fs, path)))
            && app'.boards.Keys == (if Opens(fs, app, path, built) then app.boards.Keys + {KeyFor(fs, path)} else app.boards.Keys)
            && (forall k :: k in app.boards ==> app'.boards[k] == app.boards[k])
  {
  }

  /** Reopening a board, by whatever path leads to it, adds nothing and keeps
      its handle. */
  lemma ReopenAddsNothing(fs: FileSys, app: App, first: string, again: string, b1: Option<nat>, b2: Option<nat>)
    requires CanonStable(fs) && OpenSetOk(fs, app)
    requires KeyFor(fs, first) == KeyFor(fs, again) && Opens(fs, app, first, b1)
    ensures var once := OpenBoard(fs, app, first, b1);
            var twice := OpenBoard(fs, once, again, b2);
            && twice.boards == once.boards
            && twice.ui.openBoards == once.ui.openBoards
            && twice.ui.mostRecent == once.ui.mostRecent
  {
    OpenKeeps(fs, app, first, b1);
  }

  lemma RemoveKeepsOpenSet(fs: FileSys, app: App, path: string)
    requires OpenSetOk(fs, app) && path !in app.boards
    ensures OpenSetOk(fs, app.(ui := RemoveOpenBoard(app.ui, path)))
    ensures WindowsShowOpen(app) ==> WindowsShowOpen(app.(ui := RemoveOpenBoard(app.ui, path)))
  {
    WithoutKeepsDistinct(app.ui.openBoards, path);
    forall k | k in app.boards ensures k in Without(app.ui.openBoards, path) {
      WithoutMembers(app.ui.openBoards, path, k);
    }
  }

  lemma CloseKeeps(fs: FileSys, app: App, path: string, next: string)
    requires OpenSetOk(fs, app) && NextOk(fs, app, path, next)
    ensures OpenSetOk(fs, CloseBoard(fs, app, path, next))
    ensures WindowsShowOpen(app) ==> WindowsShowOpen(CloseBoard(fs, app, path, next))
  {
    var key := fs.canon(path);
    if key in app.boards {
      WithoutKeepsDistinct(app.ui.openBoards, key);
      forall k | k in app.boards && k != key ensures k in Without(app.ui.openBoards, key) {
        WithoutMembers(app.ui.openBoards, key, k);
      }
      var app' := CloseBoard(fs, app, path, next);
      if app'.boards != map[] && HandsOver(fs, app, path) {
        assert next in app'.boards;
      }
    }
  }

  /** Closing an open board hands the most-recent entry on exactly when it named
      that board and another one is open; a closed window is forgotten and nothing
      else. */
  lemma CloseHandsOver(fs: FileSys, app: App, path: string, next: string, win: string)
    ensures CloseBoard(fs, app, path, next).ui.mostRecent ==
            if fs.canon(path) in app.boards && app.ui.mostRecent == Some(fs.canon(path)) &&
               exists k :: k in app.boards && k != fs.canon(path)
            then Some(next) else app.ui.mostRecent
    ensures Step(fs, app, WindowClosed(win)) == App(app.boards, UI(app.ui.windows - {win}, app.ui.openBoards, app.ui.mostRecent))
  {
    var rest := app.boards - {fs.canon(path)};
    if rest != map[] {
      assert rest.Keys != {};
      var k :| k in rest.Keys;
      assert k in app.boards && k != fs.canon(path);
    }
    if k :| k in app.boards && k != fs.canon(path) { assert k in rest; }
  }

  lemma DropOrDetachKeeps(fs: FileSys, app: App, path: string, requesting: string, next: string)
    requires CanonStable(fs) && Safe(fs, app) && fs.canon(path) == path
    requires |Showing(app.ui, path)| <= 1 ==> NextOk(fs, app, path, next)
    ensures Safe(fs, DropOrDetach(fs, app, path, requesting, next))
  {
    if |Showing(app.ui, path)| <= 1 {
      CloseKeeps(fs, app, path, next);
      RemoveKeepsOpenSet(fs, CloseBoard(fs, app, path, next), path);
    }
  }

  lemma SwitchOpens(fs: FileSys, app: App, win: string, path: string, built: Option<nat>)
    requires CanonStable(fs) && Safe(fs, app) && Opens(fs, app, path, built)
    ensures var app' := SwitchTo(fs, app, win, path, built);
            && OpenSetOk(fs, app') && WindowsShowOpen(app')
            && app'.ui.windows[win].boardPath == KeyFor(fs, path) && app'.ui.mostRecent == Some(KeyFor(fs, path))
  {
    var commanded := app.(ui := SetMostRecent(SetWindowBoard(app.ui, win, path), path));
    var outcome := OpenBoard(fs, commanded, path, built);
    assert outcome.boards.Keys == app.boards.Keys + {KeyFor(fs, path)};
    assert outcome.ui.windows == commanded.ui.windows;
  }

  lemma SwitchFails(fs: FileSys, app: App, win: string, path: string, built: Option<nat>)
    requires Safe(fs, app) && !Opens(fs, app, path, built)
    ensures var app' := SwitchTo(fs, app, win, path, built);
            app'.ui.windows[win].boardPath == path && app'.ui.mostRecent == Some(path) && app'.boards == app.boards
    ensures Safe(fs, SwitchTo(fs, app, win, path, built)) <==> path in app.boards || (path == "" && app.boards == map[])
  {
    var app' := SwitchTo(fs, app, win, path, built);
    assert app'.boards == app.boards && app'.ui.openBoards == app.ui.openBoards;
    assert app'.ui.windows[win].boardPath == path && app'.ui.mostRecent == Some(path);
  }

  /** A switch keeps the windows and the most-recent entry safe when the board opens;
      otherwise the window and the most-recent entry are left at the unopened path. */
  lemma SwitchOutcome(fs: FileSys, app: App, win: string, path: string, built: Option<nat>)
    requires CanonStable(fs) && Safe(fs, app)
    ensures var app' := SwitchTo(fs, app, win, path, built);
            && (Opens(fs, app, path, built) ==>
                  Safe(fs, app') && app'.ui.windows[win].boardPath == KeyFor(fs, path) &&
                  app'.ui.mostRecent == Some(KeyFor(fs, path)))
            && (!Opens(fs, app, path, built) ==>
                  app'.ui.windows[win].boardPath == path && app'.ui.mostRecent == Some(path) && app'.boards == app.boards)
            && (Safe(fs, app') <==>
                  Opens(fs, app, path, built) || path in app.boards || (path == "" && app.boards == map[]))
            && (forall w :: w != win ==> (w in app'.ui.windows <==> w in app.ui.windows))
            && (forall w :: w != win ==> Entry(app'.ui, w).boardPath == Entry(app.ui, w).boardPath)
  {
    if Opens(fs, app, path, built) {
      SwitchOpens(fs, app, win, path, built);
    } else {
      SwitchFails(fs, app, win, path, built);
    }
  }

  lemma SingleMember(s: set<string>, w: string)
    requires |s| <= 1 && w in s
    ensures s == {w}
  {
    forall x | x in s ensures x == w {
      var pair := {w, x};
      SubsetSize(pair, s);
      assert x != w ==> |pair| == 2;
    }
  }

  lemma {:induction false} SubsetSize(a: set<string>, b: set<string>)
    requires a <= b
    ensures |a| <= |b|
    decreases a
  {
    if a != {} {
      var x :| x in a;
      SubsetSize(a - {x}, b - {x});
    }
  }

  /** A close asked for by a window showing the board drops no board that any
      other window shows, and leaves the other windows' assignments alone. */
  lemma CloseSparesOthers(fs: FileSys, app: App, win: string, path: string, next: string, w: string)
    requires CanonStable(fs) && Safe(fs, app)
    requires WindowBoard(app.ui, win) == Some(fs.canon(path))
    requires w != win && WindowBoard(app.ui, w).Some?
    ensures var app' := CloseFrom(fs, app, win, path, next);
            && WindowBoard(app'.ui, w) == WindowBoard(app.ui, w)
            && WindowBoard(app.ui, w).value in app'.boards
            && WindowBoard(app'.ui, win) == None
  {
    var p := fs.canon(path);
    assert win in Showing(app.ui, p);
    if WindowBoard(app.ui, w) == Some(p) && |Showing(app.ui, p)| <= 1 {
      assert w in Showing(app.ui, p);
      SingleMember(Showing(app.ui, p), win);
    }
  }

  /** A close takes another window's board away exactly when that window is the
      only one showing it, so the request came from elsewhere. */
  lemma CloseTakesFrom(fs: FileSys, app: App, win: string, path: string, next: string, w: string)
    requires CanonStable(fs) && Safe(fs, app) && w != win && WindowBoard(app.ui, w).Some?
    ensures WindowBoard(CloseFrom(fs, app, win, path, next).ui, w) != WindowBoard(app.ui, w) <==>
            Showing(app.ui, fs.canon(path)) == {w}
  {
    var p := fs.canon(path);
    var s := Showing(app.ui, p);
    if s == {w} {
      assert w in s;
    } else if w in s {
      if |s| <= 1 { SingleMember(s, w); }
    }
  }

  // ---- every run ------------------------------------------------------------------------

  datatype Action =
    | Open(path: string, built: Option<nat>)
    | Close(path: string, next: string)
    | Switch(win: string, path: string, built: Option<nat>)
    | CloseFromWindow(win: string, path: string, next: string)
    | FocusWindow(win: string)
    | NewBoardWindow(win: string, given: Option<string>, pick: string)
    | WindowClosed(win: string)

  function Step(fs: FileSys, app: App, a: Action): App {
    match a
    case Open(path, built) => OpenBoard(fs, app, path, built)
    case Close(path, next) => CloseBoard(fs, app, path, next)
    case Switch(win, path, built) => SwitchTo(fs, app, win, path, built)
    case CloseFromWindow(win, path, next) => CloseFrom(fs, app, win, path, next)
    case FocusWindow(win) => Focus(app, win)
    case NewBoardWindow(win, given, pick) => NewWindow(app, win, given, pick)
    case WindowClosed(win) => app.(ui := RemoveWindow(app.ui, win))
  }

  /** Switches succeed; a new window is given an open board, or opened without one
      while some board is open or none was ever current. */
  ghost predicate Enabled(fs: FileSys, app: App, a: Action) {
    match a
    case Open(_, _) => true
    case Close(path, next) => NextOk(fs, app, path, next)
    case Switch(win, path, built) => Opens(fs, app, path, built)
    case CloseFromWindow(win, path, next) =>
      |Showing(app.ui, fs.canon(path))| <= 1 ==> NextOk(fs, app, fs.canon(path), next)
    case FocusWindow(_) => true
    case NewBoardWindow(_, given, pick) =>
      (match given
       case Some(p) => p == "" || p in app.boards
       case None => (app.boards != map[] || app.ui.mostRecent.None?) && (app.boards != map[] ==> pick in app.boards))
    case WindowClosed(_) => true
  }

  ghost predicate Legal(fs: FileSys, app: App, run: seq<Action>)
    decreases |run|
  {
    run == [] || (Enabled(fs, app, run[0]) && Legal(fs, Step(fs, app, run[0]), run[1..]))
  }

  ghost function After(fs: FileSys, app: App, run: seq<Action>): App
    decreases |run|
  {
    if run == [] then app else After(fs, Step(fs, app, run[0]), run[1..])
  }

  lemma StepKeepsSafe(fs: FileSys, app: App, a: Action)
    requires CanonStable(fs) && Safe(fs, app) && Enabled(fs, app, a)
    ensures Safe(fs, Step(fs, app, a))
  {
    match a {
      case Open(path, built) => OpenKeeps(fs, app, path, built);
      case Close(path, next) => CloseKeeps(fs, app, path, next);
      case Switch(win, path, built) => SwitchOutcome(fs, app, win, path, built);
      case CloseFromWindow(win, path, next) => DropOrDetachKeeps(fs, app, fs.canon(path), win, next);
      case FocusWindow(win) =>
      case NewBoardWindow(win, given, pick) =>
      case WindowClosed(win) =>
    }
  }

  /** Over every run the open set stays coherent and no window is left showing a
      closed board, whoever asked for the closing. */
  lemma {:induction false} RunKeepsSafe(fs: FileSys, app: App, run: seq<Action>)
    requires CanonStable(fs) && Safe(fs, app) && Legal(fs, app, run)
    ensures Safe(fs, After(fs, app, run))
    decreases |run|
  {
    if run != [] {
      StepKeepsSafe(fs, app, run[0]);
      RunKeepsSafe(fs, Step(fs, app, run[0]), run[1..]);
    }
  }

  // ---- from a loaded config ---------------------------------------------------------------

  /** The application as it starts: the config's windows and open list, and no
      board open yet. */
  function Loaded(config: UI): App { App(map[], config) }

  /** The steps that keep the open set coherent whatever the windows show: a
      switch must open its board, and a focused window's board be open or no
      board be open at all. */
  ghost predicate OpenSetEnabled(fs: FileSys, app: App, a: Action) {
    match a
    case Open(_, _) => true
    case Close(path, next) => NextOk(fs, app, path, next)
    case Switch(win, path, built) => Opens(fs, app, path, built)
    case CloseFromWindow(win, path, next) =>
      |Showing(app.ui, fs.canon(path))| <= 1 ==> NextOk(fs, app, fs.canon(path), next)
    case FocusWindow(win) => WindowBoard(app.ui, win).None? || WindowBoard(app.ui, win).value in app.boards || app.boards == map[]
    case NewBoardWindow(_, _, _) => true
    case WindowClosed(_) => true
  }

  ghost predicate OpenSetLegal(fs: FileSys, app: App, run: seq<Action>)
    decreases |run|
  {
    run == [] || (OpenSetEnabled(fs, app, run[0]) && OpenSetLegal(fs, Step(fs, app, run[0]), run[1..]))
  }

  lemma SwitchKeepsOpenSet(fs: FileSys, app: App, win: string, path: string, built: Option<nat>)
    requires CanonStable(fs) && OpenSetOk(fs, app) && Opens(fs, app, path, built)
    ensures OpenSetOk(fs, SwitchTo(fs, app, win, path, built))
  {
    var commanded := app.(ui := SetMostRecent(SetWindowBoard(app.ui, win, path), path));
    var outcome := OpenBoard(fs, commanded, path, built);
    assert outcome.boards.Keys == app.boards.Keys + {KeyFor(fs, path)};
  }

  lemma StepKeepsOpenSet(fs: FileSys, app: App, a: Action)
    requires CanonStable(fs) && OpenSetOk(fs, app) && OpenSetEnabled(fs, app, a)
    ensures OpenSetOk(fs, Step(fs, app, a))
  {
    match a {
      case Open(path, built) => OpenKeeps(fs, app, path, built);
      case Close(path, next) => CloseKeeps(fs, app, path, next);
      case Switch(win, path, built) => SwitchKeepsOpenSet(fs, app, win, path, built);
      case CloseFromWindow(win, path, next) =>
        var p := fs.canon(path);
        if |Showing(app.ui, p)| <= 1 {
          CloseKeeps(fs, app, p, next);
          RemoveKeepsOpenSet(fs, CloseBoard(fs, app, p, next), p);
        }
      case FocusWindow(win) =>
      case NewBoardWindow(win, given, pick) =>
      case WindowClosed(win) =>
    }
  }

  lemma {:induction false} RunKeepsOpenSet(fs: FileSys, app: App, run: seq<Action>)
    requires CanonStable(fs) && OpenSetOk(fs, app) && OpenSetLegal(fs, app, run)
    ensures OpenSetOk(fs, After(fs, app, run))
    decreases |run|
  {
    if run != [] {
      StepKeepsOpenSet(fs, app, run[0]);
      RunKeepsOpenSet(fs, Step(fs, app, run[0]), run[1..]);
    }
  }

  /** From any loaded config, whatever its windows show and whichever boards fail
      to open, every run keeps the open boards listed once under canonical paths
      and the most-recent entry one of them, so a command finds its handle. */
  lemma LoadedRunKeepsOpenSet(fs: FileSys, config: UI, run: seq<Action>)
    requires CanonStable(fs) && NoDuplicates(config.openBoards) && OpenSetLegal(fs, Loaded(config), run)
    ensures var app := After(fs, Loaded(config), run);
            OpenSetOk(fs, app) && (app.boards != map[] ==> ActiveHandle(fs, app).Some?)
  {
    RunKeepsOpenSet(fs, Loaded(config), run);
    ActiveHandleExists(fs, After(fs, Loaded(config), run));
  }

  /** Focusing a window breaks the open set exactly when a board is open and the
      window's own board is not. */
  lemma FocusOutcome(fs: FileSys, app: App, win: string)
    requires OpenSetOk(fs, app)
    ensures OpenSetOk(fs, Focus(app, win)) <==> OpenSetEnabled(fs, app, FocusWindow(win))
  {
  }

  /** A new window shows an open board exactly when the board it is given is open,
      or it is given none and the most-recent entry is not left over from the last
      closed board. The board it is given is not opened. */
  lemma NewWindowShowsOpen(fs: FileSys, app: App, win: string, given: Option<string>, pick: string)
    requires Safe(fs, app) && (app.boards != map[] ==> pick in app.boards)
    ensures WindowsShowOpen(NewWindow(app, win, given, pick)) <==>
            match given
            case Some(p) => p == "" || p in app.boards
            case None => app.boards != map[] || app.ui.mostRecent.None? || app.ui.mostRecent.value == ""
  {
    var app', path := NewWindow(app, win, given, pick), NewWindowPath(app, given, pick);
    if path.Some? {
      assert app'.ui.windows[win].boardPath == path.value;
      assert forall w :: w != win && w in app'.ui.windows ==> app'.ui.windows[w] == app.ui.windows[w];
    }
  }

  /** The board a new window shows: the one given; else the most recent; and, when
      the most-recent entry names an open board or none, an open one whenever there
      is any. */
  lemma NewWindowTakes(app: App, win: string, given: Option<string>, pick: string)
    requires app.boards != map[] ==> pick in app.boards
    ensures var ui := NewWindow(app, win, given, pick).ui;
            && (given.Some? ==> win in ui.windows && ui.windows[win].boardPath == given.value)
            && (given.None? && app.ui.mostRecent.Some? ==> win in ui.windows && ui.windows[win].boardPath == app.ui.mostRecent.value)
            && (given.None? && app.boards != map[] && (app.ui.mostRecent.Some? ==> app.ui.mostRecent.value in app.boards) ==>
                  win in ui.windows && ui.windows[win].boardPath in app.boards)
            && (given.None? && app.ui.mostRecent.None? && app.boards == map[] ==> ui == app.ui)
  {
  }

  /** Closing the last board leaves exactly that: the most-recent entry still names it. */
  lemma LastCloseKeepsMostRecent(fs: FileSys, app: App, path: string, next: string)
    requires Safe(fs, app) && app.boards.Keys == {fs.canon(path)}
    ensures var app' := CloseBoard(fs, app, path, next);
            app'.boards == map[] && app'.ui.mostRecent == Some(fs.canon(path))
  {
    assert app.ui.mostRecent.value in app.boards by { assert fs.canon(path) in app.boards; }
    assert app.boards - {fs.canon(path)} == map[];
  }
}
