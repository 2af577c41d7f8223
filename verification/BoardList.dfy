/** The list of open boards: which boards it names after any run, and which of
    them the next launch opens again. */
module BoardList {
  import opened Json
  import opened UiState
  import opened Boards
  import opened BoardSafety

  /** Open boards are listed, under canonical paths. */
  ghost predicate BoardsListed(fs: FileSys, app: App) {
    forall k :: k in app.boards ==> k in app.ui.openBoards && fs.canon(k) == k
  }

  /** The step opens board `p`, or finds it open. */
  ghost predicate OpensNow(fs: FileSys, app: App, a: Action, p: string) {
    && (a.Open? || a.Switch?)
    && fs.canon(fs.resolve(a.path)) == p
    && (p in app.boards || a.built.Some?)
  }

  ghost predicate AtMostOneShows(ui: UI, p: string) {
    forall v, w :: v in ui.windows && w in ui.windows && ui.windows[v].boardPath == p && ui.windows[w].boardPath == p ==> v == w
  }

  /** The step closes board `p`: the menu closes an open one, a window only when
      no two windows show it. */
  ghost predicate ClosesNow(fs: FileSys, app: App, a: Action, p: string) {
    || (a.Close? && fs.canon(a.path) == p && p in app.boards)
    || (a.CloseFromWindow? && fs.canon(a.path) == p && (p == "" || AtMostOneShows(app.ui, p)))
  }

  lemma ShowingCount(ui: UI, p: string)
    ensures |Showing(ui, p)| <= 1 <==> p == "" || AtMostOneShows(ui, p)
  {
    var s := Showing(ui, p);
    if p == "" {
      assert s == {};
    } else {
      if |s| <= 1 {
        forall v, w | v in ui.windows && w in ui.windows && ui.windows[v].boardPath == p && ui.windows[w].boardPath == p
          ensures v == w
        {
          assert v in s && w in s;
          SingleMember(s, v);
        }
      }
      if AtMostOneShows(ui, p) && s != {} {
        var v :| v in s;
        assert s == {v};
      }
    }
  }

  lemma RemovedTwice(paths: seq<string>, key: string, p: string)
    ensures p in Without(paths, key) <==> p in paths && p != key
    ensures p in Without(Without(paths, key), key) <==> p in paths && p != key
  {
    WithoutMembers(paths, key, p);
    WithoutMembers(Without(paths, key), key, p);
  }

  /** `app'` is `app` without board `key`, in the list and among the open. */
  ghost predicate Lost(app: App, app': App, key: string) {
    && (forall p :: p in app'.ui.openBoards <==> p in app.ui.openBoards && p != key)
    && app'.boards == app.boards - {key}
  }

  lemma CloseLists(fs: FileSys, app: App, path: string, next: string)
    requires fs.canon(path) in app.boards
    ensures Lost(app, CloseBoard(fs, app, path, next), fs.canon(path))
  {
    forall p { RemovedTwice(app.ui.openBoards, fs.canon(path), p); }
  }

  lemma DropLists(fs: FileSys, app: App, win: string, path: string, next: string)
    requires CanonStable(fs) && |Showing(app.ui, fs.canon(path))| <= 1
    ensures Lost(app, CloseFrom(fs, app, win, path, next), fs.canon(path))
  {
    forall p { RemovedTwice(app.ui.openBoards, fs.canon(path), p); }
  }

  lemma OpenLists(fs: FileSys, app: App, path: string, built: Option<nat>)
    requires CanonStable(fs) && BoardsListed(fs, app)
    ensures var app', key := OpenBoard(fs, app, path, built), fs.canon(fs.resolve(path));
            var opens := key in app.boards || built.Some?;
            && fs.canon(key) == key
            && (forall p :: p in app'.ui.openBoards <==> p in app.ui.openBoards || (opens && p == key))
            && (forall p :: p in app'.boards <==> p in app.boards || (opens && p == key))
  {
  }

  lemma StepLists(fs: FileSys, app: App, a: Action, p: string)
    requires CanonStable(fs) && BoardsListed(fs, app)
    ensures var app' := Step(fs, app, a);
            && BoardsListed(fs, app')
            && (p in app'.ui.openBoards <==> OpensNow(fs, app, a, p) || (p in app.ui.openBoards && !ClosesNow(fs, app, a, p)))
            && (p in app'.boards <==> OpensNow(fs, app, a, p) || (p in app.boards && !ClosesNow(fs, app, a, p)))
  {
    match a {
      case Open(path, built) => OpenLists(fs, app, path, built);
      case Switch(win, path, built) =>
        var commanded := app.(ui := SetMostRecent(SetWindowBoard(app.ui, win, path), path));
        OpenLists(fs, commanded, path, built);
      case Close(path, next) => if fs.canon(path) in app.boards { CloseLists(fs, app, path, next); }
      case CloseFromWindow(win, path, next) =>
        ShowingCount(app.ui, fs.canon(path));
        if |Showing(app.ui, fs.canon(path))| <= 1 { DropLists(fs, app, win, path, next); }
      case _ =>
    }
  }

  lemma {:induction false} AfterLast(fs: FileSys, app: App, run: seq<Action>)
    requires run != []
    ensures After(fs, app, run) == Step(fs, After(fs, app, run[..|run| - 1]), run[|run| - 1])
    decreases |run|
  {
    if |run| == 1 {
      assert run[1..] == [] && run[..0] == [];
    } else {
      assert run[1..][..|run| - 2] == run[..|run| - 1][1..];
      AfterLast(fs, Step(fs, app, run[0]), run[1..]);
    }
  }

  /** Board `p` is opened at step `i` of the run. */
  ghost predicate OpenedAt(fs: FileSys, app: App, run: seq<Action>, i: nat, p: string) {
    i < |run| && OpensNow(fs, After(fs, app, run[..i]), run[i], p)
  }

  /** Board `p` is not closed at step `i` or later. */
  ghost predicate KeptFrom(fs: FileSys, app: App, run: seq<Action>, i: nat, p: string) {
    forall j :: i <= j < |run| ==> !ClosesNow(fs, After(fs, app, run[..j]), run[j], p)
  }

  ghost predicate OpenedAndKept(fs: FileSys, app: App, run: seq<Action>, p: string) {
    exists i: nat :: OpenedAt(fs, app, run, i, p) && KeptFrom(fs, app, run, i + 1, p)
  }

  lemma KeptLast(fs: FileSys, app: App, run: seq<Action>, i: nat, p: string)
    requires run != [] && i < |run|
    ensures var n := |run| - 1;
            KeptFrom(fs, app, run, i, p) <==>
            KeptFrom(fs, app, run[..n], i, p) && !ClosesNow(fs, After(fs, app, run[..n]), run[n], p)
  {
    var n := |run| - 1;
    assert forall j :: 0 <= j < n ==> run[..n][..j] == run[..j] && run[..n][j] == run[j];
  }

  lemma OpenedLast(fs: FileSys, app: App, run: seq<Action>, p: string)
    requires run != []
    ensures var n := |run| - 1;
            var before := After(fs, app, run[..n]);
            OpenedAndKept(fs, app, run, p) <==>
            OpensNow(fs, before, run[n], p) ||
            (OpenedAndKept(fs, app, run[..n], p) && !ClosesNow(fs, before, run[n], p))
  {
    var n := |run| - 1;
    if OpenedAndKept(fs, app, run, p) {
      var i: nat :| OpenedAt(fs, app, run, i, p) && KeptFrom(fs, app, run, i + 1, p);
      if i < n {
        KeptLast(fs, app, run, i + 1, p);
        assert run[..n][..i] == run[..i];
        assert OpenedAt(fs, app, run[..n], i, p);
      }
    }
    if OpensNow(fs, After(fs, app, run[..n]), run[n], p) {
      assert OpenedAt(fs, app, run, n, p) && KeptFrom(fs, app, run, n + 1, p);
    } else if OpenedAndKept(fs, app, run[..n], p) && !ClosesNow(fs, After(fs, app, run[..n]), run[n], p) {
      var i: nat :| OpenedAt(fs, app, run[..n], i, p) && KeptFrom(fs, app, run[..n], i + 1, p);
      assert run[..n][..i] == run[..i];
      assert OpenedAt(fs, app, run, i, p);
      if i + 1 < |run| { KeptLast(fs, app, run, i + 1, p); }
    }
  }

  lemma {:induction false} RunLists(fs: FileSys, app: App, run: seq<Action>, p: string)
    requires CanonStable(fs) && BoardsListed(fs, app)
    ensures var app' := After(fs, app, run);
            && BoardsListed(fs, app')
            && (p in app'.ui.openBoards <==>
                  OpenedAndKept(fs, app, run, p) || (p in app.ui.openBoards && KeptFrom(fs, app, run, 0, p)))
            && (p in app'.boards <==>
                  OpenedAndKept(fs, app, run, p) || (p in app.boards && KeptFrom(fs, app, run, 0, p)))
    decreases |run|
  {
    if run != [] {
      var n := |run| - 1;
      RunLists(fs, app, run[..n], p);
      AfterLast(fs, app, run);
      StepLists(fs, After(fs, app, run[..n]), run[n], p);
      OpenedLast(fs, app, run, p);
      KeptLast(fs, app, run, 0, p);
    }
  }

  /** From any loaded config and over any run, the open-board list names exactly
      the boards that were loaded or opened and not closed since, and the boards
      opened and not closed since are exactly the open ones. */
  lemma ListedBoards(fs: FileSys, config: UI, run: seq<Action>, p: string)
    requires CanonStable(fs)
    ensures var app := After(fs, Loaded(config), run);
            && (p in app.boards <==> OpenedAndKept(fs, Loaded(config), run, p))
            && (p in app.ui.openBoards <==>
                  OpenedAndKept(fs, Loaded(config), run, p) ||
                  (p in config.openBoards && KeptFrom(fs, Loaded(config), run, 0, p)))
  {
    RunLists(fs, Loaded(config), run, p);
  }

  // ---- the next launch -----------------------------------------------------------------

  /** The listed path leads to board `key`, which can be opened. */
  ghost predicate Reopens(fs: FileSys, path: string, isDir: string -> bool, build: string -> Option<nat>, key: string) {
    path != "" && isDir(path) && build(path).Some? && fs.canon(fs.resolve(path)) == key
  }

  lemma RestoreOneOpens(fs: FileSys, app: App, path: string, isDir: string -> bool, build: string -> Option<nat>, key: string)
    ensures key in RestoreBoard(fs, app, path, isDir, build).boards <==>
            key in app.boards || Reopens(fs, path, isDir, build, key)
  {
  }

  lemma {:induction false} RestoreOpens(fs: FileSys, app: App, paths: seq<string>, isDir: string -> bool,
                                        build: string -> Option<nat>, key: string)
    ensures key in RestoreBoards(fs, app, paths, isDir, build).boards <==>
            key in app.boards || exists p :: p in paths && Reopens(fs, p, isDir, build, key)
  {
    if paths != [] {
      var n := |paths| - 1;
      RestoreOpens(fs, app, paths[..n], isDir, build, key);
      forall p ensures p in paths <==> p in paths[..n] || p == paths[n] { assert paths == paths[..n] + [paths[n]]; }
      assert Reopens(fs, paths[n], isDir, build, key) ==> paths[n] in paths;
      RestoreOneOpens(fs, RestoreBoards(fs, app, paths[..n], isDir, build), paths[n], isDir, build, key);
    }
  }

  /** Opening a listed path leads to a directory. */
  ghost predicate OpensDirectories(fs: FileSys, isDir: string -> bool, build: string -> Option<nat>) {
    forall path, key :: Reopens(fs, path, isDir, build, key) ==> key != "" && isDir(key)
  }

  lemma RestoreOneLists(fs: FileSys, app: App, path: string, isDir: string -> bool, build: string -> Option<nat>, p: string)
    requires CanonStable(fs) && OpensDirectories(fs, isDir, build) && BoardsListed(fs, app)
    requires forall k :: k in app.boards ==> k != "" && isDir(k)
    ensures var app' := RestoreBoard(fs, app, path, isDir, build);
            && BoardsListed(fs, app') && (forall k :: k in app'.boards ==> k != "" && isDir(k))
            && (p in app'.ui.openBoards <==>
                  p in app'.boards || (p in app.ui.openBoards && !(p == path && (path == "" || !isDir(path)))))
  {
    forall q { RemovedTwice(app.ui.openBoards, path, q); }
    if path != "" && isDir(path) && build(path).Some? { assert Reopens(fs, path, isDir, build, KeyFor(fs, path)); }
  }

  /** Restoring removes from the list exactly the empty and the vanished paths among
      those it goes through, and adds exactly what it opens. */
  lemma {:induction false} RestoreLists(fs: FileSys, app: App, paths: seq<string>, isDir: string -> bool,
                                        build: string -> Option<nat>, p: string)
    requires CanonStable(fs) && OpensDirectories(fs, isDir, build) && BoardsListed(fs, app)
    requires forall k :: k in app.boards ==> k != "" && isDir(k)
    ensures var app' := RestoreBoards(fs, app, paths, isDir, build);
            && BoardsListed(fs, app') && (forall k :: k in app'.boards ==> k != "" && isDir(k))
            && (p in app'.ui.openBoards <==>
                  p in app'.boards || (p in app.ui.openBoards && !(p in paths && (p == "" || !isDir(p)))))
  {
    if paths != [] {
      var n := |paths| - 1;
      var before := RestoreBoards(fs, app, paths[..n], isDir, build);
      RestoreLists(fs, app, paths[..n], isDir, build, p);
      RestoreOneLists(fs, before, paths[n], isDir, build, p);
      RestoreOneOpens(fs, before, paths[n], isDir, build, p);
      assert paths == paths[..n] + [paths[n]];
      assert p in paths <==> p in paths[..n] || p == paths[n];
    }
  }

  /** Quit and start again: of the boards that were loaded or opened and not
      closed since, the next launch opens exactly those that are still
      directories and can be built, and no other. */
  lemma BoardsComeBack(fs: FileSys, config: UI, run: seq<Action>, isDir: string -> bool,
                       build: string -> Option<nat>, key: string)
    requires CanonStable(fs)
    ensures var saved := OnDisk(After(fs, Loaded(config), run).ui);
            key in RestoreBoards(fs, Loaded(saved), saved.openBoards, isDir, build).boards <==>
            exists p :: Reopens(fs, p, isDir, build, key) &&
                        (OpenedAndKept(fs, Loaded(config), run, p) ||
                         (p in config.openBoards && KeptFrom(fs, Loaded(config), run, 0, p)))
  {
    var saved := OnDisk(After(fs, Loaded(config), run).ui);
    RestoreOpens(fs, Loaded(saved), saved.openBoards, isDir, build, key);
    forall p
      ensures p in saved.openBoards <==>
              OpenedAndKept(fs, Loaded(config), run, p) ||
              (p in config.openBoards && KeptFrom(fs, Loaded(config), run, 0, p))
    {
      ListedBoards(fs, config, run, p);
    }
  }
}
