/** Open boards, the windows showing them and the most-recent entry: what
    opening, closing, switching and focusing do to them. */
module Boards {
  import opened Json
  import opened UiState

  /** The fixed file system: `canon` canonicalizes a path, or returns it as it is
      when that fails; `resolve` finds the `.kanban` directory for a path. */
  datatype FileSys = FileSys(canon: string -> string, resolve: string -> string)

  ghost predicate CanonStable(fs: FileSys) {
    forall p :: fs.canon(fs.canon(p)) == fs.canon(p)
  }

  /** Open boards by canonical path, each with its handle, and the UI state. */
  datatype App = App(boards: map<string, nat>, ui: UI)

  function KeyFor(fs: FileSys, path: string): string { fs.canon(fs.resolve(path)) }

  // ---- the operations, on values ------------------------------------------------------

  /** Whether opening succeeds: already open, or its handle could be built. */
  predicate Opens(fs: FileSys, app: App, path: string, built: Option<nat>) {
    KeyFor(fs, path) in app.boards || built.Some?
  }

  function OpenBoard(fs: FileSys, app: App, path: string, built: Option<nat>): App {
    var key := KeyFor(fs, path);
    if key in app.boards then app.(ui := SetMostRecent(app.ui, key))
    else if built.None? then app
    else App(app.boards[key := built.value], AddOpenBoard(SetMostRecent(app.ui, key), key))
  }

  /** Whether closing hands the most-recent entry to another board. */
  predicate HandsOver(fs: FileSys, app: App, path: string) {
    app.ui.mostRecent == Some(fs.canon(path)) && app.boards - {fs.canon(path)} != map[]
  }

  /** Closing a board; `next` is the open board taken over to, when one is. */
  function CloseBoard(fs: FileSys, app: App, path: string, next: string): App {
    var key := fs.canon(path);
    if key !in app.boards then app
    else
      App(app.boards - {key},
          RemoveOpenBoard(if HandsOver(fs, app, path) then SetMostRecent(app.ui, next) else app.ui, key))
  }

  ghost predicate NextOk(fs: FileSys, app: App, path: string, next: string) {
    fs.canon(path) in app.boards && HandsOver(fs, app, path) ==> next in app.boards && next != fs.canon(path)
  }

  function ActiveHandle(fs: FileSys, app: App): Option<nat> {
    match app.ui.mostRecent
    case None => None
    case Some(p) => if fs.canon(p) in app.boards then Some(app.boards[fs.canon(p)]) else None
  }

  function Showing(ui: UI, path: string): set<string> {
    set w | w in ui.windows && ui.windows[w].boardPath != "" && ui.windows[w].boardPath == path
  }

  /** The last window showing a board drops it; otherwise the requesting window
      is detached. */
  function DropOrDetach(fs: FileSys, app: App, path: string, requesting: string, next: string): App {
    if |Showing(app.ui, path)| <= 1 then
      var closed := CloseBoard(fs, app, path, next);
      closed.(ui := RemoveOpenBoard(closed.ui, path))
    else app.(ui := SetWindowBoard(app.ui, requesting, ""))
  }

  /** The close command resolves its path to canonical form first. */
  function CloseFrom(fs: FileSys, app: App, win: string, path: string, next: string): App {
    DropOrDetach(fs, app, fs.canon(path), win, next)
  }

  /** The switch command, then its side effect on the open boards. */
  function SwitchTo(fs: FileSys, app: App, win: string, path: string, built: Option<nat>): App {
    var commanded := app.(ui := SetMostRecent(SetWindowBoard(app.ui, win, path), path));
    var outcome := OpenBoard(fs, commanded, path, built);
    if Opens(fs, app, path, built) then outcome.(ui := SetWindowBoard(outcome.ui, win, KeyFor(fs, path))) else outcome
  }

  function Focus(app: App, win: string): App {
    match WindowBoard(app.ui, win)
    case Some(p) => app.(ui := SetMostRecent(app.ui, p))
    case None => app
  }

  /** The board a new window shows: the one given, else the most recent, else
      any open one (`pick`). */
  function NewWindowPath(app: App, given: Option<string>, pick: string): Option<string> {
    if given.Some? then given
    else if app.ui.mostRecent.Some? then app.ui.mostRecent
    else if app.boards != map[] then Some(pick)
    else None
  }

  function NewWindow(app: App, win: string, given: Option<string>, pick: string): App {
    match NewWindowPath(app, given, pick)
    case Some(p) => app.(ui := SetWindowBoard(app.ui, win, p))
    case None => app
  }

  /** Restoring one listed board at startup: an empty or vanished path leaves the
      list, any other is opened if it can be. */
  function RestoreBoard(fs: FileSys, app: App, path: string, isDir: string -> bool, build: string -> Option<nat>): App {
    if path != "" && isDir(path) then OpenBoard(fs, app, path, build(path))
    else app.(ui := RemoveOpenBoard(app.ui, path))
  }

  function RestoreBoards(fs: FileSys, app: App, paths: seq<string>, isDir: string -> bool, build: string -> Option<nat>): App {
    if paths == [] then app
    else RestoreBoard(fs, RestoreBoards(fs, app, paths[..|paths| - 1], isDir, build), paths[|paths| - 1], isDir, build)
  }

  /** A window's board that is opened with it, unless it was open before. */
  ghost predicate RestoresTo(fs: FileSys, app: App, w: string, isDir: string -> bool, build: string -> Option<nat>, key: string) {
    && w in app.ui.windows
    && var path := app.ui.windows[w].boardPath;
       path != "" && fs.canon(path) !in app.boards && isDir(path) && build(path).Some? && fs.canon(fs.resolve(path)) == key
  }

  // ---- the application state object ------------------------------------------------------

  class AppState {
    var boards: map<string, nat>
    const ui: UIState
    const fs: FileSys

    constructor (ui: UIState, fs: FileSys)
      ensures boards == map[] && this.ui == ui && this.fs == fs
    {
      boards := map[];
      this.ui := ui;
      this.fs := fs;
    }

    function View(): App
      reads this, ui
    {
      App(boards, ui.View())
    }

    method TouchIfAlreadyOpen(canonical: string) returns (isOpen: bool)
      modifies ui
      ensures isOpen <==> canonical in boards
      ensures View() == if isOpen then old(View()).(ui := SetMostRecent(old(View()).ui, canonical)) else old(View())
    {
      isOpen := canonical in boards;
      if isOpen {
        ui.TouchMostRecent(canonical);
      }
    }

    method RegisterOpenBoard(canonical: string, handle: nat)
      modifies this, ui
      ensures View() == App(old(boards)[canonical := handle],
                            AddOpenBoard(SetMostRecent(old(View()).ui, canonical), canonical))
    {
      boards := boards[canonical := handle];
      ui.TouchMostRecent(canonical);
      ui.AddBoard(canonical);
    }

    /** `open_board_with`; `built` is the outcome of building the handle. */
    method OpenBoardWith(path: string, built: Option<nat>) returns (r: Option<string>)
      modifies this, ui
      ensures View() == OpenBoard(fs, old(View()), path, built)
      ensures r == if Opens(fs, old(View()), path, built) then Some(KeyFor(fs, path)) else None
    {
      var kanbanPath := fs.resolve(path);
      var canonical := fs.canon(kanbanPath);
      var already := TouchIfAlreadyOpen(canonical);
      if already {
        return Some(canonical);
      }
      if built.None? {
        return None;
      }
      RegisterOpenBoard(canonical, built.value);
      r := Some(canonical);
    }

    /** `close_board` */
    method Close(path: string) returns (ok: bool, ghost next: string)
      modifies this, ui
      ensures ok <==> fs.canon(path) in old(boards)
      ensures NextOk(fs, old(View()), path, next)
      ensures View() == CloseBoard(fs, old(View()), path, next)
      ensures forall p :: p in ui.openBoards <==> p in old(ui.openBoards) && !(ok && p == fs.canon(path))
      ensures ok ==> ui.saved.openBoards == ui.openBoards
    {
      var canonical := fs.canon(path);
      next := "";
      if canonical !in boards {
        return false, next;
      }
      boards := boards - {canonical};
      if ui.mostRecent == Some(canonical) {
        if boards != map[] {
          assert boards.Keys != {};
          var chosen :| chosen in boards;
          next := chosen;
          ui.TouchMostRecent(chosen);
        }
      }
      ui.RemoveBoard(canonical);
      ok := true;
    }

    /** `drop_or_detach_board` */
    method DropOrDetachBoard(path: string, requesting: string) returns (ghost next: string)
      modifies this, ui
      ensures |Showing(old(View()).ui, path)| <= 1 ==> NextOk(fs, old(View()), path, next)
      ensures View() == DropOrDetach(fs, old(View()), path, requesting, next)
      ensures forall p :: p in ui.openBoards <==>
                p in old(ui.openBoards) &&
                !(|set w | w in old(ui.windows) && old(ui.windows)[w].boardPath != "" && old(ui.windows)[w].boardPath == path| <= 1 &&
                  (p == path || (p == fs.canon(path) && p in old(boards))))
      ensures ui.saved.openBoards == ui.openBoards
    {
      var showing := set w | w in ui.windows && ui.windows[w].boardPath != "" && ui.windows[w].boardPath == path;
      next := "";
      assert showing == Showing(ui.View(), path);
      if |showing| <= 1 {
        var ok;
        ok, next := Close(path);
        ui.RemoveBoard(path);
      } else {
        ui.AssignBoard(requesting, "");
      }
    }

    /** `restore_persisted_boards` */
    method RestorePersistedBoards(isDir: string -> bool, build: string -> Option<nat>)
      modifies this, ui
      ensures View() == RestoreBoards(fs, old(View()), old(ui.openBoards), isDir, build)
    {
      var paths := ui.openBoards;
      for i := 0 to |paths|
        invariant View() == RestoreBoards(fs, old(View()), paths[..i], isDir, build)
      {
        var path := paths[i];
        assert paths[..i + 1][..i] == paths[..i];
        if path == "" {
          ui.RemoveBoard("");
          continue;
        }
        if isDir(path) {
          var r := OpenBoardWith(path, build(path));
        } else {
          ui.RemoveBoard(path);
        }
      }
      assert paths[..|paths|] == paths;
    }

    /** `restore_window_boards`, in any order of the windows */
    method RestoreWindowBoards(isDir: string -> bool, build: string -> Option<nat>)
      modifies this, ui
      ensures forall k :: k in boards <==> k in old(boards) || exists w :: RestoresTo(fs, old(View()), w, isDir, build, k)
      ensures forall k :: k in old(boards) ==> boards[k] == old(boards)[k]
      ensures forall p :: p in ui.openBoards <==> p in old(ui.openBoards) || (p in boards && p !in old(boards))
      ensures ui.windows == old(ui.windows)
    {
      ghost var start := View();
      var alreadyOpen := boards.Keys;
      var todo := ui.windows.Keys;
      while todo != {}
        invariant todo <= ui.windows.Keys && ui.windows == start.ui.windows
        invariant forall k :: k in boards <==>
                    k in start.boards || exists w :: w !in todo && RestoresTo(fs, start, w, isDir, build, k)
        invariant forall k :: k in start.boards ==> k in boards && boards[k] == start.boards[k]
        invariant forall p :: p in ui.openBoards <==> p in start.ui.openBoards || (p in boards && p !in start.boards)
        decreases todo
      {
        var w :| w in todo;
        todo := todo - {w};
        var path := ui.windows[w].boardPath;
        if path == "" || fs.canon(path) in alreadyOpen || !isDir(path) {
          continue;
        }
        var r := OpenBoardWith(path, build(path));
      }
    }

    /** The `BoardSwitch` command and `handle_board_switch_result`. */
    method Switch(win: string, path: string, built: Option<nat>) returns (ok: bool)
      modifies this, ui
      ensures ok <==> Opens(fs, old(View()), path, built)
      ensures View() == SwitchTo(fs, old(View()), win, path, built)
    {
      ui.AssignBoard(win, path);
      ui.TouchMostRecent(path);
      var r := OpenBoardWith(path, built);
      ok := r.Some?;
      if ok {
        ui.AssignBoard(win, r.value);
      }
    }
  }
}
