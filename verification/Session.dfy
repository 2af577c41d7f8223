/** Window events, quitting and restarting: what the config file holds at exit
    and what the next launch rebuilds from it. */
module Session {
  import opened Json
  import opened UiState
  import opened Boards

  const QUICK_CAPTURE := "quick-capture"

  /** `geometry` is what the window reports, or the saved one on restore; `None`
      when it could not be read. `board` is the resolved board of the window, and
      `openKey` the canonical path of a switch whose board opens. Closing a board
      either drops it, handing the most-recent entry to `next` if need be, or
      detaches the window that asked. */
  datatype Event =
    | Created(win: string, board: Option<string>, geometry: Option<Geometry>)
    | Moved(win: string, geometry: Option<Geometry>)
    | Focused(win: string)
    | CloseRequested(win: string)
    | Destroyed(win: string)
    | Switched(win: string, path: string, openKey: Option<string>)
    | BoardDropped(path: string, next: Option<string>)
    | BoardDetached(win: string)
    | ExitRequested

  /** The UI state in memory, the config file, and the quit flag. */
  datatype State = State(ui: UI, saved: UI, shuttingDown: bool)

  function Saving(s: State, ui: UI): State { s.(ui := ui, saved := OnDisk(ui)) }

  /** The persisting part of creating a window. */
  function CreateWindow(s: State, win: string, board: Option<string>, geometry: Option<Geometry>): State {
    if board.None? then s
    else
      var shown := SetWindowBoard(s.ui, win, board.value);
      Saving(s, if geometry.Some? then SaveGeometry(shown, win, geometry.value) else shown)
  }

  /** The switch command's assignment, and the reassignment when the board opens. */
  function SwitchBoard(ui: UI, win: string, path: string, openKey: Option<string>): UI {
    var asked := SetMostRecent(SetWindowBoard(ui, win, path), path);
    match openKey
    case None => asked
    case Some(key) => SetWindowBoard(AddOpenBoard(SetMostRecent(asked, key), key), win, key)
  }

  function Handle(s: State, e: Event): State {
    match e
    case Created(win, board, geometry) => CreateWindow(s, win, board, geometry)
    case Moved(win, geometry) =>
      if win == QUICK_CAPTURE || s.shuttingDown || geometry.None? then s
      else s.(ui := UpdateGeometry(s.ui, win, geometry.value))
    case Focused(win) =>
      if win == QUICK_CAPTURE || WindowBoard(s.ui, win).None? then s
      else Saving(s, SetMostRecent(s.ui, WindowBoard(s.ui, win).value))
    case CloseRequested(win) =>
      if win == QUICK_CAPTURE || s.shuttingDown then s else Saving(s, RemoveWindow(s.ui, win))
    case Destroyed(_) => s
    case Switched(win, path, openKey) => Saving(s, SwitchBoard(s.ui, win, path, openKey))
    case BoardDropped(path, next) =>
      Saving(s, RemoveOpenBoard(if next.Some? then SetMostRecent(s.ui, next.value) else s.ui, path))
    case BoardDetached(win) => Saving(s, SetWindowBoard(s.ui, win, ""))
    case ExitRequested => Saving(s.(shuttingDown := true), s.ui)
  }

  function After(s: State, trace: seq<Event>): State {
    if trace == [] then s else Handle(After(s, trace[..|trace| - 1]), trace[|trace| - 1])
  }

  // ---- switching and closing boards are these events ---------------------------------------

  lemma SwitchIsEvent(fs: FileSys, app: App, win: string, path: string, built: Option<nat>)
    requires forall k :: k in app.boards ==> k in app.ui.openBoards
    ensures SwitchTo(fs, app, win, path, built).ui ==
            SwitchBoard(app.ui, win, path, if Opens(fs, app, path, built) then Some(KeyFor(fs, path)) else None)
  {
  }

  lemma {:induction false} WithoutTwice(paths: seq<string>, path: string)
    ensures Without(Without(paths, path), path) == Without(paths, path)
  {
    if paths != [] {
      WithoutTwice(paths[1..], path);
      var rest := Without(paths[1..], path);
      if paths[0] == path {
        assert Without(paths, path) == rest;
      } else {
        assert Without(paths, path) == [paths[0]] + rest && ([paths[0]] + rest)[1..] == rest;
      }
    }
  }

  lemma CloseIsEvent(fs: FileSys, app: App, win: string, path: string, next: string, saved: UI, quitting: bool)
    requires CanonStable(fs)
    ensures var p := fs.canon(path);
            var e := if |Showing(app.ui, p)| <= 1
                     then BoardDropped(p, if p in app.boards && HandsOver(fs, app, p) then Some(next) else None)
                     else BoardDetached(win);
            CloseFrom(fs, app, win, path, next).ui == Handle(State(app.ui, saved, quitting), e).ui
  {
    WithoutTwice(app.ui.openBoards, fs.canon(path));
  }

  /** Focusing is the same step on both sides, and the most-recent entry follows
      the focused window's board into the file. */
  lemma FocusIsEvent(app: App, win: string, saved: UI, quitting: bool)
    requires win != QUICK_CAPTURE
    ensures var s' := Handle(State(app.ui, saved, quitting), Focused(win));
            && s'.ui == Focus(app, win).ui
            && (win in app.ui.windows && app.ui.windows[win].boardPath != "" ==>
                  s'.ui.mostRecent == s'.saved.mostRecent == Some(app.ui.windows[win].boardPath))
            && s'.ui.windows == app.ui.windows && s'.ui.openBoards == app.ui.openBoards
  {
  }

  /** Nothing that happens to the quick-capture window is kept. */
  lemma QuickCaptureIgnored(s: State, e: Event)
    requires (e.Moved? || e.Focused? || e.CloseRequested? || e.Destroyed?) && e.win == QUICK_CAPTURE
    ensures Handle(s, e) == s
  {
  }

  // ---- the handlers as the program runs them ---------------------------------------------

  datatype LiveWindow = LiveWindow(board: Option<string>, geometry: Option<Geometry>)

  /** The running application: its state and the windows on screen. */
  class Application {
    const ui: UIState
    var shuttingDown: bool
    var live: map<string, LiveWindow>

    constructor (ui: UIState)
      ensures this.ui == ui && !shuttingDown && live == map[]
    {
      this.ui := ui;
      shuttingDown := false;
      live := map[];
    }

    function View(): State
      reads this, ui
    {
      State(ui.View(), ui.saved, shuttingDown)
    }

    method OnGeometryChanged(win: string, geometry: Option<Geometry>)
      requires win != QUICK_CAPTURE
      modifies ui
      ensures View() == Handle(old(View()), Moved(win, geometry))
    {
      if shuttingDown {
        return;
      }
      if geometry.Some? {
        ui.MoveGeometry(win, geometry.value);
      }
    }

    method OnFocused(win: string)
      requires win != QUICK_CAPTURE
      modifies ui
      ensures View() == Handle(old(View()), Focused(win))
    {
      var board := WindowBoard(UI(ui.windows, ui.openBoards, ui.mostRecent), win);
      if board.Some? {
        ui.TouchMostRecent(board.value);
      }
    }

    method OnCloseRequested(win: string)
      requires win != QUICK_CAPTURE
      modifies ui
      ensures View() == Handle(old(View()), CloseRequested(win))
    {
      if shuttingDown {
        return;
      }
      ui.DropWindow(win);
    }

    /** `handle_window_event` */
    method HandleWindowEvent(e: Event)
      requires e.Moved? || e.Focused? || e.CloseRequested? || e.Destroyed?
      modifies ui
      ensures View() == Handle(old(View()), e)
    {
      if e.win == QUICK_CAPTURE {
        return;
      }
      match e {
        case Moved(win, geometry) => OnGeometryChanged(win, geometry);
        case Focused(win) => OnFocused(win);
        case CloseRequested(win) => OnCloseRequested(win);
        case Destroyed(win) =>
      }
    }

    /** `handle_run_event` for an exit request */
    method HandleExitRequested()
      modifies this`shuttingDown, ui
      ensures View() == Handle(old(View()), ExitRequested)
    {
      shuttingDown := true;
      ui.Save();
    }

    /** `create_window_impl`; `ok` is whether the window could be built, and
        `placed` what the system reports for a window without saved geometry. */
    method CreateWindowImpl(win: string, board: Option<string>, geometry: Option<Geometry>,
                            ok: bool, placed: Option<Geometry>)
      modifies this`live, ui
      ensures shuttingDown == old(shuttingDown)
      ensures live == if ok then old(live)[win := LiveWindow(board, if geometry.Some? then geometry else placed)] else old(live)
      ensures View() == if ok then CreateWindow(old(View()), win, board, if geometry.Some? then geometry else placed)
                        else old(View())
    {
      if !ok {
        return;
      }
      live := live[win := LiveWindow(board, if geometry.Some? then geometry else placed)];
      if board.Some? {
        ui.AssignBoard(win, board.value);
        if geometry.Some? {
          ui.StoreGeometry(win, geometry.value);
        } else if placed.Some? {
          ui.StoreGeometry(win, placed.value);
        }
      }
    }

    /** One saved window of the restore loop; `ok` is whether it was rebuilt. */
    method RestoreWindow(saved: map<string, WindowState>, win: string, buildable: set<string>,
                         placed: map<string, Geometry>) returns (ok: bool)
      requires win in saved && win in ui.windows && ui.windows[win] == saved[win]
      modifies this`live, ui
      ensures ok <==> win in RestorableIn(saved, buildable)
      ensures View() == if ok then Handle(old(View()), RestoreEvent(saved, placed, win)) else old(View())
      ensures shuttingDown == old(shuttingDown)
      ensures live == if ok then old(live)[win := LiveOf(saved, placed, win)] else old(live)
      ensures ui.windows == if ok then old(ui.windows)[win := EntryAfter(saved, placed, win)] else old(ui.windows)
      ensures ui.openBoards == old(ui.openBoards) && ui.mostRecent == old(ui.mostRecent)
    {
      if win == QUICK_CAPTURE {
        return false;
      }
      var board := WindowBoard(UI(ui.windows, ui.openBoards, ui.mostRecent), win);
      if board.None? {
        return false;
      }
      var geometry := GeometryOf(saved[win]);
      CreateWindowImpl(win, board, geometry, win in buildable, if win in placed then Some(placed[win]) else None);
      ok := win in buildable;
    }

    /** `restore_session_windows`: rebuilds every saved board window, or one
        fallback window when none could be. `fallback` is that window's label
        and resolved board. */
    method RestoreSessionWindows(buildable: set<string>, placed: map<string, Geometry>,
                                 fallback: string, fallbackBoard: Option<string>) returns (ghost trace: seq<Event>)
      requires live == map[]
      modifies this`live, ui
      ensures live == Relit(old(ui.windows), buildable, placed, fallback, fallbackBoard)
      ensures RestorableIn(old(ui.windows), buildable) != {} ==>
                ui.windows == AfterRestore(old(ui.windows), buildable, placed)
      ensures RestoreTrace(old(ui.windows), buildable, placed, fallback, fallbackBoard, trace)
      ensures View() == After(old(View()), trace)
      ensures ui.openBoards == old(ui.openBoards) && ui.mostRecent == old(ui.mostRecent)
    {
      var saved := ui.windows;
      var restoredAny := false;
      trace := [];
      var todo := saved.Keys;
      RestoreBegins(saved, buildable, placed);
      while todo != {}
        invariant saved == old(ui.windows)
        invariant ui.openBoards == old(ui.openBoards) && ui.mostRecent == old(ui.mostRecent)
        invariant View() == After(old(View()), trace)
        invariant RestoredSoFar(saved, buildable, placed, todo, ui.windows, live, restoredAny, trace)
        decreases todo
      {
        var win :| win in todo;
        ghost var windows, shown, any := ui.windows, live, restoredAny;
        var ok := RestoreWindow(saved, win, buildable, placed);
        RestoreNext(saved, buildable, placed, todo, win, windows, shown, any, trace);
        todo := todo - {win};
        if ok {
          restoredAny := true;
          AfterAppend(old(View()), trace, RestoreEvent(saved, placed, win));
          trace := trace + [RestoreEvent(saved, placed, win)];
        }
      }
      RestoreEnds(saved, buildable, placed, ui.windows, live, restoredAny, trace);
      if !restoredAny {
        CreateWindowImpl(fallback, fallbackBoard, None, fallback in buildable,
                         if fallback in placed then Some(placed[fallback]) else None);
        if fallback in buildable {
          trace := [FallbackEvent(placed, fallback, fallbackBoard)];
          AfterAppend(old(View()), [], trace[0]);
        }
      }
    }
  }

  // ---- restoring, on values -----------------------------------------------------------------

  /** Saved windows with a board that can be built. */
  function RestorableIn(saved: map<string, WindowState>, buildable: set<string>): set<string> {
    set w | w in saved && w != QUICK_CAPTURE && saved[w].boardPath != "" && w in buildable
  }

  function PlaceOf(saved: map<string, WindowState>, placed: map<string, Geometry>, w: string): Option<Geometry>
    requires w in saved
  {
    if GeometryOf(saved[w]).Some? then GeometryOf(saved[w]) else if w in placed then Some(placed[w]) else None
  }

  function LiveOf(saved: map<string, WindowState>, placed: map<string, Geometry>, w: string): LiveWindow
    requires w in saved
  {
    LiveWindow(Some(saved[w].boardPath), PlaceOf(saved, placed, w))
  }

  function EntryAfter(saved: map<string, WindowState>, placed: map<string, Geometry>, w: string): WindowState
    requires w in saved
  {
    match PlaceOf(saved, placed, w)
    case Some(g) => WithGeometry(saved[w], g)
    case None => saved[w]
  }

  function Restored(saved: map<string, WindowState>, buildable: set<string>, placed: map<string, Geometry>): map<string, LiveWindow> {
    map w | w in RestorableIn(saved, buildable) :: LiveOf(saved, placed, w)
  }

  function AfterRestore(saved: map<string, WindowState>, buildable: set<string>, placed: map<string, Geometry>): map<string, WindowState> {
    map w | w in saved :: if w in RestorableIn(saved, buildable) then EntryAfter(saved, placed, w) else saved[w]
  }

  /** What the next launch shows: the restorable windows, or one fallback window
      when there are none. */
  function Relit(saved: map<string, WindowState>, buildable: set<string>, placed: map<string, Geometry>,
                 fallback: string, fallbackBoard: Option<string>): map<string, LiveWindow> {
    if RestorableIn(saved, buildable) != {} then Restored(saved, buildable, placed)
    else if fallback in buildable
      then map[fallback := LiveWindow(fallbackBoard, if fallback in placed then Some(placed[fallback]) else None)]
    else map[]
  }

  function RestoreEvent(saved: map<string, WindowState>, placed: map<string, Geometry>, w: string): Event
    requires w in saved
  {
    Created(w, Some(saved[w].boardPath), PlaceOf(saved, placed, w))
  }

  function FallbackEvent(placed: map<string, Geometry>, fallback: string, fallbackBoard: Option<string>): Event {
    Created(fallback, fallbackBoard, if fallback in placed then Some(placed[fallback]) else None)
  }

  /** The events recreate exactly these windows, once each, in some order. */
  ghost predicate Restoring(saved: map<string, WindowState>, placed: map<string, Geometry>, done: set<string>, trace: seq<Event>) {
    && done <= saved.Keys
    && (forall i :: 0 <= i < |trace| ==>
          trace[i].Created? && trace[i].win in done && trace[i] == RestoreEvent(saved, placed, trace[i].win))
    && (forall i, j :: 0 <= i < j < |trace| ==> trace[i].win != trace[j].win)
    && (forall w :: w in done ==> Recreates(trace, w))
  }

  ghost predicate Recreates(trace: seq<Event>, w: string) {
    exists i :: 0 <= i < |trace| && trace[i].Created? && trace[i].win == w
  }

  ghost predicate RestoreTrace(saved: map<string, WindowState>, buildable: set<string>, placed: map<string, Geometry>,
                               fallback: string, fallbackBoard: Option<string>, trace: seq<Event>) {
    if RestorableIn(saved, buildable) != {} then Restoring(saved, placed, RestorableIn(saved, buildable), trace)
    else trace == if fallback in buildable then [FallbackEvent(placed, fallback, fallbackBoard)] else []
  }

  /** A window that startup creates, restored or fallback, is entered with its
      board and with the geometry it was given. */
  lemma StartupEntry(s: State, saved: map<string, WindowState>, placed: map<string, Geometry>, w: string,
                     board: Option<string>)
    ensures w in saved ==>
              var ws := Handle(s, RestoreEvent(saved, placed, w)).ui.windows;
              && w in ws && ws[w].boardPath == saved[w].boardPath
              && (if GeometryOf(saved[w]).Some? then GeometryOf(ws[w]) == GeometryOf(saved[w])
                  else w in placed ==> GeometryOf(ws[w]) == Some(placed[w]))
    ensures board.Some? ==>
              var ws := Handle(s, FallbackEvent(placed, w, board)).ui.windows;
              w in ws && ws[w].boardPath == board.value && (w in placed ==> GeometryOf(ws[w]) == Some(placed[w]))
  {
  }

  lemma AfterAppend(s: State, trace: seq<Event>, e: Event)
    ensures After(s, trace + [e]) == Handle(After(s, trace), e)
    ensures After(s, [e]) == Handle(s, e)
  {
    var t := trace + [e];
    assert t[..|t| - 1] == trace && t[|t| - 1] == e;
    assert [e][..0] == [];
  }

  function LiveSoFar(saved: map<string, WindowState>, buildable: set<string>, placed: map<string, Geometry>,
                     todo: set<string>): map<string, LiveWindow> {
    map w | w in RestorableIn(saved, buildable) && w !in todo :: LiveOf(saved, placed, w)
  }

  function EntriesSoFar(saved: map<string, WindowState>, buildable: set<string>, placed: map<string, Geometry>,
                        todo: set<string>): map<string, WindowState> {
    map w | w in saved :: if w in RestorableIn(saved, buildable) && w !in todo then EntryAfter(saved, placed, w) else saved[w]
  }

  /** The state of the restore loop while the windows in `todo` still wait. */
  ghost predicate RestoredSoFar(saved: map<string, WindowState>, buildable: set<string>, placed: map<string, Geometry>,
                                todo: set<string>, windows: map<string, WindowState>, live: map<string, LiveWindow>,
                                any: bool, trace: seq<Event>) {
    && todo <= saved.Keys
    && windows == EntriesSoFar(saved, buildable, placed, todo)
    && live == LiveSoFar(saved, buildable, placed, todo)
    && (any <==> RestorableIn(saved, buildable) - todo != {})
    && Restoring(saved, placed, RestorableIn(saved, buildable) - todo, trace)
  }

  lemma RestoreStep(saved: map<string, WindowState>, buildable: set<string>, placed: map<string, Geometry>,
                    todo: set<string>, win: string)
    requires todo <= saved.Keys && win in todo
    ensures var restorable := win in RestorableIn(saved, buildable);
            && LiveSoFar(saved, buildable, placed, todo - {win}) ==
               (if restorable then LiveSoFar(saved, buildable, placed, todo)[win := LiveOf(saved, placed, win)]
                else LiveSoFar(saved, buildable, placed, todo))
            && EntriesSoFar(saved, buildable, placed, todo - {win}) ==
               (if restorable then EntriesSoFar(saved, buildable, placed, todo)[win := EntryAfter(saved, placed, win)]
                else EntriesSoFar(saved, buildable, placed, todo))
            && RestorableIn(saved, buildable) - (todo - {win}) ==
               (if restorable then RestorableIn(saved, buildable) - todo + {win} else RestorableIn(saved, buildable) - todo)
  {
  }

  lemma RestoringNext(saved: map<string, WindowState>, placed: map<string, Geometry>, done: set<string>, trace: seq<Event>,
                      win: string)
    requires Restoring(saved, placed, done, trace) && win in saved && win !in done
    ensures Restoring(saved, placed, done + {win}, trace + [RestoreEvent(saved, placed, win)])
  {
    var t := trace + [RestoreEvent(saved, placed, win)];
    forall w | w in done + {win} ensures Recreates(t, w) {
      if w == win {
        assert t[|trace|].win == w;
      } else {
        var i :| 0 <= i < |trace| && trace[i].Created? && trace[i].win == w;
        assert t[i].win == w;
      }
    }
  }

  /** Taking one more saved window off the list. */
  lemma RestoreNext(saved: map<string, WindowState>, buildable: set<string>, placed: map<string, Geometry>, todo: set<string>,
                    win: string, windows: map<string, WindowState>, live: map<string, LiveWindow>, any: bool, trace: seq<Event>)
    requires win in todo && RestoredSoFar(saved, buildable, placed, todo, windows, live, any, trace)
    ensures var ok := win in RestorableIn(saved, buildable);
            RestoredSoFar(saved, buildable, placed, todo - {win},
                          if ok then windows[win := EntryAfter(saved, placed, win)] else windows,
                          if ok then live[win := LiveOf(saved, placed, win)] else live,
                          any || ok, if ok then trace + [RestoreEvent(saved, placed, win)] else trace)
  {
    RestoreStep(saved, buildable, placed, todo, win);
    if win in RestorableIn(saved, buildable) {
      RestoringNext(saved, placed, RestorableIn(saved, buildable) - todo, trace, win);
    }
  }

  lemma RestoreBegins(saved: map<string, WindowState>, buildable: set<string>, placed: map<string, Geometry>)
    ensures RestoredSoFar(saved, buildable, placed, saved.Keys, saved, map[], false, [])
  {
    assert LiveSoFar(saved, buildable, placed, saved.Keys) == map[];
    assert EntriesSoFar(saved, buildable, placed, saved.Keys) == saved;
  }

  lemma RestoreEnds(saved: map<string, WindowState>, buildable: set<string>, placed: map<string, Geometry>,
                    windows: map<string, WindowState>, live: map<string, LiveWindow>, any: bool, trace: seq<Event>)
    requires RestoredSoFar(saved, buildable, placed, {}, windows, live, any, trace)
    ensures live == Restored(saved, buildable, placed) && windows == AfterRestore(saved, buildable, placed)
    ensures any <==> RestorableIn(saved, buildable) != {}
    ensures Restoring(saved, placed, RestorableIn(saved, buildable), trace)
    ensures !any ==> trace == [] && live == map[]
  {
    assert RestorableIn(saved, buildable) - {} == RestorableIn(saved, buildable);
    assert LiveSoFar(saved, buildable, placed, {}) == Restored(saved, buildable, placed);
    assert EntriesSoFar(saved, buildable, placed, {}) == AfterRestore(saved, buildable, placed);
    assert trace != [] ==> trace[0].Created? && trace[0].win in RestorableIn(saved, buildable);
  }

  /** Where every saved board window has a complete geometry and can be built,
      the restore shows each with its saved board and geometry, shows nothing
      else, and leaves the saved entries as they were. */
  lemma RestoreReproduces(saved: map<string, WindowState>, buildable: set<string>, placed: map<string, Geometry>)
    requires forall w :: w in saved && w != QUICK_CAPTURE && saved[w].boardPath != "" ==>
                           w in buildable && GeometryOf(saved[w]).Some?
    ensures AfterRestore(saved, buildable, placed) == saved
    ensures forall w :: w in Restored(saved, buildable, placed) <==> w in saved && w != QUICK_CAPTURE && saved[w].boardPath != ""
    ensures forall w :: w in Restored(saved, buildable, placed) ==>
              Restored(saved, buildable, placed)[w] == LiveWindow(Some(saved[w].boardPath), GeometryOf(saved[w]))
  {
  }
}
