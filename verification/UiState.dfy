/** The shared UI state: window entries, the open-board list, the most recent
    board, and the copy of it all that the config file holds. */
module UiState {
  import opened Json

  /** One window's entry. The filtered task ids are transient. */
  datatype WindowState = WindowState(
    boardPath: string,
    activePerspectiveId: string,
    filteredTaskIds: Option<seq<string>>,
    x: Option<int>,
    y: Option<int>,
    width: Option<nat>,
    height: Option<nat>,
    maximized: bool)

  datatype Geometry = Geometry(x: int, y: int, width: nat, height: nat, maximized: bool)

  datatype UI = UI(windows: map<string, WindowState>, openBoards: seq<string>, mostRecent: Option<string>)

  const NEW_WINDOW := WindowState("", "", None, None, None, None, None, false)

  function Entry(ui: UI, win: string): WindowState {
    if win in ui.windows then ui.windows[win] else NEW_WINDOW
  }

  function WithGeometry(ws: WindowState, g: Geometry): WindowState {
    ws.(x := Some(g.x), y := Some(g.y), width := Some(g.width), height := Some(g.height), maximized := g.maximized)
  }

  function GeometryOf(ws: WindowState): Option<Geometry> {
    if ws.x.Some? && ws.y.Some? && ws.width.Some? && ws.height.Some?
    then Some(Geometry(ws.x.value, ws.y.value, ws.width.value, ws.height.value, ws.maximized))
    else None
  }

  /** What the config file keeps of a window. */
  function Persisted(ws: WindowState): WindowState { ws.(filteredTaskIds := None) }

  function OnDisk(ui: UI): UI {
    ui.(windows := map l | l in ui.windows :: Persisted(ui.windows[l]))
  }

  // ---- the mutations, on values ----------------------------------------------------

  function AddOpenBoard(ui: UI, path: string): UI {
    if path in ui.openBoards then ui else ui.(openBoards := ui.openBoards + [path])
  }

  function Without(paths: seq<string>, path: string): seq<string> {
    if paths == [] then []
    else (if paths[0] == path then [] else [paths[0]]) + Without(paths[1..], path)
  }

  /** Drops the board from the open list and from every window showing it. */
  function RemoveOpenBoard(ui: UI, path: string): UI {
    ui.(openBoards := Without(ui.openBoards, path),
        windows := map l | l in ui.windows ::
          if ui.windows[l].boardPath == path then ui.windows[l].(boardPath := "") else ui.windows[l])
  }

  /** Assigns a board to a window; a different board resets its perspective. */
  function SetWindowBoard(ui: UI, win: string, path: string): UI {
    var ws := Entry(ui, win);
    ui.(windows := ui.windows[win :=
      if ws.boardPath != path then ws.(boardPath := path, activePerspectiveId := "", filteredTaskIds := None) else ws])
  }

  function WindowBoard(ui: UI, win: string): Option<string> {
    if win in ui.windows && ui.windows[win].boardPath != "" then Some(ui.windows[win].boardPath) else None
  }

  function SetMostRecent(ui: UI, path: string): UI { ui.(mostRecent := Some(path)) }

  function RemoveWindow(ui: UI, win: string): UI { ui.(windows := ui.windows - {win}) }

  function SaveGeometry(ui: UI, win: string, g: Geometry): UI {
    ui.(windows := ui.windows[win := WithGeometry(Entry(ui, win), g)])
  }

  /** Moves an existing entry only: never creates one. */
  function UpdateGeometry(ui: UI, win: string, g: Geometry): UI {
    if win in ui.windows then SaveGeometry(ui, win, g) else ui
  }

  function SwitchPerspective(ui: UI, win: string, pid: string, ids: seq<string>): UI {
    ui.(windows := ui.windows[win := Entry(ui, win).(activePerspectiveId := pid, filteredTaskIds := Some(ids))])
  }

  predicate SwitchIsNoOp(ui: UI, win: string, pid: string, ids: seq<string>) {
    Entry(ui, win).activePerspectiveId == pid && Entry(ui, win).filteredTaskIds == Some(ids)
  }

  lemma {:induction false} WithoutMembers(paths: seq<string>, path: string, p: string)
    ensures p in Without(paths, path) <==> p in paths && p != path
  {
    if paths != [] { WithoutMembers(paths[1..], path, p); }
  }

  // ---- what the mutations leave --------------------------------------------------------

  /** An assigned window shows the board; its perspective and filter survive only
      an assignment of the board it showed. Nothing else moves. */
  lemma BoardAssigned(ui: UI, win: string, path: string)
    ensures var ui' := SetWindowBoard(ui, win, path);
            && win in ui'.windows && ui'.windows[win].boardPath == path
            && (if win in ui.windows && ui.windows[win].boardPath == path then ui'.windows[win] == ui.windows[win]
                else ui'.windows[win].activePerspectiveId == "" && ui'.windows[win].filteredTaskIds == None)
            && GeometryOf(ui'.windows[win]) == (if win in ui.windows then GeometryOf(ui.windows[win]) else None)
            && (forall w :: w != win ==> (w in ui'.windows <==> w in ui.windows) && Entry(ui', w) == Entry(ui, w))
            && ui'.openBoards == ui.openBoards && ui'.mostRecent == ui.mostRecent
  {
  }

  /** A removed board is shown by no window and listed no more; the other windows
      and boards stay as they were. */
  lemma BoardRemoved(ui: UI, path: string, p: string)
    ensures var ui' := RemoveOpenBoard(ui, path);
            && (p in ui'.openBoards <==> p in ui.openBoards && p != path)
            && ui'.windows.Keys == ui.windows.Keys
            && (forall w :: w in ui.windows ==>
                  ui'.windows[w] == if ui.windows[w].boardPath == path then ui.windows[w].(boardPath := "") else ui.windows[w])
            && ui'.mostRecent == ui.mostRecent
  {
    WithoutMembers(ui.openBoards, path, p);
  }

  /** A stored geometry is read back, and nothing else of the window moves; a
      reported move never makes an entry. */
  lemma GeometryStored(ui: UI, win: string, g: Geometry)
    ensures var ui' := SaveGeometry(ui, win, g);
            && win in ui'.windows && GeometryOf(ui'.windows[win]) == Some(g)
            && ui'.windows[win].boardPath == Entry(ui, win).boardPath
            && ui'.windows[win].activePerspectiveId == Entry(ui, win).activePerspectiveId
            && ui'.windows[win].filteredTaskIds == Entry(ui, win).filteredTaskIds
            && (forall w :: w != win ==> (w in ui'.windows <==> w in ui.windows) && Entry(ui', w) == Entry(ui, w))
            && ui'.openBoards == ui.openBoards && ui'.mostRecent == ui.mostRecent
    ensures UpdateGeometry(ui, win, g) == if win in ui.windows then SaveGeometry(ui, win, g) else ui
  {
  }

  lemma PerspectiveSwitched(ui: UI, win: string, pid: string, ids: seq<string>)
    ensures var ui' := SwitchPerspective(ui, win, pid, ids);
            && win in ui'.windows && ui'.windows[win].activePerspectiveId == pid && ui'.windows[win].filteredTaskIds == Some(ids)
            && ui'.windows[win].boardPath == Entry(ui, win).boardPath
            && GeometryOf(ui'.windows[win]) == GeometryOf(Entry(ui, win))
            && (forall w :: w != win ==> (w in ui'.windows <==> w in ui.windows) && Entry(ui', w) == Entry(ui, w))
            && (SwitchIsNoOp(ui, win, pid, ids) <==> Entry(ui', win) == Entry(ui, win))
            && ui'.openBoards == ui.openBoards && ui'.mostRecent == ui.mostRecent
  {
  }

  /** The config file keeps everything but the filtered ids. */
  lemma FilePersists(ui: UI)
    ensures var disk := OnDisk(ui);
            && disk.windows.Keys == ui.windows.Keys
            && (forall w :: w in ui.windows ==>
                  && disk.windows[w].filteredTaskIds == None
                  && disk.windows[w].(filteredTaskIds := ui.windows[w].filteredTaskIds) == ui.windows[w])
            && disk.openBoards == ui.openBoards && disk.mostRecent == ui.mostRecent
  {
  }

  // ---- the state object --------------------------------------------------------------

  /** `saved` is the content of the config file. */
  class UIState {
    var windows: map<string, WindowState>
    var openBoards: seq<string>
    var mostRecent: Option<string>
    var saved: UI

    function View(): UI
      reads this
    {
      UI(windows, openBoards, mostRecent)
    }

    /** Starts from the content of the config file. */
    constructor Load(config: UI)
      ensures View() == config && saved == config
    {
      windows := config.windows;
      openBoards := config.openBoards;
      mostRecent := config.mostRecent;
      saved := config;
    }

    method Save()
      modifies this`saved
      ensures saved == OnDisk(View())
    {
      saved := OnDisk(UI(windows, openBoards, mostRecent));
    }

    method AddBoard(path: string)
      modifies this
      ensures View() == AddOpenBoard(old(View()), path) && saved == OnDisk(View())
    {
      if path !in openBoards {
        openBoards := openBoards + [path];
      }
      Save();
    }

    method RemoveBoard(path: string)
      modifies this
      ensures View() == RemoveOpenBoard(old(View()), path) && saved == OnDisk(View())
      ensures forall p :: p in openBoards <==> p in old(openBoards) && p != path
      ensures saved.openBoards == openBoards
    {
      forall p ensures p in Without(openBoards, path) <==> p in openBoards && p != path {
        WithoutMembers(openBoards, path, p);
      }
      openBoards := Without(openBoards, path);
      var todo := windows.Keys;
      while todo != {}
        modifies this`windows
        invariant todo <= windows.Keys == old(windows).Keys
        invariant forall l :: l in windows ==>
                    windows[l] == if l !in todo && old(windows)[l].boardPath == path
                                  then old(windows)[l].(boardPath := "") else old(windows)[l]
        decreases todo
      {
        var l :| l in todo;
        todo := todo - {l};
        if windows[l].boardPath == path {
          windows := windows[l := windows[l].(boardPath := "")];
        }
      }
      assert windows == RemoveOpenBoard(old(View()), path).windows;
      Save();
    }

    method AssignBoard(win: string, path: string)
      modifies this
      ensures View() == SetWindowBoard(old(View()), win, path) && saved == OnDisk(View())
    {
      var ws := if win in windows then windows[win] else NEW_WINDOW;
      if ws.boardPath != path {
        ws := ws.(boardPath := path, activePerspectiveId := "", filteredTaskIds := None);
      }
      windows := windows[win := ws];
      Save();
    }

    method TouchMostRecent(path: string)
      modifies this
      ensures View() == SetMostRecent(old(View()), path) && saved == OnDisk(View())
    {
      mostRecent := Some(path);
      Save();
    }

    method DropWindow(win: string)
      modifies this
      ensures View() == RemoveWindow(old(View()), win) && saved == OnDisk(View())
    {
      windows := windows - {win};
      Save();
    }

    method StoreGeometry(win: string, g: Geometry)
      modifies this
      ensures View() == SaveGeometry(old(View()), win, g) && saved == OnDisk(View())
    {
      var ws := if win in windows then windows[win] else NEW_WINDOW;
      windows := windows[win := WithGeometry(ws, g)];
      Save();
    }

    /** In memory only: the config file is left alone. */
    method MoveGeometry(win: string, g: Geometry)
      modifies this`windows
      ensures View() == UpdateGeometry(old(View()), win, g)
    {
      if win in windows {
        windows := windows[win := WithGeometry(windows[win], g)];
      }
    }

    /** Whether anything changed. */
    method SwitchWindowPerspective(win: string, pid: string, ids: seq<string>) returns (changed: bool)
      modifies this
      ensures changed <==> !SwitchIsNoOp(old(View()), win, pid, ids)
      ensures View() == SwitchPerspective(old(View()), win, pid, ids)
    {
      var ws := if win in windows then windows[win] else NEW_WINDOW;
      changed := !(ws.activePerspectiveId == pid && ws.filteredTaskIds == Some(ids));
      windows := windows[win := ws];
      if changed {
        windows := windows[win := ws.(activePerspectiveId := pid, filteredTaskIds := Some(ids))];
        Save();
      }
    }
  }
}
