/** The quit and restart round trip over whole sessions: what the config file
    holds after the exit request, in terms of the config the session loaded and
    the events that came before, and what the next launch shows. */
module QuitTrace {
  import opened Json
  import opened UiState
  import opened Session

  /** A session begins with what the config file holds. */
  function Launch(config: UI): State { State(config, config, false) }

  predicate ExitBefore(trace: seq<Event>, j: int) {
    exists m :: 0 <= m < j && m < |trace| && trace[m].ExitRequested?
  }

  // ---- what the events say of one window -------------------------------------------------

  /** The board an event gives window `w`: a creation, a switch, or "" when the
      window is detached. */
  function Assignment(e: Event, w: string): Option<string> {
    match e
    case Created(v, board, _) => if v == w then board else None
    case Switched(v, path, openKey) => if v != w then None else if openKey.Some? then openKey else Some(path)
    case BoardDetached(v) => if v == w then Some("") else None
    case _ => None
  }

  /** Window `w` is given a board at `i`; index -1 is the loaded config. */
  predicate Assigned(config: UI, trace: seq<Event>, i: int, w: string) {
    (i == -1 && w in config.windows) || (0 <= i < |trace| && Assignment(trace[i], w).Some?)
  }

  function BoardGiven(config: UI, trace: seq<Event>, i: int, w: string): string
    requires Assigned(config, trace, i, w)
  {
    if i == -1 then config.windows[w].boardPath else Assignment(trace[i], w).value
  }

  /** Event `i` is a close of `w` that arrives before any exit request. */
  predicate Closes(trace: seq<Event>, i: int, w: string) {
    0 <= i < |trace| && trace[i] == CloseRequested(w) && w != QUICK_CAPTURE && !ExitBefore(trace, i)
  }

  predicate Drops(trace: seq<Event>, i: int, path: string) {
    0 <= i < |trace| && trace[i].BoardDropped? && trace[i].path == path
  }

  ghost predicate DroppedSince(trace: seq<Event>, i: int, path: string) {
    exists j :: i < j && Drops(trace, j, path)
  }

  /** Geometry `g` is reported for `w` at `i`: the loaded one, a creation's, or a
      move before any exit request. */
  predicate Places(config: UI, trace: seq<Event>, i: int, w: string, g: Geometry) {
    (i == -1 && w in config.windows && GeometryOf(config.windows[w]) == Some(g)) ||
    (0 <= i < |trace| &&
     ((trace[i].Created? && trace[i].win == w && trace[i].board.Some? && trace[i].geometry == Some(g)) ||
      (trace[i] == Moved(w, Some(g)) && w != QUICK_CAPTURE && !ExitBefore(trace, i))))
  }

  /** `w` was given a board at `i` and not closed since. */
  ghost predicate OpenSince(config: UI, trace: seq<Event>, i: int, w: string) {
    Assigned(config, trace, i, w) && forall j :: i < j < |trace| ==> !Closes(trace, j, w)
  }

  ghost predicate LastAssigned(config: UI, trace: seq<Event>, i: int, w: string) {
    OpenSince(config, trace, i, w) && forall j :: i < j < |trace| ==> !Assigned(config, trace, j, w)
  }

  /** The board the last assignment leaves: none once that board was dropped. */
  ghost function LastBoard(config: UI, trace: seq<Event>, i: int, w: string): string
    requires Assigned(config, trace, i, w)
  {
    if DroppedSince(trace, i, BoardGiven(config, trace, i, w)) then "" else BoardGiven(config, trace, i, w)
  }

  /** `g` is the last geometry reported for `w` while it was open. */
  ghost predicate LastPlaced(config: UI, trace: seq<Event>, j: int, w: string, g: Geometry) {
    && Places(config, trace, j, w, g)
    && (exists i :: i <= j && OpenSince(config, trace, i, w))
    && (forall m, h :: j < m < |trace| ==> !Places(config, trace, m, w, h))
  }

  ghost predicate Placed(config: UI, trace: seq<Event>, w: string, g: Geometry) {
    exists j :: LastPlaced(config, trace, j, w, g)
  }

  predicate HasGeometry(windows: map<string, WindowState>, w: string, g: Geometry) {
    w in windows && GeometryOf(windows[w]) == Some(g)
  }

  /** Memory holds of `w` exactly what the events say. */
  ghost predicate Truthful(config: UI, trace: seq<Event>, w: string, windows: map<string, WindowState>) {
    && (w in windows <==> exists i :: OpenSince(config, trace, i, w))
    && (forall i :: LastAssigned(config, trace, i, w) ==> w in windows && windows[w].boardPath == LastBoard(config, trace, i, w))
    && (forall g :: HasGeometry(windows, w, g) <==> Placed(config, trace, w, g))
  }

  // ---- one more event --------------------------------------------------------------------

  lemma ExitBeforeAppend(trace: seq<Event>, e: Event, j: int)
    requires j <= |trace|
    ensures ExitBefore(trace + [e], j) <==> ExitBefore(trace, j)
  {
    var t := trace + [e];
    assert forall m :: 0 <= m < |trace| ==> t[m] == trace[m];
    if ExitBefore(t, j) {
      var m :| 0 <= m < j && m < |t| && t[m].ExitRequested?;
      assert trace[m].ExitRequested?;
    }
    if ExitBefore(trace, j) {
      var m :| 0 <= m < j && m < |trace| && trace[m].ExitRequested?;
      assert t[m].ExitRequested?;
    }
  }

  lemma OlderEvents(config: UI, trace: seq<Event>, e: Event, i: int, w: string)
    requires i < |trace|
    ensures Assigned(config, trace + [e], i, w) <==> Assigned(config, trace, i, w)
    ensures Assigned(config, trace, i, w) ==> BoardGiven(config, trace + [e], i, w) == BoardGiven(config, trace, i, w)
    ensures Closes(trace + [e], i, w) <==> Closes(trace, i, w)
    ensures forall p :: Drops(trace + [e], i, p) <==> Drops(trace, i, p)
    ensures forall g :: Places(config, trace + [e], i, w, g) <==> Places(config, trace, i, w, g)
  {
    ExitBeforeAppend(trace, e, i);
    assert 0 <= i ==> (trace + [e])[i] == trace[i];
  }

  lemma OpenSinceAppend(config: UI, trace: seq<Event>, e: Event, i: int, w: string)
    ensures var t, n := trace + [e], |trace|;
            OpenSince(config, t, i, w) <==>
            if i < n then OpenSince(config, trace, i, w) && !Closes(t, n, w) else i == n && Assigned(config, t, n, w)
  {
    var t, n := trace + [e], |trace|;
    if i < n {
      OlderEvents(config, trace, e, i, w);
      forall j | j < n ensures Closes(t, j, w) <==> Closes(trace, j, w) { OlderEvents(config, trace, e, j, w); }
      if OpenSince(config, t, i, w) {
        forall j | i < j < |trace| ensures !Closes(trace, j, w) { assert !Closes(t, j, w); }
      }
    }
  }

  lemma LastAssignedAppend(config: UI, trace: seq<Event>, e: Event, i: int, w: string)
    ensures var t, n := trace + [e], |trace|;
            LastAssigned(config, t, i, w) <==>
            if i < n then LastAssigned(config, trace, i, w) && !Closes(t, n, w) && !Assigned(config, t, n, w)
            else i == n && Assigned(config, t, n, w)
  {
    var t, n := trace + [e], |trace|;
    OpenSinceAppend(config, trace, e, i, w);
    forall j | j < n ensures Assigned(config, t, j, w) <==> Assigned(config, trace, j, w) { OlderEvents(config, trace, e, j, w); }
    if i < n && LastAssigned(config, t, i, w) {
      forall j | i < j < |trace| ensures !Assigned(config, trace, j, w) { assert !Assigned(config, t, j, w); }
    }
  }

  lemma DroppedAppend(config: UI, trace: seq<Event>, e: Event, i: int, path: string)
    requires i <= |trace|
    ensures DroppedSince(trace + [e], i, path) <==>
            DroppedSince(trace, i, path) || (i < |trace| && e.BoardDropped? && e.path == path)
  {
    var t, n := trace + [e], |trace|;
    forall j | j < n ensures Drops(t, j, path) <==> Drops(trace, j, path) { OlderEvents(config, trace, e, j, ""); }
    assert t[n] == e;
    if DroppedSince(trace, i, path) {
      var j :| i < j && Drops(trace, j, path);
      assert Drops(t, j, path);
    }
    if i < n && e.BoardDropped? && e.path == path { assert Drops(t, n, path); }
  }

  lemma LastPlacedAppend(config: UI, trace: seq<Event>, e: Event, j: int, w: string, g: Geometry)
    ensures var t, n := trace + [e], |trace|;
            LastPlaced(config, t, j, w, g) <==>
            if j < n then LastPlaced(config, trace, j, w, g) && !Closes(t, n, w) && forall h :: !Places(config, t, n, w, h)
            else j == n && Places(config, t, n, w, g) && exists i :: OpenSince(config, t, i, w)
  {
    var t, n := trace + [e], |trace|;
    forall i ensures OpenSince(config, t, i, w) <==>
        if i < n then OpenSince(config, trace, i, w) && !Closes(t, n, w) else i == n && Assigned(config, t, n, w)
    {
      OpenSinceAppend(config, trace, e, i, w);
    }
    if j < n {
      OlderEvents(config, trace, e, j, w);
      forall m, h | m < n ensures Places(config, t, m, w, h) <==> Places(config, trace, m, w, h) {
        OlderEvents(config, trace, e, m, w);
      }
      if LastPlaced(config, t, j, w, g) {
        var i :| i <= j && OpenSince(config, t, i, w);
        assert OpenSince(config, trace, i, w);
        forall m, h | j < m < |trace| ensures !Places(config, trace, m, w, h) { assert !Places(config, t, m, w, h); }
      }
      if LastPlaced(config, trace, j, w, g) && !Closes(t, n, w) {
        var i :| i <= j && OpenSince(config, trace, i, w);
        assert OpenSince(config, t, i, w);
      }
    }
  }

  // ---- memory follows the trace -------------------------------------------------------------

  lemma {:induction false} FlagFollowsTrace(config: UI, trace: seq<Event>)
    ensures After(Launch(config), trace).shuttingDown <==> ExitBefore(trace, |trace|)
  {
    if trace != [] {
      var n := |trace| - 1;
      FlagFollowsTrace(config, trace[..n]);
      assert trace == trace[..n] + [trace[n]];
      ExitBeforeAppend(trace[..n], trace[n], n);
      if ExitBefore(trace, |trace|) && !ExitBefore(trace, n) {
        var m :| 0 <= m < |trace| && trace[m].ExitRequested?;
        assert m == n;
      }
      if trace[n].ExitRequested? { assert ExitBefore(trace, |trace|); }
      if ExitBefore(trace, n) {
        var m :| 0 <= m < n && trace[m].ExitRequested?;
        assert ExitBefore(trace, |trace|);
      }
    }
  }

  /** What one event does to the entry of one window. */
  lemma EntryStep(s: State, e: Event, w: string)
    ensures var windows := Handle(s, e).ui.windows;
            var closes := e == CloseRequested(w) && w != QUICK_CAPTURE && !s.shuttingDown;
            && (w in windows <==> (w in s.ui.windows && !closes) || Assignment(e, w).Some?)
            && (w in windows ==>
                  windows[w].boardPath ==
                  if Assignment(e, w).Some? then Assignment(e, w).value
                  else if e.BoardDropped? && s.ui.windows[w].boardPath == e.path then ""
                  else s.ui.windows[w].boardPath)
  {
  }

  /** The geometry one event reports for one window. */
  function Placement(s: State, e: Event, w: string): Option<Geometry> {
    match e
    case Created(v, board, geometry) => if v == w && board.Some? then geometry else None
    case Moved(v, geometry) => if v == w && w != QUICK_CAPTURE && !s.shuttingDown then geometry else None
    case _ => None
  }

  function GeometryIn(ui: UI, w: string): Option<Geometry> { GeometryOf(Entry(ui, w)) }

  lemma BoardKeepsGeometry(ui: UI, win: string, path: string, w: string)
    ensures GeometryIn(SetWindowBoard(ui, win, path), w) == GeometryIn(ui, w)
  {
  }

  lemma SavedGeometry(ui: UI, win: string, g: Geometry, w: string)
    ensures GeometryIn(SaveGeometry(ui, win, g), w) == if w == win then Some(g) else GeometryIn(ui, w)
  {
  }

  lemma GeometryStep(s: State, e: Event, w: string)
    requires w in Handle(s, e).ui.windows
    ensures GeometryIn(Handle(s, e).ui, w) == if Placement(s, e, w).Some? then Placement(s, e, w) else GeometryIn(s.ui, w)
  {
    match e {
      case Created(win, board, geometry) =>
        if board.Some? {
          BoardKeepsGeometry(s.ui, win, board.value, w);
          if geometry.Some? { SavedGeometry(SetWindowBoard(s.ui, win, board.value), win, geometry.value, w); }
        }
      case Moved(win, geometry) => if geometry.Some? { SavedGeometry(s.ui, win, geometry.value, w); }
      case Switched(win, path, openKey) =>
        var asked := SetMostRecent(SetWindowBoard(s.ui, win, path), path);
        BoardKeepsGeometry(s.ui, win, path, w);
        if openKey.Some? { BoardKeepsGeometry(AddOpenBoard(SetMostRecent(asked, openKey.value), openKey.value), win, openKey.value, w); }
      case BoardDetached(win) => BoardKeepsGeometry(s.ui, win, "", w);
      case _ =>
    }
  }

  /** The same, read off the trace. */
  lemma LastEvent(config: UI, trace: seq<Event>, e: Event, w: string, s: State)
    requires s.shuttingDown <==> ExitBefore(trace, |trace|)
    ensures var t, n := trace + [e], |trace|;
            && (Closes(t, n, w) <==> e == CloseRequested(w) && w != QUICK_CAPTURE && !s.shuttingDown)
            && (Assigned(config, t, n, w) <==> Assignment(e, w).Some?)
            && (forall g :: Places(config, t, n, w, g) <==> Placement(s, e, w) == Some(g))
  {
    ExitBeforeAppend(trace, e, |trace|);
    assert (trace + [e])[|trace|] == e;
  }

  lemma EntryFollows(config: UI, trace: seq<Event>, e: Event, w: string, s: State)
    requires Truthful(config, trace, w, s.ui.windows) && (s.shuttingDown <==> ExitBefore(trace, |trace|))
    ensures w in Handle(s, e).ui.windows <==> exists i :: OpenSince(config, trace + [e], i, w)
  {
    var t, n := trace + [e], |trace|;
    EntryStep(s, e, w);
    LastEvent(config, trace, e, w, s);
    forall i ensures OpenSince(config, t, i, w) <==>
        if i < n then OpenSince(config, trace, i, w) && !Closes(t, n, w) else i == n && Assigned(config, t, n, w)
    {
      OpenSinceAppend(config, trace, e, i, w);
    }
    if i :| OpenSince(config, trace, i, w) {
      if !Closes(t, n, w) { assert i < n && OpenSince(config, t, i, w); }
    }
    if Assigned(config, t, n, w) { assert OpenSince(config, t, n, w); }
  }

  lemma BoardFollows(config: UI, trace: seq<Event>, e: Event, w: string, s: State, i: int)
    requires Truthful(config, trace, w, s.ui.windows) && (s.shuttingDown <==> ExitBefore(trace, |trace|))
    requires LastAssigned(config, trace + [e], i, w)
    ensures w in Handle(s, e).ui.windows
    ensures Handle(s, e).ui.windows[w].boardPath == LastBoard(config, trace + [e], i, w)
  {
    var t, n := trace + [e], |trace|;
    EntryStep(s, e, w);
    LastEvent(config, trace, e, w, s);
    LastAssignedAppend(config, trace, e, i, w);
    DroppedAppend(config, trace, e, i, BoardGiven(config, t, i, w));
    assert t[n] == e;
    if i < n {
      OlderEvents(config, trace, e, i, w);
      assert s.ui.windows[w].boardPath == LastBoard(config, trace, i, w);
    }
  }

  lemma PlaceFollows(config: UI, trace: seq<Event>, e: Event, w: string, s: State, g: Geometry)
    requires Truthful(config, trace, w, s.ui.windows) && (s.shuttingDown <==> ExitBefore(trace, |trace|))
    ensures HasGeometry(Handle(s, e).ui.windows, w, g) <==> Placed(config, trace + [e], w, g)
  {
    var t, n, windows := trace + [e], |trace|, Handle(s, e).ui.windows;
    EntryFollows(config, trace, e, w, s);
    EntryStep(s, e, w);
    LastEvent(config, trace, e, w, s);
    if w in windows { GeometryStep(s, e, w); }
    forall j ensures LastPlaced(config, t, j, w, g) <==>
        if j < n then LastPlaced(config, trace, j, w, g) && !Closes(t, n, w) && forall h :: !Places(config, t, n, w, h)
        else j == n && Places(config, t, n, w, g) && w in windows
    {
      LastPlacedAppend(config, trace, e, j, w, g);
    }
    if HasGeometry(windows, w, g) {
      if Placement(s, e, w).Some? {
        assert LastPlaced(config, t, n, w, g);
      } else {
        assert HasGeometry(s.ui.windows, w, g) && Placed(config, trace, w, g);
        var j :| LastPlaced(config, trace, j, w, g);
        assert LastPlaced(config, t, j, w, g);
      }
    }
    if j :| LastPlaced(config, t, j, w, g) {
      if j < n {
        assert LastPlaced(config, trace, j, w, g);
        assert HasGeometry(s.ui.windows, w, g);
      }
    }
  }

  lemma TruthfulStep(config: UI, trace: seq<Event>, e: Event, w: string, s: State)
    requires Truthful(config, trace, w, s.ui.windows) && (s.shuttingDown <==> ExitBefore(trace, |trace|))
    ensures Truthful(config, trace + [e], w, Handle(s, e).ui.windows)
  {
    EntryFollows(config, trace, e, w, s);
    forall i | LastAssigned(config, trace + [e], i, w)
      ensures w in Handle(s, e).ui.windows && Handle(s, e).ui.windows[w].boardPath == LastBoard(config, trace + [e], i, w)
    {
      BoardFollows(config, trace, e, w, s, i);
    }
    forall g ensures HasGeometry(Handle(s, e).ui.windows, w, g) <==> Placed(config, trace + [e], w, g) {
      PlaceFollows(config, trace, e, w, s, g);
    }
  }

  lemma LoadedIsTruthful(config: UI, w: string)
    ensures Truthful(config, [], w, config.windows)
  {
    if w in config.windows {
      assert OpenSince(config, [], -1, w);
      if GeometryOf(config.windows[w]).Some? { assert LastPlaced(config, [], -1, w, GeometryOf(config.windows[w]).value); }
    }
  }

  lemma {:induction false} MemoryFollowsTrace(config: UI, trace: seq<Event>, w: string)
    ensures Truthful(config, trace, w, After(Launch(config), trace).ui.windows)
  {
    if trace != [] {
      var n := |trace| - 1;
      MemoryFollowsTrace(config, trace[..n], w);
      FlagFollowsTrace(config, trace[..n]);
      assert trace == trace[..n] + [trace[n]];
      TruthfulStep(config, trace[..n], trace[n], w, After(Launch(config), trace[..n]));
    } else {
      LoadedIsTruthful(config, w);
    }
  }

  /** From the exit request on, the config file keeps up with memory. */
  lemma {:induction false} SavedAfterExit(config: UI, trace: seq<Event>)
    ensures After(Launch(config), trace).shuttingDown ==>
              After(Launch(config), trace).saved.windows == OnDisk(After(Launch(config), trace).ui).windows
  {
    if trace != [] { SavedAfterExit(config, trace[..|trace| - 1]); }
  }

  /** Quit: in every session, from any loaded config, once the exit was requested
      the config file holds exactly the windows loaded or given a board and not
      closed before it, each on its last board and with the geometry last
      reported. */
  lemma SavedAtExit(config: UI, trace: seq<Event>, w: string)
    requires ExitBefore(trace, |trace|)
    ensures Truthful(config, trace, w, After(Launch(config), trace).saved.windows)
  {
    MemoryFollowsTrace(config, trace, w);
    FlagFollowsTrace(config, trace);
    SavedAfterExit(config, trace);
    PersistedIsTruthful(config, trace, w, After(Launch(config), trace).ui);
  }

  lemma PersistedIsTruthful(config: UI, trace: seq<Event>, w: string, ui: UI)
    requires Truthful(config, trace, w, ui.windows)
    ensures Truthful(config, trace, w, OnDisk(ui).windows)
  {
    var disk := OnDisk(ui).windows;
    if w in ui.windows {
      assert disk[w].boardPath == ui.windows[w].boardPath && GeometryOf(disk[w]) == GeometryOf(ui.windows[w]);
    }
    forall g ensures HasGeometry(disk, w, g) <==> HasGeometry(ui.windows, w, g) {
    }
  }

  /** Closes that arrive after the exit request remove nothing. */
  lemma LateCloseRemovesNothing(config: UI, trace: seq<Event>, w: string)
    requires ExitBefore(trace, |trace|)
    ensures After(Launch(config), trace + [CloseRequested(w)]) == After(Launch(config), trace)
  {
    FlagFollowsTrace(config, trace);
    AfterAppend(Launch(config), trace, CloseRequested(w));
    CloseWhileQuitting(After(Launch(config), trace), w);
  }

  lemma CloseWhileQuitting(s: State, w: string)
    ensures s.shuttingDown ==> Handle(s, CloseRequested(w)) == s
  {
  }

  // ---- quit, then restart ---------------------------------------------------------------------

  lemma {:induction false} LatestAssigned(config: UI, trace: seq<Event>, i: int, w: string) returns (last: int)
    requires OpenSince(config, trace, i, w)
    ensures LastAssigned(config, trace, last, w)
    decreases |trace| - i
  {
    if j :| i < j < |trace| && Assigned(config, trace, j, w) {
      last := LatestAssigned(config, trace, j, w);
    } else {
      last := i;
    }
  }

  /** The windows once startup has dropped the boards that are gone. */
  function Present(windows: map<string, WindowState>, gone: set<string>): map<string, WindowState> {
    map w | w in windows :: if windows[w].boardPath in gone then windows[w].(boardPath := "") else windows[w]
  }

  /** `w` is still open at the end, on a board that is still there, and can be
      built again. */
  ghost predicate Returns(config: UI, trace: seq<Event>, buildable: set<string>, gone: set<string>, w: string) {
    w != QUICK_CAPTURE && w in buildable &&
    exists i :: LastAssigned(config, trace, i, w) && LastBoard(config, trace, i, w) !in gone + {""}
  }

  lemma ReturnsIsRestorable(config: UI, trace: seq<Event>, buildable: set<string>, gone: set<string>, w: string)
    requires ExitBefore(trace, |trace|)
    ensures w in RestorableIn(Present(After(Launch(config), trace).saved.windows, gone), buildable) <==>
            Returns(config, trace, buildable, gone, w)
  {
    var saved := After(Launch(config), trace).saved.windows;
    SavedAtExit(config, trace, w);
    if w in saved {
      var i :| OpenSince(config, trace, i, w);
      var last := LatestAssigned(config, trace, i, w);
      assert saved[w].boardPath == LastBoard(config, trace, last, w);
    }
  }

  /** Quit and restart, from any loaded config: the next launch shows exactly the
      windows that return, each on its last board and at its last geometry, or
      where the system puts it if none was ever reported; and one fallback window
      exactly when none returns. */
  lemma QuitRestartRoundTrip(config: UI, trace: seq<Event>, buildable: set<string>, gone: set<string>,
                             placed: map<string, Geometry>, fallback: string, fallbackBoard: Option<string>, w: string)
    requires ExitBefore(trace, |trace|)
    ensures var live := Relit(Present(After(Launch(config), trace).saved.windows, gone), buildable, placed, fallback, fallbackBoard);
            && (w in live <==> Returns(config, trace, buildable, gone, w) ||
                               (w == fallback && w in buildable && forall v :: !Returns(config, trace, buildable, gone, v)))
            && (Returns(config, trace, buildable, gone, w) ==>
                  && (forall i :: LastAssigned(config, trace, i, w) ==> live[w].board == Some(LastBoard(config, trace, i, w)))
                  && (forall j, g :: LastPlaced(config, trace, j, w, g) ==> live[w].geometry == Some(g))
                  && ((forall g :: !Placed(config, trace, w, g)) ==>
                        live[w].geometry == if w in placed then Some(placed[w]) else None))
            && (w in live && !Returns(config, trace, buildable, gone, w) ==>
                  live[w] == LiveWindow(fallbackBoard, if w in placed then Some(placed[w]) else None))
  {
    var saved := After(Launch(config), trace).saved.windows;
    var windows := Present(saved, gone);
    forall v ensures v in RestorableIn(windows, buildable) <==> Returns(config, trace, buildable, gone, v) {
      ReturnsIsRestorable(config, trace, buildable, gone, v);
    }
    SavedAtExit(config, trace, w);
    if Returns(config, trace, buildable, gone, w) {
      assert Relit(windows, buildable, placed, fallback, fallbackBoard)[w] == LiveOf(windows, placed, w);
      assert windows[w] == saved[w];
      if GeometryOf(saved[w]).Some? {
        assert HasGeometry(saved, w, GeometryOf(saved[w]).value);
      }
      forall j, g | LastPlaced(config, trace, j, w, g) ensures GeometryOf(saved[w]) == Some(g) {
        assert Placed(config, trace, w, g) && HasGeometry(saved, w, g);
      }
    }
  }

  // ---- two sessions in a row --------------------------------------------------------------------

  /** None of the events concerns `w` or drops its board. */
  ghost predicate LeavesAlone(events: seq<Event>, w: string, board: string) {
    forall i :: 0 <= i < |events| ==>
      && Assignment(events[i], w).None? && events[i] != CloseRequested(w)
      && !(events[i].Moved? && events[i].win == w)
      && !(events[i].BoardDropped? && events[i].path == board)
  }

  lemma RestoredThenLeft(saved: UI, buildable: set<string>, placed: map<string, Geometry>, restore: seq<Event>,
                         user: seq<Event>, w: string, m: nat)
    requires w in RestorableIn(saved.windows, buildable)
    requires Restoring(saved.windows, placed, RestorableIn(saved.windows, buildable), restore)
    requires m < |restore| && restore[m].win == w && LeavesAlone(user, w, saved.windows[w].boardPath)
    ensures var t := restore + user;
            && LastAssigned(saved, t, m, w) && LastBoard(saved, t, m, w) == saved.windows[w].boardPath
            && (forall g :: PlaceOf(saved.windows, placed, w) == Some(g) ==> LastPlaced(saved, t, m, w, g))
  {
    var t, n := restore + user, |restore|;
    assert t[m] == restore[m] == RestoreEvent(saved.windows, placed, w);
    forall j | m < j < |t|
      ensures !Closes(t, j, w) && !Assigned(saved, t, j, w) && !Drops(t, j, saved.windows[w].boardPath)
      ensures forall g :: !Places(saved, t, j, w, g)
    {
      if j < n { assert t[j] == restore[j] && restore[j].win != w; } else { assert t[j] == user[j - n]; }
    }
    assert OpenSince(saved, t, m, w);
  }

  /** Two sessions: a window the second launch restores, and that nothing in the
      second session concerns, is shown by the third launch on the same board
      and, if it had one, at the same geometry, while its board is there. `saved`
      is what the second launch loaded, with the boards that were gone dropped. */
  lemma SurvivesSession(saved: UI, buildable: set<string>, placed: map<string, Geometry>, fallback: string,
                        fallbackBoard: Option<string>, restore: seq<Event>, user: seq<Event>, w: string,
                        buildable': set<string>, gone': set<string>, placed': map<string, Geometry>)
    requires RestoreTrace(saved.windows, buildable, placed, fallback, fallbackBoard, restore)
    requires w in RestorableIn(saved.windows, buildable) && w in buildable' && saved.windows[w].boardPath !in gone'
    requires ExitBefore(restore + user, |restore + user|) && LeavesAlone(user, w, saved.windows[w].boardPath)
    ensures var second := Relit(saved.windows, buildable, placed, fallback, fallbackBoard);
            var third := Relit(Present(After(Launch(saved), restore + user).saved.windows, gone'), buildable', placed',
                               fallback, fallbackBoard);
            && w in second && w in third && third[w].board == second[w].board
            && (second[w].geometry.Some? ==> third[w].geometry == second[w].geometry)
  {
    var m :| 0 <= m < |restore| && restore[m].Created? && restore[m].win == w;
    RestoredThenLeft(saved, buildable, placed, restore, user, w, m);
    assert Returns(saved, restore + user, buildable', gone', w);
    QuitRestartRoundTrip(saved, restore + user, buildable', gone', placed', fallback, fallbackBoard, w);
  }
}
