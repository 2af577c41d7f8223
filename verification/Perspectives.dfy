/** Keeping filtered windows current: the grouped recompute of perspective
    filters, and when the bridge runs it. */
module Perspectives {
  import opened Json
  import opened EntityCache
  import opened Watcher
  import opened Convergence
  import opened Delivery
  import opened UiState

  /** The perspectives of a board by id, each with its optional filter text. */
  type Perspectives = map<string, Option<string>>

  /** Evaluates a filter to the matching task ids; `None` is an error. */
  type Evaluator = string -> Option<seq<string>>

  function FilterOf(filter: Option<string>): string {
    match filter
    case Some(f) => f
    case None => ""
  }

  /** The ids a window should hold, when it is filtered by a perspective that
      exists and evaluates. */
  function Target(ws: WindowState, ps: Perspectives, eval: Evaluator): Option<seq<string>> {
    if ws.filteredTaskIds.Some? && ws.activePerspectiveId in ps
    then eval(FilterOf(ps[ws.activePerspectiveId])) else None
  }

  /** The naive per-window step: evaluate this window's own filter. */
  function Refresh(ws: WindowState, ps: Perspectives, eval: Evaluator): WindowState {
    match Target(ws, ps, eval)
    case Some(ids) => ws.(filteredTaskIds := Some(ids))
    case None => ws
  }

  function RefreshAll(windows: map<string, WindowState>, ps: Perspectives, eval: Evaluator): map<string, WindowState> {
    map l | l in windows :: Refresh(windows[l], ps, eval)
  }

  // ---- the grouped recompute ---------------------------------------------------------

  ghost predicate Distinct(s: seq<string>) {
    forall i, j :: 0 <= i < j < |s| ==> s[i] != s[j]
  }

  ghost predicate Filtered(windows: map<string, WindowState>, l: string, pid: string) {
    l in windows && windows[l].filteredTaskIds.Some? && windows[l].activePerspectiveId == pid
  }

  ghost predicate GroupsOf(groups: map<string, seq<string>>, windows: map<string, WindowState>, visited: set<string>) {
    && (forall pid :: pid in groups ==> Distinct(groups[pid]))
    && (forall pid, l :: pid in groups && l in groups[pid] ==> l in visited && Filtered(windows, l, pid))
    && (forall l :: l in visited && l in windows && windows[l].filteredTaskIds.Some? ==>
          windows[l].activePerspectiveId in groups && l in groups[windows[l].activePerspectiveId])
  }

  method GroupWindows(windows: map<string, WindowState>) returns (groups: map<string, seq<string>>)
    ensures GroupsOf(groups, windows, windows.Keys)
  {
    groups := map[];
    var todo := windows.Keys;
    while todo != {}
      invariant todo <= windows.Keys
      invariant GroupsOf(groups, windows, windows.Keys - todo)
      decreases todo
    {
      var l :| l in todo;
      ghost var before := windows.Keys - todo;
      todo := todo - {l};
      assert windows.Keys - todo == before + {l};
      if windows[l].filteredTaskIds.None? {
        continue;
      }
      var pid := windows[l].activePerspectiveId;
      ghost var old_ := groups;
      groups := groups[pid := (if pid in groups then groups[pid] else []) + [l]];
      assert pid in old_ ==> l !in old_[pid];
    }
    assert windows.Keys - todo == windows.Keys;
  }

  method LoadPerspectiveFilters(context: Option<Perspectives>, groups: map<string, seq<string>>)
    returns (filters: Option<map<string, string>>)
    ensures context.None? ==> filters.None?
    ensures context.Some? ==> filters.Some?
    ensures context.Some? ==> forall pid :: pid in filters.value <==> pid in groups && pid in context.value
    ensures context.Some? ==> forall pid :: pid in filters.value ==>
              context.value[pid] == Some(filters.value[pid]) || (context.value[pid] == None && filters.value[pid] == "")
  {
    if context.None? {
      return None;
    }
    var out: map<string, string> := map[];
    var todo := groups.Keys;
    while todo != {}
      invariant todo <= groups.Keys
      invariant forall pid :: pid in out <==> pid in groups && pid !in todo && pid in context.value
      invariant forall pid :: pid in out ==> out[pid] == FilterOf(context.value[pid])
      decreases todo
    {
      var pid :| pid in todo;
      todo := todo - {pid};
      if pid in context.value {
        out := out[pid := FilterOf(context.value[pid])];
      }
    }
    filters := Some(out);
  }

  /** `changed` lists, once each, the windows that differ. */
  ghost predicate ChangedAre(changed: seq<string>, was: map<string, WindowState>, now: map<string, WindowState>) {
    Distinct(changed) && forall l :: l in changed <==> l in was && l in now && now[l] != was[l]
  }

  /** The labelled windows hold `ids`, the others are as they were. */
  ghost predicate GroupSwitched(was: map<string, WindowState>, now: map<string, WindowState>, labels: seq<string>,
                                ids: seq<string>) {
    now.Keys == was.Keys &&
    forall l :: l in was ==> now[l] == if l in labels then was[l].(filteredTaskIds := Some(ids)) else was[l]
  }

  lemma SwitchOne(start: map<string, WindowState>, was: map<string, WindowState>, now: map<string, WindowState>,
                  labels: seq<string>, win: string, pid: string, ids: seq<string>, changed: seq<string>)
    requires GroupSwitched(start, was, labels, ids) && ChangedAre(changed, start, was)
    requires Filtered(start, win, pid) && win !in labels
    requires now == was[win := start[win].(activePerspectiveId := pid, filteredTaskIds := Some(ids))]
    ensures GroupSwitched(start, now, labels + [win], ids)
    ensures ChangedAre(if start[win].filteredTaskIds != Some(ids) then changed + [win] else changed, start, now)
  {
    assert win !in changed;
  }

  /** Writes one evaluated id list to every window of a group. */
  method SwitchGroup(ui: UIState, pid: string, labels: seq<string>, ids: seq<string>) returns (changed: seq<string>)
    requires Distinct(labels) && forall l :: l in labels ==> Filtered(ui.windows, l, pid)
    modifies ui
    ensures GroupSwitched(old(ui.windows), ui.windows, labels, ids)
    ensures ChangedAre(changed, old(ui.windows), ui.windows)
    ensures ui.openBoards == old(ui.openBoards) && ui.mostRecent == old(ui.mostRecent)
  {
    changed := [];
    for i := 0 to |labels|
      invariant GroupSwitched(old(ui.windows), ui.windows, labels[..i], ids)
      invariant ChangedAre(changed, old(ui.windows), ui.windows)
      invariant ui.openBoards == old(ui.openBoards) && ui.mostRecent == old(ui.mostRecent)
    {
      var win := labels[i];
      assert win in labels && win !in labels[..i];
      assert labels[..i + 1] == labels[..i] + [win];
      ghost var before, changed0 := ui.View(), changed;
      var moved := ui.SwitchWindowPerspective(win, pid, ids);
      if moved {
        changed := changed + [win];
      }
      assert ui.View() == SwitchPerspective(before, win, pid, ids);
      SwitchOne(old(ui.windows), before.windows, ui.windows, labels[..i], win, pid, ids, changed0);
    }
    assert labels[..|labels|] == labels;
  }

  /** The windows when the groups in `todo` still wait. */
  ghost predicate PartRefreshed(start: map<string, WindowState>, now: map<string, WindowState>, todo: set<string>,
                                ps: Perspectives, eval: Evaluator) {
    now.Keys == start.Keys &&
    forall l :: l in start ==>
      now[l] == if start[l].filteredTaskIds.Some? && start[l].activePerspectiveId !in todo
                then Refresh(start[l], ps, eval) else start[l]
  }

  lemma GroupSkipped(start: map<string, WindowState>, now: map<string, WindowState>, todo: set<string>, pid: string,
                     ps: Perspectives, eval: Evaluator)
    requires PartRefreshed(start, now, todo, ps, eval)
    requires pid !in ps || eval(FilterOf(ps[pid])).None?
    ensures PartRefreshed(start, now, todo - {pid}, ps, eval)
  {
  }

  lemma GroupDone(groups: map<string, seq<string>>, start: map<string, WindowState>, was: map<string, WindowState>,
                  now: map<string, WindowState>, todo: set<string>, pid: string, ids: seq<string>,
                  ps: Perspectives, eval: Evaluator)
    requires GroupsOf(groups, start, start.Keys) && PartRefreshed(start, was, todo, ps, eval)
    requires pid in todo && pid in groups && pid in ps && eval(FilterOf(ps[pid])) == Some(ids)
    requires GroupSwitched(was, now, groups[pid], ids)
    ensures PartRefreshed(start, now, todo - {pid}, ps, eval)
  {
    forall l | l in start
      ensures l in groups[pid] <==> start[l].filteredTaskIds.Some? && start[l].activePerspectiveId == pid
    {
    }
  }

  /** Windows of one group were as at the start before, so none changed twice. */
  lemma ChangesJoin(groups: map<string, seq<string>>, start: map<string, WindowState>, was: map<string, WindowState>,
                    now: map<string, WindowState>, todo: set<string>, pid: string, ids: seq<string>,
                    ps: Perspectives, eval: Evaluator, changed: seq<string>, moved: seq<string>)
    requires GroupsOf(groups, start, start.Keys) && PartRefreshed(start, was, todo, ps, eval)
    requires pid in todo && pid in groups && GroupSwitched(was, now, groups[pid], ids)
    requires ChangedAre(changed, start, was) && ChangedAre(moved, was, now)
    ensures ChangedAre(changed + moved, start, now)
  {
    forall l | l in groups[pid] ensures Filtered(start, l, pid) && was[l] == start[l] {
    }
    JoinDistinct(changed, moved);
  }

  /** Every filtered window holds what evaluating its perspective's own text
      gives, an absent text read as the empty one. */
  ghost predicate HoldsOwnFilter(windows: map<string, WindowState>, ps: Perspectives, eval: Evaluator) {
    forall l :: l in windows && windows[l].filteredTaskIds.Some? && windows[l].activePerspectiveId in ps ==>
      match ps[windows[l].activePerspectiveId]
      case Some(text) => eval(text).Some? ==> windows[l].filteredTaskIds == eval(text)
      case None => eval("").Some? ==> windows[l].filteredTaskIds == eval("")
  }

  /** Nothing but the ids moved, and those only of a filtered window whose
      perspective exists and whose text evaluates. */
  ghost predicate OnlyIdsMoved(was: map<string, WindowState>, now: map<string, WindowState>, ps: Perspectives, eval: Evaluator) {
    now.Keys == was.Keys &&
    forall l :: l in was ==>
      && now[l] == was[l].(filteredTaskIds := now[l].filteredTaskIds)
      && (now[l] != was[l] ==>
            && was[l].filteredTaskIds.Some? && was[l].activePerspectiveId in ps
            && match ps[was[l].activePerspectiveId]
               case Some(text) => eval(text).Some?
               case None => eval("").Some?)
  }

  lemma RefreshedHold(windows: map<string, WindowState>, ps: Perspectives, eval: Evaluator)
    ensures HoldsOwnFilter(RefreshAll(windows, ps, eval), ps, eval)
    ensures OnlyIdsMoved(windows, RefreshAll(windows, ps, eval), ps, eval)
  {
  }

  /** `recompute_perspective_filters`: each distinct perspective is evaluated
      once, yet every window ends as the per-window loop would leave it. */
  method RecomputePerspectiveFilters(context: Option<Perspectives>, eval: Evaluator, ui: UIState)
    returns (changed: seq<string>)
    modifies ui
    ensures ui.windows == if context.Some? then RefreshAll(old(ui.windows), context.value, eval) else old(ui.windows)
    ensures context.Some? ==> HoldsOwnFilter(ui.windows, context.value, eval)
    ensures context.Some? ==> OnlyIdsMoved(old(ui.windows), ui.windows, context.value, eval)
    ensures ChangedAre(changed, old(ui.windows), ui.windows)
    ensures ui.openBoards == old(ui.openBoards) && ui.mostRecent == old(ui.mostRecent)
  {
    if context.Some? { RefreshedHold(ui.windows, context.value, eval); }
    var groups := GroupWindows(ui.windows);
    changed := [];
    if groups == map[] {
      if context.Some? { NoGroups(ui.windows, context.value, eval); }
      return;
    }
    var filters := LoadPerspectiveFilters(context, groups);
    if filters.None? {
      return;
    }
    ghost var start, ps := ui.windows, context.value;
    var todo := groups.Keys;
    PartStart(groups, start, ps, eval);
    while todo != {}
      invariant todo <= groups.Keys && PartRefreshed(start, ui.windows, todo, ps, eval)
      invariant ChangedAre(changed, start, ui.windows)
      invariant ui.openBoards == old(ui.openBoards) && ui.mostRecent == old(ui.mostRecent)
      decreases todo
    {
      var pid :| pid in todo;
      ghost var todo0, was, changed0 := todo, ui.windows, changed;
      todo := todo - {pid};
      if pid !in filters.value {
        GroupSkipped(start, was, todo0, pid, ps, eval);
        continue;
      }
      var newIds := eval(filters.value[pid]);
      if newIds.None? {
        GroupSkipped(start, was, todo0, pid, ps, eval);
        continue;
      }
      GroupUntouched(groups, start, was, todo0, pid, ps, eval);
      var moved := SwitchGroup(ui, pid, groups[pid], newIds.value);
      changed := changed + moved;
      GroupDone(groups, start, was, ui.windows, todo0, pid, newIds.value, ps, eval);
      ChangesJoin(groups, start, was, ui.windows, todo0, pid, newIds.value, ps, eval, changed0, moved);
    }
    PartEnd(start, ui.windows, ps, eval);
  }

  lemma NoGroups(windows: map<string, WindowState>, ps: Perspectives, eval: Evaluator)
    requires GroupsOf(map[], windows, windows.Keys)
    ensures RefreshAll(windows, ps, eval) == windows
  {
  }

  lemma PartStart(groups: map<string, seq<string>>, start: map<string, WindowState>, ps: Perspectives, eval: Evaluator)
    requires GroupsOf(groups, start, start.Keys)
    ensures PartRefreshed(start, start, groups.Keys, ps, eval)
  {
  }

  lemma PartEnd(start: map<string, WindowState>, now: map<string, WindowState>, ps: Perspectives, eval: Evaluator)
    requires PartRefreshed(start, now, {}, ps, eval)
    ensures now == RefreshAll(start, ps, eval)
  {
  }

  lemma GroupUntouched(groups: map<string, seq<string>>, start: map<string, WindowState>, was: map<string, WindowState>,
                       todo: set<string>, pid: string, ps: Perspectives, eval: Evaluator)
    requires GroupsOf(groups, start, start.Keys) && PartRefreshed(start, was, todo, ps, eval)
    requires pid in todo && pid in groups
    ensures Distinct(groups[pid]) && forall l :: l in groups[pid] ==> Filtered(was, l, pid)
  {
    forall l | l in groups[pid] ensures Filtered(was, l, pid) {
      assert Filtered(start, l, pid);
      assert was[l] == start[l];
    }
  }

  lemma JoinDistinct(a: seq<string>, b: seq<string>)
    requires Distinct(a) && Distinct(b) && forall l :: l in a ==> l !in b
    ensures Distinct(a + b)
  {
    forall i, j | 0 <= i < j < |a + b| ensures (a + b)[i] != (a + b)[j] {
      if i < |a| <= j {
        assert a[i] in a && b[j - |a|] in b;
      }
    }
  }

  // ---- staying current ------------------------------------------------------------------

  /** Every filtered window whose perspective evaluates holds its ids. */
  ghost predicate Current(windows: map<string, WindowState>, ps: Perspectives, eval: Evaluator) {
    forall l :: l in windows && Target(windows[l], ps, eval).Some? ==>
                  windows[l].filteredTaskIds == Target(windows[l], ps, eval)
  }

  /** One recompute makes every window current, and a second moves none. */
  lemma RecomputeSettles(windows: map<string, WindowState>, ps: Perspectives, eval: Evaluator)
    ensures Current(RefreshAll(windows, ps, eval), ps, eval)
    ensures RefreshAll(RefreshAll(windows, ps, eval), ps, eval) == RefreshAll(windows, ps, eval)
    ensures Current(windows, ps, eval) <==> RefreshAll(windows, ps, eval) == windows
  {
    var w := RefreshAll(windows, ps, eval);
    if w == windows {
      forall l | l in windows && Target(windows[l], ps, eval).Some?
        ensures windows[l].filteredTaskIds == Target(windows[l], ps, eval)
      {
        assert w[l] == windows[l];
      }
    }
  }

  predicate TouchesTask(evt: WatchEvent) {
    !evt.AttachmentChanged? && evt.kind == "task"
  }

  /** `cache_event_touches_task` */
  predicate BatchTouchesTask(out: seq<WatchEvent>) {
    exists i :: 0 <= i < |out| && TouchesTask(out[i])
  }

  predicate TaskEvent(e: EntityEvent) {
    !e.AttachmentTouched? && e.kind == "task"
  }

  /** The recompute runs exactly for the cache events of tasks: a fan-out never
      follows another type's event, and task attachments do not count. */
  lemma RecomputeGate(sc: Schema, c: Cache, b: Bridge, e: EntityEvent)
    requires WellFormed(sc)
    ensures BatchTouchesTask(Resolve(sc, c, true, b, e).out) <==> TaskEvent(e)
  {
    var out := Resolve(sc, c, true, b, e).out;
    ResolveShape(sc, c, b, e);
    assert TouchesTask(out[0]) <==> TaskEvent(e);
    if !TaskEvent(e) {
      assert |out| == 1 + |out[1..]|;
    }
  }

  predicate TaskWaiting(q: seq<EntityEvent>) {
    exists i :: 0 <= i < |q| && TaskEvent(q[i])
  }

  /** The pipeline together with the windows. */
  datatype Desk = Desk(sys: System, windows: map<string, WindowState>)

  datatype DeskAction =
    | OnBoard(a: Action)
    | Choose(win: string, pid: string)
    | Reassign(win: string, path: string)

  function DeskStep(sc: Schema, ps: Perspectives, eval: Cache -> Evaluator, d: Desk, a: DeskAction): Desk
    requires a.OnBoard? && a.a.Deliver? ==> d.sys.queue != []
  {
    match a
    case OnBoard(act) =>
      Desk(Step(sc, d.sys, act),
        if act.Deliver? && BatchTouchesTask(Resolve(Now(sc, d.sys), d.sys.cache, true, d.sys.bridge, d.sys.queue[0]).out)
        then RefreshAll(d.windows, ps, eval(d.sys.cache)) else d.windows)
    case Choose(win, pid) =>
      if pid in ps && eval(d.sys.cache)(FilterOf(ps[pid])).Some?
      then d.(windows := SwitchPerspective(UI(d.windows, [], None), win, pid, eval(d.sys.cache)(FilterOf(ps[pid])).value).windows)
      else d
    case Reassign(win, path) => d.(windows := SetWindowBoard(UI(d.windows, [], None), win, path).windows)
  }

  /** What one step does to the windows: a choice takes the perspective and what
      its text matches, if it evaluates; a reassignment drops the filter of a window
      that showed another board; and a step of the board moves nothing, except that
      resolving a task's event makes every window current. */
  lemma DeskStepMeans(sc: Schema, ps: Perspectives, eval: Cache -> Evaluator, d: Desk, a: DeskAction)
    requires WellFormed(sc) && (a.OnBoard? && a.a.Deliver? ==> d.sys.queue != [])
    ensures var windows := DeskStep(sc, ps, eval, d, a).windows;
            match a
            case OnBoard(act) =>
              if act.Deliver? && !d.sys.queue[0].AttachmentTouched? && d.sys.queue[0].kind == "task"
              then HoldsOwnFilter(windows, ps, eval(d.sys.cache)) && OnlyIdsMoved(d.windows, windows, ps, eval(d.sys.cache))
              else windows == d.windows
            case Choose(win, pid) =>
              if pid !in ps then windows == d.windows
              else
                var ids := eval(d.sys.cache)(match ps[pid] case Some(text) => text case None => "");
                if ids.None? then windows == d.windows
                else
                  && win in windows && windows[win].activePerspectiveId == pid && windows[win].filteredTaskIds == ids
                  && forall w :: w != win ==> (w in windows <==> w in d.windows) && (w in windows ==> windows[w] == d.windows[w])
            case Reassign(win, path) =>
              && win in windows && windows[win].boardPath == path
              && (!(win in d.windows && d.windows[win].boardPath == path) ==> windows[win].filteredTaskIds == None)
              && forall w :: w != win ==> (w in windows <==> w in d.windows) && (w in windows ==> windows[w] == d.windows[w])
  {
    if a.OnBoard? && a.a.Deliver? {
      RecomputeGate(Now(sc, d.sys), d.sys.cache, d.sys.bridge, d.sys.queue[0]);
      RefreshedHold(d.windows, ps, eval(d.sys.cache));
    }
  }

  /** Perspectives, projects and actors stay fixed: only task writes may change
      what a filter matches. */
  ghost predicate DeskEnabled(sc: Schema, eval: Cache -> Evaluator, d: Desk, a: DeskAction) {
    a.OnBoard? ==>
      && Enabled(sc, d.sys, a.a)
      && (a.a.Put? && a.a.e.kind != "task" ==>
            forall f :: eval(Insert(d.sys.cache, a.a.e))(f) == eval(d.sys.cache)(f))
      && (a.a.Remove? && a.a.key.kind != "task" ==>
            forall f :: eval(Drop(d.sys.cache, a.a.key))(f) == eval(d.sys.cache)(f))
  }

  ghost predicate DeskLegal(sc: Schema, ps: Perspectives, eval: Cache -> Evaluator, d: Desk, run: seq<DeskAction>)
    decreases |run|
  {
    run == [] || (DeskEnabled(sc, eval, d, run[0]) && DeskLegal(sc, ps, eval, DeskStep(sc, ps, eval, d, run[0]), run[1..]))
  }

  ghost function DeskAfter(sc: Schema, ps: Perspectives, eval: Cache -> Evaluator, d: Desk, run: seq<DeskAction>): Desk
    requires DeskLegal(sc, ps, eval, d, run)
    decreases |run|
  {
    if run == [] then d else DeskAfter(sc, ps, eval, DeskStep(sc, ps, eval, d, run[0]), run[1..])
  }

  ghost predicate DeskInv(ps: Perspectives, eval: Cache -> Evaluator, d: Desk) {
    !TaskWaiting(d.sys.queue) ==> Current(d.windows, ps, eval(d.sys.cache))
  }

  lemma CurrentAlike(windows: map<string, WindowState>, ps: Perspectives, a: Evaluator, b: Evaluator)
    requires Current(windows, ps, a) && forall f :: a(f) == b(f)
    ensures Current(windows, ps, b)
  {
    forall l | l in windows && Target(windows[l], ps, b).Some?
      ensures windows[l].filteredTaskIds == Target(windows[l], ps, b)
    {
      assert Target(windows[l], ps, a) == Target(windows[l], ps, b);
    }
  }

  lemma WaitingAppend(q: seq<EntityEvent>, e: EntityEvent)
    ensures TaskWaiting(q + [e]) <==> TaskWaiting(q) || TaskEvent(e)
  {
    if TaskWaiting(q) {
      var i :| 0 <= i < |q| && TaskEvent(q[i]);
      assert TaskEvent((q + [e])[i]);
    }
    if TaskEvent(e) { assert TaskEvent((q + [e])[|q|]); }
  }

  lemma WaitingTail(q: seq<EntityEvent>)
    requires q != []
    ensures TaskWaiting(q) <==> TaskEvent(q[0]) || TaskWaiting(q[1..])
  {
    if TaskWaiting(q[1..]) {
      var i :| 0 <= i < |q[1..]| && TaskEvent(q[1..][i]);
      assert TaskEvent(q[i + 1]);
    }
    if TaskWaiting(q) && !TaskEvent(q[0]) {
      var i :| 0 <= i < |q| && TaskEvent(q[i]);
      assert TaskEvent(q[1..][i - 1]);
    }
  }

  lemma DeskBoardKeeps(sc: Schema, ps: Perspectives, eval: Cache -> Evaluator, d: Desk, act: Action)
    requires WellFormed(sc) && DeskInv(ps, eval, d) && DeskEnabled(sc, eval, d, OnBoard(act))
    ensures DeskInv(ps, eval, DeskStep(sc, ps, eval, d, OnBoard(act)))
  {
    var c := d.sys.cache;
    var d' := DeskStep(sc, ps, eval, d, OnBoard(act));
    match act {
      case Put(e, changes) =>
        WaitingAppend(d.sys.queue, EntityChanged(e.kind, e.id, changes));
        if d'.sys != d.sys && !TaskWaiting(d'.sys.queue) {
          CurrentAlike(d.windows, ps, eval(c), eval(Insert(c, e)));
        }
      case Remove(k) =>
        WaitingAppend(d.sys.queue, EntityDeleted(k.kind, k.id));
        if !TaskWaiting(d'.sys.queue) { CurrentAlike(d.windows, ps, eval(c), eval(Drop(c, k))); }
      case Attach(kind, filename, removed) =>
        WaitingAppend(d.sys.queue, AttachmentTouched(kind, filename, removed));
      case Elsewhere(_) =>
      case Deliver =>
        WaitingTail(d.sys.queue);
        RecomputeGate(Now(sc, d.sys), c, d.sys.bridge, d.sys.queue[0]);
        RecomputeSettles(d.windows, ps, eval(c));
    }
  }

  lemma {:induction false} DeskRunKeeps(sc: Schema, ps: Perspectives, eval: Cache -> Evaluator, d: Desk, run: seq<DeskAction>)
    requires WellFormed(sc) && DeskInv(ps, eval, d) && DeskLegal(sc, ps, eval, d, run)
    ensures DeskInv(ps, eval, DeskAfter(sc, ps, eval, d, run))
    decreases |run|
  {
    if run != [] {
      if run[0].OnBoard? {
        DeskBoardKeeps(sc, ps, eval, d, run[0].a);
      }
      DeskRunKeeps(sc, ps, eval, DeskStep(sc, ps, eval, d, run[0]), run[1..]);
    }
  }

  /** Over every run, once no task event waits, each filtered window holds what
      its perspective's filter now matches. */
  lemma WindowsStayCurrent(sc: Schema, ps: Perspectives, eval: Cache -> Evaluator, d: Desk, run: seq<DeskAction>)
    requires WellFormed(sc) && HoldsOwnFilter(d.windows, ps, eval(d.sys.cache)) && DeskLegal(sc, ps, eval, d, run)
    ensures var d' := DeskAfter(sc, ps, eval, d, run);
            (forall i :: 0 <= i < |d'.sys.queue| ==> d'.sys.queue[i].AttachmentTouched? || d'.sys.queue[i].kind != "task") ==>
              HoldsOwnFilter(d'.windows, ps, eval(d'.sys.cache))
  {
    CurrentHolds(d.windows, ps, eval(d.sys.cache));
    DeskRunKeeps(sc, ps, eval, d, run);
    var d' := DeskAfter(sc, ps, eval, d, run);
    CurrentHolds(d'.windows, ps, eval(d'.sys.cache));
  }

  lemma CurrentHolds(windows: map<string, WindowState>, ps: Perspectives, eval: Evaluator)
    ensures Current(windows, ps, eval) <==> HoldsOwnFilter(windows, ps, eval)
  {
    if HoldsOwnFilter(windows, ps, eval) {
      forall l | l in windows && Target(windows[l], ps, eval).Some?
        ensures windows[l].filteredTaskIds == Target(windows[l], ps, eval)
      {
      }
    }
  }
}
