/** The two-lock discipline of the spatial commands: any number of commands, each
    taking the registry lock, then the state lock, and holding both while it
    updates one and then the other. */
module SpatialLocks {
  import opened Json

  /** What a command does to the registry and to the per-window state; the
      second update may read what the first one wrote. */
  datatype Command = Command(onRegistry: (int, int) -> int, onState: (int, int) -> int)

  /** Where a command stands: it waits for the registry lock, waits for the state
      lock, is about to update the registry, is about to update the state, or has
      still to release the state lock, then the registry lock. */
  datatype Phase = WantsRegistry | WantsState | UpdatesRegistry | UpdatesState | DropsState | DropsRegistry | Done

  /** `log` lists the commands in the order they completed their updates, and
      `observed` what each running or finished command read on entry. */
  datatype World = World(
    registry: int,
    state: int,
    registryOwner: Option<nat>,
    stateOwner: Option<nat>,
    phases: seq<Phase>,
    log: seq<nat>,
    observed: map<nat, (int, int)>)

  function Start(registry: int, state: int, n: nat): World {
    World(registry, state, None, None, seq(n, _ => WantsRegistry), [], map[])
  }

  /** Command `i` can move on: it is unfinished and the lock it wants is free. */
  predicate CanStep(w: World, i: nat) {
    i < |w.phases| && w.phases[i] != Done &&
    (w.phases[i] == WantsRegistry ==> w.registryOwner == None) &&
    (w.phases[i] == WantsState ==> w.stateOwner == None)
  }

  function Step(cs: seq<Command>, w: World, i: nat): World
    requires |cs| == |w.phases| && CanStep(w, i)
  {
    match w.phases[i]
    case WantsRegistry => w.(registryOwner := Some(i), phases := w.phases[i := WantsState])
    case WantsState => w.(stateOwner := Some(i), phases := w.phases[i := UpdatesRegistry],
                          observed := w.observed[i := (w.registry, w.state)])
    case UpdatesRegistry => w.(registry := cs[i].onRegistry(w.registry, w.state), phases := w.phases[i := UpdatesState])
    case UpdatesState => w.(state := cs[i].onState(w.registry, w.state), phases := w.phases[i := DropsState], log := w.log + [i])
    case DropsState => w.(stateOwner := None, phases := w.phases[i := DropsRegistry])
    case DropsRegistry => w.(registryOwner := None, phases := w.phases[i := Done])
    case Done => w
  }

  predicate Schedule(cs: seq<Command>, w: World, run: seq<nat>)
    requires |cs| == |w.phases|
    decreases |run|
  {
    run == [] || (CanStep(w, run[0]) && Schedule(cs, Step(cs, w, run[0]), run[1..]))
  }

  function After(cs: seq<Command>, w: World, run: seq<nat>): (w': World)
    ensures |w'.phases| == |w.phases|
    requires |cs| == |w.phases| && Schedule(cs, w, run)
    decreases |run|
  {
    if run == [] then w else After(cs, Step(cs, w, run[0]), run[1..])
  }

  /** The commands of the log run one after another, each as a whole. */
  function Serial(cs: seq<Command>, start: (int, int), log: seq<nat>): (int, int) {
    if log == [] then start
    else
      var before := Serial(cs, start, log[..|log| - 1]);
      var i := log[|log| - 1];
      if i < |cs| then Whole(cs[i], before) else before
  }

  function Whole(c: Command, before: (int, int)): (int, int) {
    var r := c.onRegistry(before.0, before.1);
    (r, c.onState(r, before.1))
  }

  predicate HoldsRegistry(p: Phase) { p != WantsRegistry && p != Done }

  predicate HoldsState(p: Phase) { p.UpdatesRegistry? || p.UpdatesState? || p.DropsState? }

  /** Locks are owned by exactly the commands in the phases that hold them, and
      the data is the serial outcome of the completed commands, but for a command
      between its two updates. */
  ghost predicate Inv(cs: seq<Command>, start: (int, int), w: World) {
    && |cs| == |w.phases|
    && (forall i :: 0 <= i < |w.phases| ==> (HoldsRegistry(w.phases[i]) <==> w.registryOwner == Some(i)))
    && (forall i :: 0 <= i < |w.phases| ==> (HoldsState(w.phases[i]) <==> w.stateOwner == Some(i)))
    && (w.registryOwner.Some? ==> w.registryOwner.value < |w.phases|)
    && (w.stateOwner.Some? ==> w.stateOwner.value < |w.phases|)
    && var done := Serial(cs, start, w.log);
       if w.stateOwner.Some? && w.phases[w.stateOwner.value] == UpdatesState
       then w.registry == cs[w.stateOwner.value].onRegistry(done.0, done.1) && w.state == done.1
       else (w.registry, w.state) == done
  }

  predicate Entered(p: Phase) { p.UpdatesRegistry? || p.UpdatesState? }

  predicate Completed(p: Phase) { p.DropsState? || p.DropsRegistry? || p.Done? }

  /** The log names each completed command once, and every command read, on
      entry, the serial outcome of exactly the commands completed before it. */
  ghost predicate Observes(cs: seq<Command>, start: (int, int), w: World) {
    && LogExact(w)
    && (forall i :: 0 <= i < |w.phases| && Entered(w.phases[i]) ==> ReadOnEntry(cs, start, w, i, w.log))
    && (forall m :: 0 <= m < |w.log| ==> ReadOnEntry(cs, start, w, w.log[m], w.log[..m]))
  }

  ghost predicate LogExact(w: World) {
    && (forall i :: 0 <= i < |w.phases| ==> (i in w.log <==> Completed(w.phases[i])))
    && (forall m, n :: 0 <= m < n < |w.log| ==> w.log[m] != w.log[n])
    && (forall m :: 0 <= m < |w.log| ==> w.log[m] < |w.phases|)
  }

  ghost predicate ReadOnEntry(cs: seq<Command>, start: (int, int), w: World, i: nat, log: seq<nat>) {
    i in w.observed && w.observed[i] == Serial(cs, start, log)
  }

  lemma StartInv(cs: seq<Command>, registry: int, state: int)
    ensures Inv(cs, (registry, state), Start(registry, state, |cs|))
  {
  }

  lemma StepKeepsInv(cs: seq<Command>, start: (int, int), w: World, i: nat)
    requires Inv(cs, start, w) && CanStep(w, i)
    ensures Inv(cs, start, Step(cs, w, i))
  {
    var w' := Step(cs, w, i);
    if w.phases[i] == UpdatesState {
      assert w.stateOwner == Some(i);
      assert w'.log[..|w'.log| - 1] == w.log;
    }
  }

  lemma NoneEntered(cs: seq<Command>, start: (int, int), w: World)
    requires Inv(cs, start, w) && w.stateOwner == None
    ensures forall j :: 0 <= j < |w.phases| ==> !Entered(w.phases[j])
  {
  }

  /** A command enters: its read is recorded, the log stays. */
  lemma EntryKeepsObserves(cs: seq<Command>, start: (int, int), w: World, i: nat)
    requires Inv(cs, start, w) && Observes(cs, start, w) && CanStep(w, i) && w.phases[i] == WantsState
    ensures Observes(cs, start, Step(cs, w, i))
  {
    var w' := Step(cs, w, i);
    forall m | 0 <= m < |w.log| ensures ReadOnEntry(cs, start, w', w.log[m], w.log[..m]) {
      assert w.log[m] in w.log;
      assert ReadOnEntry(cs, start, w, w.log[m], w.log[..m]);
    }
    NoneEntered(cs, start, w);
  }

  lemma CompletionKeepsLog(w: World, w': World, i: nat)
    requires LogExact(w) && i < |w.phases| && w.phases[i] == UpdatesState
    requires w'.phases == w.phases[i := DropsState] && w'.log == w.log + [i]
    ensures LogExact(w')
  {
    assert i !in w.log;
    forall j ensures j in w'.log <==> j in w.log || j == i {
    }
  }

  lemma LoneEntrant(cs: seq<Command>, start: (int, int), w: World, i: nat, j: nat)
    requires Inv(cs, start, w) && i < |w.phases| && j < |w.phases| && HoldsState(w.phases[i]) && j != i
    ensures !Entered(w.phases[j])
  {
  }

  /** A command completes: it joins the log, and no other had entered. */
  lemma CompletionKeepsObserves(cs: seq<Command>, start: (int, int), w: World, i: nat)
    requires Inv(cs, start, w) && Observes(cs, start, w) && CanStep(w, i) && w.phases[i] == UpdatesState
    ensures Observes(cs, start, Step(cs, w, i))
  {
    var w' := Step(cs, w, i);
    CompletionKeepsLog(w, w', i);
    forall j | 0 <= j < |w'.phases| ensures !Entered(w'.phases[j]) {
      if j != i { LoneEntrant(cs, start, w, i, j); }
    }
    assert ReadOnEntry(cs, start, w, i, w.log);
    forall m | 0 <= m < |w'.log| ensures ReadOnEntry(cs, start, w', w'.log[m], w'.log[..m]) {
      if m < |w.log| {
        assert w'.log[..m] == w.log[..m];
        assert ReadOnEntry(cs, start, w, w.log[m], w.log[..m]);
      } else {
        assert w'.log[..m] == w.log;
      }
    }
  }

  lemma OtherKeepsObserves(cs: seq<Command>, start: (int, int), w: World, i: nat)
    requires Inv(cs, start, w) && Observes(cs, start, w) && CanStep(w, i)
    requires w.phases[i] != WantsState && w.phases[i] != UpdatesState
    ensures Observes(cs, start, Step(cs, w, i))
  {
    var w' := Step(cs, w, i);
    forall m | 0 <= m < |w.log| ensures ReadOnEntry(cs, start, w', w.log[m], w.log[..m]) {
      assert ReadOnEntry(cs, start, w, w.log[m], w.log[..m]);
    }
    forall j | 0 <= j < |w'.phases| && Entered(w'.phases[j]) ensures ReadOnEntry(cs, start, w', j, w'.log) {
      assert Entered(w.phases[j]);
      assert ReadOnEntry(cs, start, w, j, w.log);
    }
  }

  lemma StepKeepsObserves(cs: seq<Command>, start: (int, int), w: World, i: nat)
    requires Inv(cs, start, w) && Observes(cs, start, w) && CanStep(w, i)
    ensures Observes(cs, start, Step(cs, w, i))
  {
    if w.phases[i] == WantsState {
      EntryKeepsObserves(cs, start, w, i);
    } else if w.phases[i] == UpdatesState {
      CompletionKeepsObserves(cs, start, w, i);
    } else {
      OtherKeepsObserves(cs, start, w, i);
    }
  }

  lemma {:induction false} RunKeepsObserves(cs: seq<Command>, start: (int, int), w: World, run: seq<nat>)
    requires Inv(cs, start, w) && Observes(cs, start, w) && Schedule(cs, w, run)
    ensures Observes(cs, start, After(cs, w, run))
    decreases |run|
  {
    if run != [] {
      StepKeepsInv(cs, start, w, run[0]);
      StepKeepsObserves(cs, start, w, run[0]);
      RunKeepsObserves(cs, start, Step(cs, w, run[0]), run[1..]);
    }
  }

  /** Atomicity: in every reachable state, each completed command read the
      outcome of whole commands only, those completed before it. */
  lemma NoHalfAppliedUpdate(cs: seq<Command>, registry: int, state: int, run: seq<nat>, m: nat)
    requires Schedule(cs, Start(registry, state, |cs|), run)
    requires m < |After(cs, Start(registry, state, |cs|), run).log|
    ensures var w := After(cs, Start(registry, state, |cs|), run);
            ReadOnEntry(cs, (registry, state), w, w.log[m], w.log[..m])
  {
    StartInv(cs, registry, state);
    RunKeepsObserves(cs, (registry, state), Start(registry, state, |cs|), run);
  }

  /** Once every command is done, the data is a serial run of all of them, each
      exactly once. */
  lemma FinishedIsSerial(cs: seq<Command>, registry: int, state: int, run: seq<nat>)
    requires Schedule(cs, Start(registry, state, |cs|), run)
    requires forall i :: 0 <= i < |cs| ==> After(cs, Start(registry, state, |cs|), run).phases[i] == Done
    ensures var w := After(cs, Start(registry, state, |cs|), run);
            && (w.registry, w.state) == Serial(cs, (registry, state), w.log)
            && (forall i :: 0 <= i < |cs| ==> i in w.log)
            && (forall a, b :: 0 <= a < b < |w.log| ==> w.log[a] != w.log[b])
  {
    var w0 := Start(registry, state, |cs|);
    StartInv(cs, registry, state);
    RunKeepsInv(cs, (registry, state), w0, run);
    RunKeepsObserves(cs, (registry, state), w0, run);
    var w := After(cs, w0, run);
  }

  lemma {:induction false} RunKeepsInv(cs: seq<Command>, start: (int, int), w: World, run: seq<nat>)
    requires Inv(cs, start, w) && Schedule(cs, w, run)
    ensures Inv(cs, start, After(cs, w, run))
    decreases |run|
  {
    if run != [] {
      StepKeepsInv(cs, start, w, run[0]);
      RunKeepsInv(cs, start, Step(cs, w, run[0]), run[1..]);
    }
  }

  /** While `i` is unfinished it can step itself, or the registry's owner can. */
  lemma SomeoneSteps(cs: seq<Command>, start: (int, int), w: World, i: nat) returns (o: nat)
    requires Inv(cs, start, w) && i < |w.phases| && w.phases[i] != Done
    ensures CanStep(w, o)
  {
    if w.registryOwner.Some? {
      o := w.registryOwner.value;
      assert HoldsRegistry(w.phases[o]);
    } else {
      o := i;
      assert !HoldsRegistry(w.phases[i]);
    }
  }

  lemma StuckIsDone(cs: seq<Command>, start: (int, int), w: World)
    requires Inv(cs, start, w) && forall i :: !CanStep(w, i)
    ensures forall i :: 0 <= i < |w.phases| ==> w.phases[i] == Done
  {
    forall i | 0 <= i < |w.phases| ensures w.phases[i] == Done {
      if w.phases[i] != Done {
        var o := SomeoneSteps(cs, start, w, i);
        assert false;
      }
    }
  }

  /** No deadlock: in every reachable state, while some command is unfinished,
      some unfinished command can step. */
  lemma NoDeadlock(cs: seq<Command>, registry: int, state: int, run: seq<nat>)
    requires Schedule(cs, Start(registry, state, |cs|), run)
    ensures var w := After(cs, Start(registry, state, |cs|), run);
            (exists i :: 0 <= i < |w.phases| && w.phases[i] != Done) ==> exists i: nat :: CanStep(w, i)
  {
    StartInv(cs, registry, state);
    RunKeepsInv(cs, (registry, state), Start(registry, state, |cs|), run);
    var w := After(cs, Start(registry, state, |cs|), run);
    if i :| 0 <= i < |w.phases| && w.phases[i] != Done {
      var o := SomeoneSteps(cs, (registry, state), w, i);
    }
  }

  // ---- every schedule ends --------------------------------------------------------------

  function StepsLeft(p: Phase): nat {
    match p
    case WantsRegistry => 6
    case WantsState => 5
    case UpdatesRegistry => 4
    case UpdatesState => 3
    case DropsState => 2
    case DropsRegistry => 1
    case Done => 0
  }

  function AllStepsLeft(phases: seq<Phase>): nat {
    if phases == [] then 0 else StepsLeft(phases[0]) + AllStepsLeft(phases[1..])
  }

  lemma {:induction false} OneStepLess(phases: seq<Phase>, i: nat, p: Phase)
    requires i < |phases|
    ensures AllStepsLeft(phases[i := p]) == AllStepsLeft(phases) - StepsLeft(phases[i]) + StepsLeft(p)
  {
    if i == 0 {
      assert phases[0 := p][1..] == phases[1..];
    } else {
      assert phases[i := p][1..] == phases[1..][i - 1 := p];
      OneStepLess(phases[1..], i - 1, p);
    }
  }

  lemma {:induction false} AllDone(phases: seq<Phase>)
    ensures AllStepsLeft(phases) == 0 <==> forall i :: 0 <= i < |phases| ==> phases[i] == Done
  {
    if phases != [] {
      AllDone(phases[1..]);
      if AllStepsLeft(phases) == 0 {
        forall i | 0 <= i < |phases| ensures phases[i] == Done {
          if i > 0 { assert phases[1..][i - 1] == Done; }
        }
      }
    }
  }

  /** Every step uses up one of finitely many, so a schedule that never stops
      early runs every command to its end. */
  lemma {:induction false} ScheduleLength(cs: seq<Command>, w: World, run: seq<nat>)
    requires |cs| == |w.phases| && Schedule(cs, w, run)
    ensures |run| + AllStepsLeft(After(cs, w, run).phases) == AllStepsLeft(w.phases)
    decreases |run|
  {
    if run != [] {
      StepUsesOne(cs, w, run[0]);
      ScheduleLength(cs, Step(cs, w, run[0]), run[1..]);
    }
  }

  lemma {:induction false} StartSteps(n: nat)
    ensures AllStepsLeft(seq(n, _ => WantsRegistry)) == 6 * n
  {
    if n > 0 {
      var phases := seq(n, _ => WantsRegistry);
      assert phases[1..] == seq(n - 1, _ => WantsRegistry);
      StartSteps(n - 1);
    }
  }

  /** A schedule that cannot be extended has run every command to its end, in
      six steps each. */
  lemma MaximalSchedulesFinish(cs: seq<Command>, registry: int, state: int, run: seq<nat>)
    requires Schedule(cs, Start(registry, state, |cs|), run)
    requires forall i :: !CanStep(After(cs, Start(registry, state, |cs|), run), i)
    ensures forall i :: 0 <= i < |cs| ==> After(cs, Start(registry, state, |cs|), run).phases[i] == Done
    ensures |run| == 6 * |cs|
  {
    StartInv(cs, registry, state);
    RunKeepsInv(cs, (registry, state), Start(registry, state, |cs|), run);
    var w := After(cs, Start(registry, state, |cs|), run);
    StuckIsDone(cs, (registry, state), w);
    ScheduleLength(cs, Start(registry, state, |cs|), run);
    StartSteps(|cs|);
    AllDone(w.phases);
  }

  /** A schedule goes on with whatever can step at its end. */
  lemma {:induction false} ScheduleExtends(cs: seq<Command>, w: World, run: seq<nat>, i: nat)
    requires |cs| == |w.phases| && Schedule(cs, w, run) && CanStep(After(cs, w, run), i)
    ensures Schedule(cs, w, run + [i]) && After(cs, w, run + [i]) == Step(cs, After(cs, w, run), i)
    decreases |run|
  {
    if run == [] {
      assert run + [i] == [i] && [i][1..] == [];
    } else {
      assert (run + [i])[1..] == run[1..] + [i];
      ScheduleExtends(cs, Step(cs, w, run[0]), run[1..], i);
    }
  }

  /** Every schedule can be continued until all commands are done. */
  lemma {:induction false} ScheduleCompletes(cs: seq<Command>, registry: int, state: int, run: seq<nat>) returns (full: seq<nat>)
    requires Schedule(cs, Start(registry, state, |cs|), run)
    ensures run <= full && Schedule(cs, Start(registry, state, |cs|), full)
    ensures forall i :: 0 <= i < |cs| ==> After(cs, Start(registry, state, |cs|), full).phases[i] == Done
    decreases AllStepsLeft(After(cs, Start(registry, state, |cs|), run).phases)
  {
    var w := After(cs, Start(registry, state, |cs|), run);
    full := run;
    if i :| 0 <= i < |w.phases| && w.phases[i] != Done {
      var o := OneMoreStep(cs, registry, state, run, i);
      full := ScheduleCompletes(cs, registry, state, run + [o]);
    }
  }

  /** So any number of commands can all be brought to their end. */
  lemma AllCanFinish(cs: seq<Command>, registry: int, state: int) returns (run: seq<nat>)
    ensures Schedule(cs, Start(registry, state, |cs|), run) && |run| == 6 * |cs|
    ensures forall i :: 0 <= i < |cs| ==> After(cs, Start(registry, state, |cs|), run).phases[i] == Done
  {
    run := ScheduleCompletes(cs, registry, state, []);
    ScheduleLength(cs, Start(registry, state, |cs|), run);
    StartSteps(|cs|);
    AllDone(After(cs, Start(registry, state, |cs|), run).phases);
  }

  lemma OneMoreStep(cs: seq<Command>, registry: int, state: int, run: seq<nat>, i: nat) returns (o: nat)
    requires Schedule(cs, Start(registry, state, |cs|), run)
    requires i < |cs| && After(cs, Start(registry, state, |cs|), run).phases[i] != Done
    ensures Schedule(cs, Start(registry, state, |cs|), run + [o])
    ensures AllStepsLeft(After(cs, Start(registry, state, |cs|), run + [o]).phases) <
            AllStepsLeft(After(cs, Start(registry, state, |cs|), run).phases)
  {
    var w0 := Start(registry, state, |cs|);
    StartInv(cs, registry, state);
    RunKeepsInv(cs, (registry, state), w0, run);
    o := SomeoneSteps(cs, (registry, state), After(cs, w0, run), i);
    ScheduleExtends(cs, w0, run, o);
    StepUsesOne(cs, After(cs, w0, run), o);
  }

  lemma StepUsesOne(cs: seq<Command>, w: World, i: nat)
    requires |cs| == |w.phases| && CanStep(w, i)
    ensures AllStepsLeft(Step(cs, w, i).phases) + 1 == AllStepsLeft(w.phases)
  {
    OneStepLess(w.phases, i, Step(cs, w, i).phases[i]);
  }
}
