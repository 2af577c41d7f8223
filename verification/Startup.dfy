/** Starting the bridge beside a running writer: the entity types are scanned
    one by one into the `seen` set, and only then does the bridge subscribe. */
module Startup {
  import opened Json
  import opened EntityCache
  import opened Watcher
  import opened EventQueue
  import opened Lifecycle
  import Convergence

  /** `queue` holds the events sent since the subscription. */
  datatype Boot = Boot(cache: Cache, seen: set<Key>, scanned: set<string>, subscribed: bool, queue: seq<EntityEvent>)

  datatype BootAction =
    | Scan(kind: string)
    | Subscribe
    | Write(e: Entity, changes: seq<FieldChange>)
    | Erase(key: Key)

  function KeysOfKind(c: Cache, kind: string): set<Key> {
    set e | e in c && e.kind == kind :: e.KeyOf()
  }

  function Send(b: Boot, evt: EntityEvent): seq<EntityEvent> {
    if b.subscribed then b.queue + [evt] else b.queue
  }

  function BootStep(b: Boot, a: BootAction): Boot {
    match a
    case Scan(kind) => b.(seen := b.seen + KeysOfKind(b.cache, kind), scanned := b.scanned + {kind})
    case Subscribe => b.(subscribed := true)
    case Write(e, changes) =>
      if Has(b.cache, e.KeyOf()) && FieldsIn(b.cache, e.KeyOf()) == e.fields then b
      else b.(cache := Insert(b.cache, e), queue := Send(b, EntityChanged(e.kind, e.id, changes)))
    case Erase(k) => b.(cache := Drop(b.cache, k), queue := Send(b, EntityDeleted(k.kind, k.id)))
  }

  function BootAfter(b: Boot, run: seq<BootAction>): Boot
    decreases |run|
  {
    if run == [] then b else BootAfter(BootStep(b, run[0]), run[1..])
  }

  /** The order the code keeps: every type is scanned before the subscription,
      none after it. */
  ghost predicate SnapshotThenSubscribe(kinds: set<string>, b: Boot, run: seq<BootAction>)
    decreases |run|
  {
    run == [] ||
    ((run[0].Scan? ==> !b.subscribed) &&
     (run[0].Subscribe? ==> !b.subscribed && kinds <= b.scanned) &&
     SnapshotThenSubscribe(kinds, BootStep(b, run[0]), run[1..]))
  }

  /** Some scan of the run finds `k` in the cache. */
  ghost predicate LiveWhenScanned(b: Boot, run: seq<BootAction>, k: Key)
    decreases |run|
  {
    run != [] &&
    ((run[0].Scan? && k.kind == run[0].kind && Has(b.cache, k)) || LiveWhenScanned(BootStep(b, run[0]), run[1..], k))
  }

  /** `k` is absent from the cache in every state up to the subscription. */
  ghost predicate AbsentUntilSubscribed(b: Boot, run: seq<BootAction>, k: Key)
    decreases |run|
  {
    b.subscribed ||
    (!Has(b.cache, k) && (run == [] || AbsentUntilSubscribed(BootStep(b, run[0]), run[1..], k)))
  }

  /** From the subscription on, a write or a deletion does to cache and queue what it
      does in the running pipeline. */
  lemma SubscribedSteps(sc: Schema, b: Boot, s: Convergence.System, e: Entity, changes: seq<FieldChange>, k: Key)
    requires b.subscribed && s.cache == b.cache && s.queue == b.queue
    ensures var b', s' := BootStep(b, Write(e, changes)), Convergence.Step(sc, s, Convergence.Put(e, changes));
            b'.cache == s'.cache && b'.queue == s'.queue
    ensures var b', s' := BootStep(b, Erase(k)), Convergence.Step(sc, s, Convergence.Remove(k));
            b'.cache == s'.cache && b'.queue == s'.queue
  {
  }

  /** The starting `seen` set is exactly what the scans found live. */
  lemma {:induction false} SeenIsScanned(b: Boot, run: seq<BootAction>, k: Key)
    ensures k in BootAfter(b, run).seen <==> k in b.seen || LiveWhenScanned(b, run, k)
    decreases |run|
  {
    if run != [] {
      if run[0].Scan? { ScanFinds(b.cache, run[0].kind, k); }
      SeenIsScanned(BootStep(b, run[0]), run[1..], k);
    }
  }

  lemma {:induction false} ScanFinds(c: Cache, kind: string, k: Key)
    ensures k in KeysOfKind(c, kind) <==> k.kind == kind && Has(c, k)
  {
    FindKey(c, k);
    if k in KeysOfKind(c, kind) {
      var e :| e in c && e.kind == kind && e.KeyOf() == k;
    }
  }

  /** The types scanned are those of the run's scans. */
  lemma {:induction false} ScannedKinds(b: Boot, run: seq<BootAction>, kind: string)
    ensures kind in BootAfter(b, run).scanned <==> kind in b.scanned || Scan(kind) in run
    decreases |run|
  {
    if run != [] {
      ScannedKinds(BootStep(b, run[0]), run[1..], kind);
      assert run == [run[0]] + run[1..];
    }
  }

  lemma {:induction false} SubscribedStays(b: Boot, run: seq<BootAction>, kinds: set<string>, k: Key)
    requires SnapshotThenSubscribe(kinds, b, run) && b.subscribed
    ensures !LiveWhenScanned(b, run, k)
    decreases |run|
  {
    if run != [] { SubscribedStays(BootStep(b, run[0]), run[1..], kinds, k); }
  }

  lemma {:induction false} AbsentIsUnscanned(kinds: set<string>, b: Boot, run: seq<BootAction>, k: Key)
    requires SnapshotThenSubscribe(kinds, b, run) && AbsentUntilSubscribed(b, run, k)
    ensures !LiveWhenScanned(b, run, k)
    decreases |run|
  {
    if b.subscribed {
      SubscribedStays(b, run, kinds, k);
    } else if run != [] {
      FindKey(b.cache, k);
      AbsentIsUnscanned(kinds, BootStep(b, run[0]), run[1..], k);
    }
  }

  lemma {:induction false} UnannouncedLog(log: seq<WatchEvent>, k: Key, preloaded: bool)
    requires forall i :: 0 <= i < |log| ==> !Announces(log[i], k)
    ensures Announced(log, k, preloaded) == preloaded
    decreases |log|
  {
    if log != [] { UnannouncedLog(log[..|log| - 1], k, preloaded); }
  }

  /** The first event the bridge resolves for an entity is announced as Created
      exactly when no scan found the entity live. */
  lemma FirstAnnouncement(sc: Schema, b: Boot, run: seq<BootAction>, ins: seq<Input>, j: nat, k: Key)
    requires b.seen == {}
    requires j < |ins| && Concerns(ins[j].evt, k) && ins[j].evt.EntityChanged?
    requires forall i :: 0 <= i < j ==> !Concerns(ins[i].evt, k)
    ensures var log := Primaries(sc, Bridge(BootAfter(b, run).seen, map[]), ins);
            && (log[j].EntityCreated? <==> !LiveWhenScanned(b, run, k))
            && (log[j].EntityFieldChanged? <==> LiveWhenScanned(b, run, k))
  {
    var start := Bridge(BootAfter(b, run).seen, map[]);
    var log := Primaries(sc, start, ins);
    SeenIsScanned(b, run, k);
    PrimaryFollowsLog(sc, start, ins, j, k);
    forall i | 0 <= i < |log[..j]| ensures !Announces(log[..j][i], k) {
      PrimariesPrefix(sc, start, ins, i);
      PrimaryMeaning(sc, ins[i], BridgeAfter(sc, start, ins[..i]), k);
    }
    UnannouncedLog(log[..j], k, k in start.seen);
  }

  /** An entity first written after the subscription is announced as Created,
      however the writer and the startup interleave. */
  lemma FirstWriteAfterSubscribe(sc: Schema, kinds: set<string>, b: Boot, run: seq<BootAction>,
                                 ins: seq<Input>, j: nat, k: Key)
    requires b.seen == {} && SnapshotThenSubscribe(kinds, b, run) && AbsentUntilSubscribed(b, run, k)
    requires j < |ins| && Concerns(ins[j].evt, k) && ins[j].evt.EntityChanged?
    requires forall i :: 0 <= i < j ==> !Concerns(ins[i].evt, k)
    ensures Primaries(sc, Bridge(BootAfter(b, run).seen, map[]), ins)[j].EntityCreated?
  {
    AbsentIsUnscanned(kinds, b, run, k);
    FirstAnnouncement(sc, b, run, ins, j, k);
  }

  /** A write that falls between the scan of its type and the subscription is in
      neither the snapshot nor the queue, so the next write of that entity is
      announced as Created although the entity already exists. */
  lemma WriteInTheWindow(e: Entity, changes: seq<FieldChange>)
    ensures var run := [Scan(e.kind), Write(e, changes), Subscribe];
            var b := BootAfter(Boot([], {}, {}, false, []), run);
            && SnapshotThenSubscribe({e.kind}, Boot([], {}, {}, false, []), run)
            && b.subscribed && Has(b.cache, e.KeyOf()) && e.KeyOf() !in b.seen && b.queue == []
  {
    var b0 := Boot([], {}, {}, false, []);
    var run := [Scan(e.kind), Write(e, changes), Subscribe];
    var b1 := BootStep(b0, run[0]);
    var b2 := BootStep(b1, run[1]);
    var b3 := BootStep(b2, run[2]);
    assert run[1..] == [Write(e, changes), Subscribe] && run[1..][1..] == [Subscribe] && run[1..][1..][1..] == [];
    assert BootAfter(b0, run) == BootAfter(b1, run[1..]) == BootAfter(b2, run[1..][1..]) == BootAfter(b3, []);
    assert SnapshotThenSubscribe({e.kind}, b3, []);
    assert SnapshotThenSubscribe({e.kind}, b2, [Subscribe]);
    assert SnapshotThenSubscribe({e.kind}, b1, run[1..]);
  }

  /** The other order would go wrong: subscribed first, a write of a new entity
      is both queued and scanned, and its announcement is a FieldChanged. */
  lemma SubscribeFirstMisclassifies(sc: Schema, e: Entity, changes: seq<FieldChange>, c: Cache)
    ensures var b := BootAfter(Boot([], {}, {}, false, []), [Subscribe, Write(e, changes), Scan(e.kind)]);
            && b.queue == [EntityChanged(e.kind, e.id, changes)]
            && Primaries(sc, Bridge(b.seen, map[]), [Input(b.queue[0], c, true)])[0].EntityFieldChanged?
  {
    var b0 := Boot([], {}, {}, false, []);
    var run := [Subscribe, Write(e, changes), Scan(e.kind)];
    var b1 := BootStep(b0, run[0]);
    var b2 := BootStep(b1, run[1]);
    var b3 := BootStep(b2, run[2]);
    assert run[1..] == [Write(e, changes), Scan(e.kind)] && run[1..][1..] == [Scan(e.kind)] && run[1..][1..][1..] == [];
    assert BootAfter(b0, run) == BootAfter(b1, run[1..]) == BootAfter(b2, run[1..][1..]) == BootAfter(b3, []);
    assert b2.cache == [e] && e in b2.cache;
    var ins := [Input(EntityChanged(e.kind, e.id, changes), c, true)];
    PrimariesPrefix(sc, Bridge(b3.seen, map[]), ins, 0);
    PrimaryMeaning(sc, ins[0], Bridge(b3.seen, map[]), e.KeyOf());
  }
}
