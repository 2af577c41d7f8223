/** What the replica holds whenever nothing waits: of every entity, what a read
    under its last surroundings finds; hence exactly when it is fresh, and that
    it is fresh of every entity whose reading nothing has moved since the bridge
    was last bound to read it. */
module Quiescence {
  import opened Json
  import opened EntityCache
  import opened TaskGraph
  import opened Watcher
  import opened Replica
  import opened EventQueue
  import opened TaskLists
  import opened Convergence
  import opened Delivery

  /** However writers, the world outside and the bridge interleave, whenever the
      queue is empty the replica holds of every entity its stored fields, its
      computed fields as derived when its own last event was resolved, and its
      five cross-task fields as of its own last event or the last fan-out. */
  lemma QuiescentContents(sc: Schema, s: System, run: seq<Action>, k: Key)
    requires WellFormed(sc) && Initial(sc, s) && Legal(sc, s, run)
    requires After(sc, s, run).queue == []
    ensures var t := After(sc, s, run);
            HeldUnder(sc, t.cache, t.store, t.own(k), t.five(k.id), k)
  {
    InitialInv(sc, s);
    RunKeepsInv(sc, s, run);
    QuietInv(sc, After(sc, s, run), k);
  }

  lemma SameFive(five: Fields, five': Fields, held: Fields)
    requires SnapshotFull(five) && SnapshotFull(five') && forall n :: IsFive(n) ==> At(held, n) == At(five, n)
    ensures (forall n :: IsFive(n) ==> At(held, n) == At(five', n)) <==> five' == five
  {
    if forall n :: IsFive(n) ==> At(held, n) == At(five', n) {
      forall n | n in five ensures five'[n] == five[n] {
        assert At(held, n) == At(five', n) == At(five, n);
      }
      assert five'.Keys == five.Keys;
    }
  }

  lemma FiveUnderFull(sc: Schema, c: Cache, v: Surroundings, k: Key)
    requires Has(c, k)
    ensures SnapshotFull(FiveUnder(sc, c, v, k))
  {
    FiveKeys(ApplyCompute(sc, Find(c, k).value, v), TasksUnder(sc, c, v), v.terminal);
  }

  /** So, in every quiet state, a live task's five fields are fresh exactly when
      reading it under its last surroundings and under the present ones gives the
      same; and so is a computed field that had a value when last read. */
  lemma QuiescentFreshness(sc: Schema, s: System, run: seq<Action>, k: Key, n: string)
    requires WellFormed(sc) && Initial(sc, s) && Legal(sc, s, run)
    requires After(sc, s, run).queue == [] && Has(After(sc, s, run).cache, k)
    ensures var t := After(sc, s, run);
            var v := Around(Now(sc, t), t.cache);
            && (k.kind == "task" ==>
                  (FiveHeld(sc, t.cache, t.store, v, k) <==>
                     FiveUnder(sc, t.cache, t.five(k.id), k) == FiveUnder(sc, t.cache, v, k)))
            && (OwnName(sc, k.kind, n) && OwnValue(sc, t.cache, t.own(k), k, n) != Null ==>
                  (At(FieldsOf(t.store, k), n) == OwnValue(sc, t.cache, v, k, n) <==>
                     OwnValue(sc, t.cache, t.own(k), k, n) == OwnValue(sc, t.cache, v, k, n)))
  {
    var t := After(sc, s, run);
    var v := Around(Now(sc, t), t.cache);
    QuiescentContents(sc, s, run, k);
    if k.kind == "task" {
      FiveUnderFull(sc, t.cache, v, k);
      FiveUnderFull(sc, t.cache, t.five(k.id), k);
      SameFive(FiveUnder(sc, t.cache, t.five(k.id), k), FiveUnder(sc, t.cache, v, k), FieldsOf(t.store, k));
    }
  }

  // ---- steps that leave an entity's reading alone -----------------------------------------

  /** The fields derived for `k` alone read the same under both surroundings. */
  ghost predicate OwnAlike(sc: Schema, c: Cache, u: Surroundings, v: Surroundings, k: Key) {
    sc.derive(k.kind, FieldsIn(c, k), u) == sc.derive(k.kind, FieldsIn(c, k), v)
  }

  predicate Writes(a: Action, k: Key) {
    (a.Put? && a.e.KeyOf() == k) || (a.Remove? && a.key == k)
  }

  /** A step that is not a write of `k` leaves alone how its own fields derive. */
  ghost predicate OwnCalm(sc: Schema, s: System, a: Action, k: Key)
    requires a.Deliver? ==> s.queue != []
  {
    var s' := Step(sc, s, a);
    Writes(a, k) || !Has(s'.cache, k) ||
    OwnAlike(sc, s'.cache, Around(Now(sc, s), s.cache), Around(Now(sc, s'), s'.cache), k)
  }

  /** And how its five fields read, but for the graph itself. */
  ghost predicate FiveCalm(sc: Schema, s: System, a: Action, k: Key)
    requires a.Deliver? ==> s.queue != []
  {
    var s' := Step(sc, s, a);
    Writes(a, k) || !Has(s'.cache, k) || k.kind != "task" ||
    FiveUnder(sc, s'.cache, Around(Now(sc, s), s.cache), k) == FiveUnder(sc, s'.cache, Around(Now(sc, s'), s'.cache), k)
  }

  ghost predicate OwnCalmRun(sc: Schema, s: System, run: seq<Action>, k: Key)
    requires Legal(sc, s, run)
    decreases |run|
  {
    run == [] || (OwnCalm(sc, s, run[0], k) && OwnCalmRun(sc, Step(sc, s, run[0]), run[1..], k))
  }

  ghost predicate FiveCalmRun(sc: Schema, s: System, run: seq<Action>, k: Key)
    requires Legal(sc, s, run)
    decreases |run|
  {
    run == [] || (FiveCalm(sc, s, run[0], k) && FiveCalmRun(sc, Step(sc, s, run[0]), run[1..], k))
  }

  /** At some moment of the run an event of `k` waits, and from then on its own
      fields are left alone. */
  ghost predicate OwnSince(sc: Schema, s: System, run: seq<Action>, k: Key)
    requires Legal(sc, s, run)
    decreases |run|
  {
    (Pending(s.queue, k) && OwnCalmRun(sc, s, run, k)) ||
    (run != [] && OwnSince(sc, Step(sc, s, run[0]), run[1..], k))
  }

  /** At some moment of the run an event of `k` or a fan-out waits, and from then
      on its five fields are left alone. */
  ghost predicate FiveSince(sc: Schema, s: System, run: seq<Action>, k: Key)
    requires Legal(sc, s, run)
    decreases |run|
  {
    ((Pending(s.queue, k) || WillFanOut(s.queue, s.bridge.seen)) && FiveCalmRun(sc, s, run, k)) ||
    (run != [] && FiveSince(sc, Step(sc, s, run[0]), run[1..], k))
  }

  /** With nothing of `k` waiting, its own fields derive as when last read. */
  ghost predicate StillOwn(sc: Schema, s: System, k: Key) {
    !Pending(s.queue, k) && Has(s.cache, k) ==> OwnAlike(sc, s.cache, s.own(k), Around(Now(sc, s), s.cache), k)
  }

  /** With neither an event of `k` nor a fan-out waiting, its five fields read as
      when last visited. */
  ghost predicate StillFive(sc: Schema, s: System, k: Key) {
    k.kind == "task" && !Pending(s.queue, k) && Has(s.cache, k) && !WillFanOut(s.queue, s.bridge.seen) ==>
      FiveUnder(sc, s.cache, s.five(k.id), k) == FiveUnder(sc, s.cache, Around(Now(sc, s), s.cache), k)
  }

  /** What a step keeps, if it is calm in either way. */
  ghost predicate Keeps(sc: Schema, s: System, a: Action, k: Key)
    requires a.Deliver? ==> s.queue != []
  {
    && (StillOwn(sc, s, k) && OwnCalm(sc, s, a, k) ==> StillOwn(sc, Step(sc, s, a), k))
    && (StillFive(sc, s, k) && FiveCalm(sc, s, a, k) ==> StillFive(sc, Step(sc, s, a), k))
  }

  lemma PutKeepsReading(sc: Schema, s: System, e: Entity, changes: seq<FieldChange>, k: Key)
    requires WellFormed(sc) && Enabled(sc, s, Put(e, changes))
    requires !(Has(s.cache, e.KeyOf()) && FieldsIn(s.cache, e.KeyOf()) == e.fields)
    ensures Keeps(sc, s, Put(e, changes), k)
  {
    var evt := EntityChanged(e.kind, e.id, changes);
    FindInsert(s.cache, e, k);
    QueueAppendFacts(s.queue, evt, k, s.bridge.seen);
    if k != e.KeyOf() && k.kind == "task" && !WillFanOut(s.queue + [evt], s.bridge.seen) {
      QuietPutLocal(sc, s.cache, s.five(k.id), e, changes, k);
      QuietPutLocal(sc, s.cache, Around(Now(sc, s), s.cache), e, changes, k);
    }
  }

  lemma RemoveKeepsReading(sc: Schema, s: System, k0: Key, k: Key)
    requires Unique(s.cache)
    ensures Keeps(sc, s, Remove(k0), k)
  {
    var c', v := Drop(s.cache, k0), Around(Now(sc, s), s.cache);
    FindDrop(s.cache, k0, k);
    QueueAppendFacts(s.queue, EntityDeleted(k0.kind, k0.id), k, s.bridge.seen);
    if k != k0 && k0.kind != "task" {
      ListTasksDrop(sc, s.cache, s.five(k.id), k0);
      ListTasksDrop(sc, s.cache, v, k0);
      FiveUnderLocal(sc, s.cache, c', s.five(k.id), k);
      FiveUnderLocal(sc, s.cache, c', v, k);
    }
  }

  lemma DeliverKeepsReading(sc: Schema, s: System, k: Key)
    requires WellFormed(sc) && s.queue != []
    ensures StillOwn(sc, s, k) ==> StillOwn(sc, Step(sc, s, Deliver), k)
    ensures StillFive(sc, s, k) ==> StillFive(sc, Step(sc, s, Deliver), k)
  {
    DeliveredNow(sc, s);
    DeliveredReads(sc, s, Step(sc, s, Deliver), k);
  }

  lemma DeliveredReads(sc: Schema, s: System, s': System, k: Key)
    requires s.queue != [] && s'.outside == s.outside && Delivered(Now(sc, s), s, s')
    ensures StillOwn(sc, s, k) ==> StillOwn(sc, s', k)
    ensures StillFive(sc, s, k) ==> StillFive(sc, s', k)
  {
    assert k.kind == "task" ==> k == TaskKey(k.id);
  }

  lemma StepKeepsReading(sc: Schema, s: System, a: Action, k: Key)
    requires WellFormed(sc) && Unique(s.cache) && Enabled(sc, s, a)
    ensures Keeps(sc, s, a, k)
  {
    match a {
      case Put(e, changes) => if Step(sc, s, a) != s { PutKeepsReading(sc, s, e, changes, k); }
      case Remove(k0) => RemoveKeepsReading(sc, s, k0, k);
      case Attach(kind, filename, removed) =>
        QueueAppendFacts(s.queue, AttachmentTouched(kind, filename, removed), k, s.bridge.seen);
      case Elsewhere(_) =>
      case Deliver => DeliverKeepsReading(sc, s, k);
    }
  }

  lemma {:induction false} OwnCalmRunReads(sc: Schema, s: System, run: seq<Action>, k: Key)
    requires WellFormed(sc) && Inv(sc, s) && StillOwn(sc, s, k) && Legal(sc, s, run) && OwnCalmRun(sc, s, run, k)
    ensures StillOwn(sc, After(sc, s, run), k)
    decreases |run|
  {
    if run != [] {
      StepKeepsReading(sc, s, run[0], k);
      StepKeepsInv(sc, s, run[0]);
      OwnCalmRunReads(sc, Step(sc, s, run[0]), run[1..], k);
    }
  }

  lemma {:induction false} FiveCalmRunReads(sc: Schema, s: System, run: seq<Action>, k: Key)
    requires WellFormed(sc) && Inv(sc, s) && StillFive(sc, s, k) && Legal(sc, s, run) && FiveCalmRun(sc, s, run, k)
    ensures StillFive(sc, After(sc, s, run), k)
    decreases |run|
  {
    if run != [] {
      StepKeepsReading(sc, s, run[0], k);
      StepKeepsInv(sc, s, run[0]);
      FiveCalmRunReads(sc, Step(sc, s, run[0]), run[1..], k);
    }
  }

  lemma {:induction false} OwnSinceReads(sc: Schema, s: System, run: seq<Action>, k: Key)
    requires WellFormed(sc) && Inv(sc, s) && Legal(sc, s, run) && OwnSince(sc, s, run, k)
    ensures StillOwn(sc, After(sc, s, run), k)
    decreases |run|
  {
    if Pending(s.queue, k) && OwnCalmRun(sc, s, run, k) {
      OwnCalmRunReads(sc, s, run, k);
    } else {
      StepKeepsInv(sc, s, run[0]);
      OwnSinceReads(sc, Step(sc, s, run[0]), run[1..], k);
    }
  }

  lemma {:induction false} FiveSinceReads(sc: Schema, s: System, run: seq<Action>, k: Key)
    requires WellFormed(sc) && Inv(sc, s) && Legal(sc, s, run) && FiveSince(sc, s, run, k)
    ensures StillFive(sc, After(sc, s, run), k)
    decreases |run|
  {
    if (Pending(s.queue, k) || WillFanOut(s.queue, s.bridge.seen)) && FiveCalmRun(sc, s, run, k) {
      FiveCalmRunReads(sc, s, run, k);
    } else {
      StepKeepsInv(sc, s, run[0]);
      FiveSinceReads(sc, Step(sc, s, run[0]), run[1..], k);
    }
  }

  // ---- convergence ---------------------------------------------------------------------------

  /** In a quiet state the readings that still hold are what the replica has. */
  lemma StillHeld(sc: Schema, t: System, k: Key)
    requires Inv(sc, t) && t.queue == []
    ensures var now, v := Now(sc, t), Around(Now(sc, t), t.cache);
            && (Has(t.cache, k) && k.kind == "task" && StillFive(sc, t, k) ==> FiveHeld(now, t.cache, t.store, v, k))
            && (StillOwn(sc, t, k) && StillFive(sc, t, k) ==> HeldFor(now, t.cache, t.store, k))
  {
    var now, v := Now(sc, t), Around(Now(sc, t), t.cache);
    QuietInv(sc, t, k);
    assert !Pending(t.queue, k) && !WillFanOut(t.queue, t.bridge.seen);
    TasksAnytime(sc, t.outside, t.cache, v);
    assert FiveUnder(now, t.cache, v, k) == FiveUnder(sc, t.cache, v, k);
    if StillOwn(sc, t, k) && StillFive(sc, t, k) {
      forall n ensures Has(t.cache, k) ==> OwnValue(sc, t.cache, t.own(k), k, n) == OwnValue(sc, t.cache, v, k, n) {
      }
      assert HeldUnder(sc, t.cache, t.store, v, v, k);
      HeldAnytime(sc, t.outside, t.cache, t.store, v, v, k);
    }
  }

  /** The run leaves the own fields of `k` alone, since its start or since some
      moment at which an event of `k` waited. */
  ghost predicate OwnSettles(sc: Schema, s: System, run: seq<Action>, k: Key)
    requires Legal(sc, s, run)
  {
    OwnCalmRun(sc, s, run, k) || OwnSince(sc, s, run, k)
  }

  ghost predicate FiveSettles(sc: Schema, s: System, run: seq<Action>, k: Key)
    requires Legal(sc, s, run)
  {
    FiveCalmRun(sc, s, run, k) || FiveSince(sc, s, run, k)
  }

  lemma SettledReads(sc: Schema, s: System, run: seq<Action>, k: Key)
    requires WellFormed(sc) && Initial(sc, s) && Legal(sc, s, run)
    ensures Inv(sc, After(sc, s, run))
    ensures OwnSettles(sc, s, run, k) ==> StillOwn(sc, After(sc, s, run), k)
    ensures FiveSettles(sc, s, run, k) ==> StillFive(sc, After(sc, s, run), k)
  {
    InitialInv(sc, s);
    RunKeepsInv(sc, s, run);
    if OwnCalmRun(sc, s, run, k) { OwnCalmRunReads(sc, s, run, k); }
    if OwnSince(sc, s, run, k) { OwnSinceReads(sc, s, run, k); }
    if FiveCalmRun(sc, s, run, k) { FiveCalmRunReads(sc, s, run, k); }
    if FiveSince(sc, s, run, k) { FiveSinceReads(sc, s, run, k); }
  }

  /** Quiescent convergence: however writers, the world outside and the bridge
      interleave, whenever the queue is empty a live task's five fields are fresh,
      if since some moment at which its event or a fan-out waited (or since the
      start) they were left alone; and an entity holds all that a fresh read
      finds, if its own fields were too, since some moment at which its own event
      waited. Nothing is asked of the `seen` set the bridge started from. */
  lemma QuiescentConvergence(sc: Schema, s: System, run: seq<Action>, k: Key)
    requires WellFormed(sc) && Initial(sc, s) && Legal(sc, s, run) && FiveSettles(sc, s, run, k)
    requires After(sc, s, run).queue == []
    ensures var t := After(sc, s, run);
            && (Has(t.cache, k) && k.kind == "task" ==>
                  FiveHeld(Now(sc, t), t.cache, t.store, Around(Now(sc, t), t.cache), k))
            && (OwnSettles(sc, s, run, k) ==> HeldFor(Now(sc, t), t.cache, t.store, k))
  {
    SettledReads(sc, s, run, k);
    StillHeld(sc, After(sc, s, run), k);
  }

  // ---- what derivations read around an entity -----------------------------------------------------------------

  /** What each type's derivations read around an entity: a task the tag names
      and the outer columns, the board the two counts, the others nothing. */
  ghost predicate Local(sc: Schema) {
    && (forall f, u: Surroundings, v: Surroundings ::
          u.tagNames == v.tagNames && u.first == v.first && u.terminal == v.terminal && u.outside == v.outside ==>
          sc.derive("task", f, u) == sc.derive("task", f, v))
    && (forall f, u: Surroundings, v: Surroundings ::
          u.done == v.done && u.total == v.total ==> sc.derive("board", f, u) == sc.derive("board", f, v))
    && (forall kind, f, u: Surroundings, v: Surroundings ::
          kind != "task" && kind != "board" ==> sc.derive(kind, f, u) == sc.derive(kind, f, v))
  }

  lemma {:induction false} ColumnsInsert(c: Cache, e: Entity)
    requires e.kind != "column"
    ensures ListColumns(Insert(c, e)) == ListColumns(c)
  {
    if c == [] {
      assert [e][1..] == [];
    } else if c[0].KeyOf() != e.KeyOf() {
      ColumnsInsert(c[1..], e);
      assert Insert(c, e)[1..] == Insert(c[1..], e);
    }
  }

  lemma {:induction false} ColumnsDrop(c: Cache, k: Key)
    requires k.kind != "column"
    ensures ListColumns(Drop(c, k)) == ListColumns(c)
  {
    if c != [] && c[0].KeyOf() != k {
      ColumnsDrop(c[1..], k);
      assert Drop(c, k)[1..] == Drop(c[1..], k);
    }
  }

  lemma {:induction false} TagsInsert(c: Cache, e: Entity, x: Entity)
    requires e.kind != "tag" && x.kind == "tag"
    ensures x in Insert(c, e) <==> x in c
  {
    if c != [] && c[0].KeyOf() != e.KeyOf() { TagsInsert(c[1..], e, x); }
  }

  lemma {:induction false} TagsDrop(c: Cache, k: Key, x: Entity)
    requires k.kind != "tag" && x.kind == "tag"
    ensures x in Drop(c, k) <==> x in c
  {
    if c != [] && c[0].KeyOf() != k { TagsDrop(c[1..], k, x); }
  }

  /** A write or deletion of anything but a tag or a column leaves the tag names
      and the columns. */
  lemma OuterUnmoved(sc: Schema, c: Cache, e: Entity, k: Key)
    requires e.kind != "tag" && e.kind != "column" && k.kind != "tag" && k.kind != "column"
    ensures var u, v, w := Around(sc, c), Around(sc, Insert(c, e)), Around(sc, Drop(c, k));
            && u.tagNames == v.tagNames == w.tagNames && u.first == v.first == w.first
            && u.terminal == v.terminal == w.terminal
  {
    ColumnsInsert(c, e);
    ColumnsDrop(c, k);
    forall x: Entity | x.kind == "tag" ensures x in Insert(c, e) <==> x in c { TagsInsert(c, e, x); }
    forall x: Entity | x.kind == "tag" ensures x in Drop(c, k) <==> x in c { TagsDrop(c, k, x); }
    assert TagNames(Insert(c, e)) == TagNames(c) && TagNames(Drop(c, k)) == TagNames(c);
  }
}
