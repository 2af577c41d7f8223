/** Properties of a queue of cache events waiting for the bridge: which entities
    it still concerns, what it will leave of them, and whether resolving it is
    bound to refresh every task. */
module EventQueue {
  import opened Json
  import opened EntityCache
  import opened Watcher

  predicate Concerns(e: EntityEvent, k: Key) {
    !e.AttachmentTouched? && Key(e.kind, e.id) == k
  }

  predicate Pending(q: seq<EntityEvent>, k: Key) {
    q != [] && (Concerns(q[0], k) || Pending(q[1..], k))
  }

  /** Whether the last event waiting for `k` says it exists. */
  predicate LastLive(q: seq<EntityEvent>, k: Key) {
    q != [] && if Pending(q[1..], k) then LastLive(q[1..], k) else Concerns(q[0], k) && q[0].EntityChanged?
  }

  function StepValue(e: EntityEvent, k: Key, f: string, v: Value): Value {
    if !Concerns(e, k) then v
    else if e.EntityChanged? then Assigned(e.changes, f, v)
    else Null
  }

  /** What the waiting events make of one stored field that now reads `v`. */
  function Settled(q: seq<EntityEvent>, k: Key, f: string, v: Value): Value {
    if q == [] then v else Settled(q[1..], k, f, StepValue(q[0], k, f, v))
  }

  function SeenAfter(seen: set<Key>, e: EntityEvent): set<Key> {
    match e
    case EntityChanged(kind, id, _) => seen + {Key(kind, id)}
    case EntityDeleted(kind, id) => seen - {Key(kind, id)}
    case AttachmentTouched(_, _, _) => seen
  }

  function SeenAfterAll(seen: set<Key>, q: seq<EntityEvent>): set<Key>
    decreases |q|
  {
    if q == [] then seen else SeenAfterAll(SeenAfter(seen, q[0]), q[1..])
  }

  /** Resolving `e` under `seen` visits every task. */
  predicate FansOut(e: EntityEvent, seen: set<Key>) {
    match e
    case EntityChanged(kind, id, changes) =>
      kind == "task" && (Key(kind, id) !in seen || TouchesFanoutField(changes))
    case EntityDeleted(kind, id) => kind == "task"
    case AttachmentTouched(_, _, _) => false
  }

  /** Some waiting event will visit every task. */
  predicate WillFanOut(q: seq<EntityEvent>, seen: set<Key>)
    decreases |q|
  {
    q != [] && (FansOut(q[0], seen) || WillFanOut(q[1..], SeenAfter(seen, q[0])))
  }

  // ---- one more event at the end -------------------------------------------------

  lemma {:induction false} PendingAppend(q: seq<EntityEvent>, e: EntityEvent, k: Key)
    ensures Pending(q + [e], k) <==> Pending(q, k) || Concerns(e, k)
  {
    if q == [] {
      assert q + [e] == [e];
      assert !Pending([e][1..], k);
    } else {
      assert (q + [e])[1..] == q[1..] + [e];
      PendingAppend(q[1..], e, k);
    }
  }

  lemma {:induction false} LastLiveAppend(q: seq<EntityEvent>, e: EntityEvent, k: Key)
    ensures Concerns(e, k) ==> (LastLive(q + [e], k) <==> e.EntityChanged?)
    ensures !Concerns(e, k) ==> (LastLive(q + [e], k) <==> LastLive(q, k))
  {
    if q == [] {
      assert q + [e] == [e];
      assert !Pending([e][1..], k);
    } else {
      assert (q + [e])[1..] == q[1..] + [e];
      PendingAppend(q[1..], e, k);
      LastLiveAppend(q[1..], e, k);
    }
  }

  lemma {:induction false} SettledAppend(q: seq<EntityEvent>, e: EntityEvent, k: Key, f: string, v: Value)
    ensures Settled(q + [e], k, f, v) == StepValue(e, k, f, Settled(q, k, f, v))
  {
    if q == [] {
      assert q + [e] == [e];
      assert [e][1..] == [];
    } else {
      assert (q + [e])[1..] == q[1..] + [e];
      SettledAppend(q[1..], e, k, f, StepValue(q[0], k, f, v));
    }
  }

  lemma {:induction false} WillFanOutAppend(q: seq<EntityEvent>, e: EntityEvent, seen: set<Key>)
    ensures WillFanOut(q + [e], seen) <==> WillFanOut(q, seen) || FansOut(e, SeenAfterAll(seen, q))
    decreases |q|
  {
    if q == [] {
      assert q + [e] == [e];
      assert !WillFanOut([e][1..], SeenAfter(seen, e));
    } else {
      assert (q + [e])[1..] == q[1..] + [e];
      WillFanOutAppend(q[1..], e, SeenAfter(seen, q[0]));
    }
  }

  lemma {:induction false} SeenAppend(seen: set<Key>, q: seq<EntityEvent>, e: EntityEvent)
    ensures SeenAfterAll(seen, q + [e]) == SeenAfter(SeenAfterAll(seen, q), e)
    decreases |q|
  {
    if q == [] {
      assert q + [e] == [e] && [e][1..] == [];
    } else {
      assert (q + [e])[1..] == q[1..] + [e];
      SeenAppend(SeenAfter(seen, q[0]), q[1..], e);
    }
  }

  /** An entity the queue will announce has an event waiting in it. */
  lemma {:induction false} UnseenPending(seen: set<Key>, q: seq<EntityEvent>, k: Key)
    requires k in SeenAfterAll(seen, q) && k !in seen
    ensures Pending(q, k)
    decreases |q|
  {
    if !Concerns(q[0], k) { UnseenPending(SeenAfter(seen, q[0]), q[1..], k); }
  }

  // ---- settling is idempotent ------------------------------------------------------

  /** From any two values, the queue either brings them together or leaves
      both as they are. */
  lemma {:induction false} SettledMerges(q: seq<EntityEvent>, k: Key, f: string, v: Value, w: Value)
    ensures Settled(q, k, f, v) == Settled(q, k, f, w) ||
            (Settled(q, k, f, v) == v && Settled(q, k, f, w) == w)
  {
    if q != [] {
      SettledMerges(q[1..], k, f, StepValue(q[0], k, f, v), StepValue(q[0], k, f, w));
      if q[0].EntityChanged? {
        AssignedUnnamed(q[0].changes, f, v);
        AssignedUnnamed(q[0].changes, f, w);
      }
    }
  }

  /** Starting from the value the queue settles on changes nothing. */
  lemma SettledFixpoint(q: seq<EntityEvent>, k: Key, f: string, v: Value)
    ensures Settled(q, k, f, Settled(q, k, f, v)) == Settled(q, k, f, v)
  {
    SettledMerges(q, k, f, v, Settled(q, k, f, v));
  }

  /** An entity whose last waiting event deletes it settles on nothing. */
  lemma {:induction false} SettledDead(q: seq<EntityEvent>, k: Key, f: string, v: Value)
    requires Pending(q, k) && !LastLive(q, k)
    ensures Settled(q, k, f, v) == Null
  {
    if Pending(q[1..], k) {
      SettledDead(q[1..], k, f, StepValue(q[0], k, f, v));
    } else {
      SettledUnconcerned(q[1..], k, f, Null);
    }
  }

  lemma {:induction false} SettledUnconcerned(q: seq<EntityEvent>, k: Key, f: string, v: Value)
    requires !Pending(q, k)
    ensures Settled(q, k, f, v) == v
  {
    if q != [] { SettledUnconcerned(q[1..], k, f, v); }
  }
}
