/** JSON field values, field maps and field-level change lists: the vocabulary
    every event of the entity cache and of the bridge is written in. */
module Json {

  datatype Option<+T> = None | Some(value: T)

  /** A JSON value. */
  datatype Value =
    | Null
    | Bool(b: bool)
    | Num(n: int)
    | Str(s: string)
    | Arr(items: seq<Value>)
    | Obj(members: map<string, Value>)

  type Fields = map<string, Value>

  datatype FieldChange = FieldChange(field: string, value: Value)

  /** The value of a field, reading an absent field as `Null`. */
  function At(m: Fields, f: string): Value {
    if f in m then m[f] else Null
  }

  function GetStr(m: Fields, f: string): Option<string> {
    if f in m && m[f].Str? then Some(m[f].s) else None
  }

  function Strings(items: seq<Value>): seq<string> {
    if items == [] then []
    else (if items[0].Str? then [items[0].s] else []) + Strings(items[1..])
  }

  /** The string elements of an array field; anything else reads as empty. */
  function GetStringList(m: Fields, f: string): seq<string> {
    if f in m && m[f].Arr? then Strings(m[f].items) else []
  }

  function Strs(names: seq<string>): Value {
    Arr(seq(|names|, i requires 0 <= i < |names| => Str(names[i])))
  }

  lemma StrsInjective(a: seq<string>, b: seq<string>)
    ensures Strs(a) == Strs(b) <==> a == b
  {
    if Strs(a) == Strs(b) {
      assert |Strs(a).items| == |a| && |Strs(b).items| == |b|;
      forall i | 0 <= i < |a| ensures a[i] == b[i] {
        assert Strs(a).items[i] == Str(a[i]) && Strs(b).items[i] == Str(b[i]);
      }
    }
  }

  // ---- change lists -------------------------------------------------------

  predicate NamesField(changes: seq<FieldChange>, f: string) {
    exists i :: 0 <= i < |changes| && changes[i].field == f
  }

  /** Replay a change list, first to last, over a field map. */
  function Patch(m: Fields, changes: seq<FieldChange>): Fields {
    if changes == [] then m
    else
      var last := changes[|changes| - 1];
      Patch(m, changes[..|changes| - 1])[last.field := last.value]
  }

  /** The value one field ends with when a change list is replayed over `v`. */
  function Assigned(changes: seq<FieldChange>, f: string, v: Value): Value {
    if changes == [] then v
    else
      var last := changes[|changes| - 1];
      if last.field == f then last.value else Assigned(changes[..|changes| - 1], f, v)
  }

  lemma {:induction false} PatchAt(m: Fields, changes: seq<FieldChange>, f: string)
    ensures At(Patch(m, changes), f) == Assigned(changes, f, At(m, f))
    ensures f in Patch(m, changes) <==> f in m || NamesField(changes, f)
  {
    if changes != [] {
      var n := |changes| - 1;
      PatchAt(m, changes[..n], f);
      assert NamesField(changes, f) <==> changes[n].field == f || NamesField(changes[..n], f) by {
        if NamesField(changes[..n], f) {
          var i :| 0 <= i < n && changes[..n][i].field == f;
          assert changes[i].field == f;
        }
        if NamesField(changes, f) && changes[n].field != f {
          var i :| 0 <= i < |changes| && changes[i].field == f;
          assert changes[..n][i].field == f;
        }
      }
    }
  }

  lemma {:induction false} AssignedUnnamed(changes: seq<FieldChange>, f: string, v: Value)
    ensures !NamesField(changes, f) ==> Assigned(changes, f, v) == v
    ensures NamesField(changes, f) ==> forall w :: Assigned(changes, f, w) == Assigned(changes, f, v)
  {
    if changes != [] {
      var n := |changes| - 1;
      AssignedUnnamed(changes[..n], f, v);
      if changes[n].field != f {
        if NamesField(changes, f) {
          var i :| 0 <= i < |changes| && changes[i].field == f;
          assert changes[..n][i].field == f;
        }
      }
      if !NamesField(changes, f) {
        assert changes[n].field != f;
        assert forall i :: 0 <= i < n ==> changes[..n][i] == changes[i];
      }
    }
  }

  /** A field named exactly once ends with the value its change carries. */
  lemma {:induction false} AssignedAt(changes: seq<FieldChange>, i: nat, v: Value)
    requires i < |changes|
    requires forall j :: i < j < |changes| ==> changes[j].field != changes[i].field
    ensures Assigned(changes, changes[i].field, v) == changes[i].value
    decreases |changes|
  {
    var n := |changes| - 1;
    if i < n {
      assert changes[n].field != changes[i].field;
      assert changes[..n][i] == changes[i];
      AssignedAt(changes[..n], i, v);
    }
  }

  lemma {:induction false} AssignedConcat(a: seq<FieldChange>, b: seq<FieldChange>, f: string, v: Value)
    ensures Assigned(a + b, f, v) == Assigned(b, f, Assigned(a, f, v))
    decreases |b|
  {
    if b == [] {
      assert a + b == a;
    } else {
      var n := |b| - 1;
      assert (a + b)[..|a + b| - 1] == a + b[..n];
      assert (a + b)[|a + b| - 1] == b[n];
      AssignedConcat(a, b[..n], f, v);
    }
  }

  lemma NamesConcat(a: seq<FieldChange>, b: seq<FieldChange>, f: string)
    ensures NamesField(a + b, f) <==> NamesField(a, f) || NamesField(b, f)
  {
    if NamesField(a, f) {
      var i :| 0 <= i < |a| && a[i].field == f;
      assert (a + b)[i].field == f;
    }
    if NamesField(b, f) {
      var i :| 0 <= i < |b| && b[i].field == f;
      assert (a + b)[|a| + i].field == f;
    }
    if NamesField(a + b, f) {
      var i :| 0 <= i < |a + b| && (a + b)[i].field == f;
      if i < |a| { assert a[i].field == f; } else { assert b[i - |a|].field == f; }
    }
  }

  // ---- the cache's field-level diff ----------------------------------------

  /** Whether field `f` differs between two field maps: present on one side
      only, or present on both with different values. */
  predicate Differs(old_: Fields, new_: Fields, f: string) {
    (f in old_ || f in new_) && !(f in old_ && f in new_ && old_[f] == new_[f])
  }

  /** `changes` is a field-level diff: one entry for each differing field, in
      any order, carrying the new value or `Null` for a removed field. */
  ghost predicate IsDiff(old_: Fields, new_: Fields, changes: seq<FieldChange>) {
    && (forall i, j :: 0 <= i < j < |changes| ==> changes[i].field != changes[j].field)
    && (forall i :: 0 <= i < |changes| ==>
          Differs(old_, new_, changes[i].field) && changes[i].value == At(new_, changes[i].field))
    && (forall f :: Differs(old_, new_, f) ==> NamesField(changes, f))
  }

  /** Replaying a diff reproduces the new value of every field. */
  lemma DiffAssigns(old_: Fields, new_: Fields, changes: seq<FieldChange>, f: string)
    requires IsDiff(old_, new_, changes)
    ensures Assigned(changes, f, At(old_, f)) == At(new_, f)
    ensures NamesField(changes, f) <==> Differs(old_, new_, f)
  {
    if NamesField(changes, f) {
      var i :| 0 <= i < |changes| && changes[i].field == f;
      AssignedAt(changes, i, At(old_, f));
    } else {
      AssignedUnnamed(changes, f, At(old_, f));
      assert !Differs(old_, new_, f);
    }
  }

  /** The diff of `EntityCache::write`: changed and added fields first, then the
      removed ones, each group in the unspecified order of a hash map. */
  method Diff(old_: Fields, new_: Fields) returns (changes: seq<FieldChange>)
    ensures IsDiff(old_, new_, changes)
  {
    changes := [];
    var todo := new_.Keys;
    while todo != {}
      invariant todo <= new_.Keys
      invariant forall i, j :: 0 <= i < j < |changes| ==> changes[i].field != changes[j].field
      invariant forall i :: 0 <= i < |changes| ==>
                  changes[i].field in new_ && changes[i].field !in todo &&
                  Differs(old_, new_, changes[i].field) && changes[i].value == new_[changes[i].field]
      invariant forall f :: f in new_ && f !in todo && Differs(old_, new_, f) ==> NamesField(changes, f)
      decreases todo
    {
      var f :| f in todo;
      todo := todo - {f};
      ghost var before := changes;
      if !(f in old_ && old_[f] == new_[f]) {
        changes := changes + [FieldChange(f, new_[f])];
        assert changes[|before|].field == f;
      }
      forall g | NamesField(before, g) ensures NamesField(changes, g) {
        var i :| 0 <= i < |before| && before[i].field == g;
        assert changes[i].field == g;
      }
    }
    todo := old_.Keys;
    while todo != {}
      invariant todo <= old_.Keys
      invariant forall i, j :: 0 <= i < j < |changes| ==> changes[i].field != changes[j].field
      invariant forall i :: 0 <= i < |changes| ==>
                  Differs(old_, new_, changes[i].field) && changes[i].value == At(new_, changes[i].field) &&
                  (changes[i].field in new_ || changes[i].field !in todo)
      invariant forall f :: (f in new_ || f !in todo) && Differs(old_, new_, f) ==> NamesField(changes, f)
      decreases todo
    {
      var f :| f in todo;
      todo := todo - {f};
      ghost var before := changes;
      if f !in new_ {
        changes := changes + [FieldChange(f, Null)];
        assert changes[|before|].field == f;
      }
      forall g | NamesField(before, g) ensures NamesField(changes, g) {
        var i :| 0 <= i < |before| && before[i].field == g;
        assert changes[i].field == g;
      }
    }
  }
}
