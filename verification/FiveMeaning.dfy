/** What the five cross-task fields say, in terms of the stored ids, columns,
    dependencies and tags alone. */
module FiveMeaning {
  import opened Json
  import opened EntityCache
  import opened TaskGraph
  import opened Sorting

  /** `name` is among the strings of a list field. */
  ghost predicate Lists(e: Entity, field: string, name: string) {
    field in e.fields && e.fields[field].Arr? && Str(name) in e.fields[field].items
  }

  ghost predicate InColumn(e: Entity, column: string) {
    "position_column" in e.fields && e.fields["position_column"] == Str(column)
  }

  /** Not in the column; a task that has none counts as in the unnamed one. */
  ghost predicate Outside(e: Entity, column: string) {
    !InColumn(e, column) && ((exists c :: InColumn(e, c)) || column != "")
  }

  /** The task sits in the column; a task without a column counts as in `todo`. */
  ghost predicate Sits(e: Entity, column: string) {
    InColumn(e, column) || (column == "todo" && forall c :: !InColumn(e, c))
  }

  lemma SitsMeans(e: Entity, column: string)
    ensures ColumnOr(e, "todo") == column <==> Sits(e, column)
  {
    if Column(e).Some? { assert InColumn(e, Column(e).value); }
  }

  /** The first task listed under the id sits in the terminal column. */
  ghost predicate Done(id: string, all: seq<Entity>, terminal: string) {
    exists i :: 0 <= i < |all| && all[i].id == id && InColumn(all[i], terminal) &&
                forall j :: 0 <= j < i ==> all[j].id != id
  }

  ghost predicate AllDone(e: Entity, all: seq<Entity>, terminal: string) {
    forall d :: Lists(e, "depends_on", d) ==> Done(d, all, terminal)
  }

  ghost predicate Awaited(e: Entity, all: seq<Entity>) {
    exists i :: 0 <= i < |all| && Lists(all[i], "depends_on", e.id)
  }

  /** The virtual tags a task carries. */
  ghost predicate Tagged(e: Entity, all: seq<Entity>, terminal: string, tag: string) {
    || (tag == "READY" && Outside(e, terminal) && AllDone(e, all, terminal))
    || (tag == "BLOCKED" && !AllDone(e, all, terminal))
    || (tag == "BLOCKING" && Outside(e, terminal) && Awaited(e, all))
  }

  // ---- reading list fields -----------------------------------------------------

  lemma {:induction false} StringsMember(items: seq<Value>, s: string)
    ensures s in Strings(items) <==> Str(s) in items
  {
    if items != [] { StringsMember(items[1..], s); }
  }

  lemma StringListMember(e: Entity, field: string, s: string)
    ensures s in GetStringList(e.fields, field) <==> Lists(e, field, s)
  {
    if field in e.fields && e.fields[field].Arr? { StringsMember(e.fields[field].items, s); }
  }

  /** A list of strings is read back as written. */
  lemma {:induction false} StringsOfStrs(names: seq<string>)
    ensures Strings(Strs(names).items) == names
  {
    if names != [] {
      assert Strs(names).items[0] == Str(names[0]);
      assert Strs(names).items[1..] == Strs(names[1..]).items;
      StringsOfStrs(names[1..]);
    }
  }

  lemma {:induction false} DepMetMeans(d: string, all: seq<Entity>, terminal: string)
    ensures DepMet(d, all, terminal) <==> Done(d, all, terminal)
  {
    if all != [] {
      DepMetMeans(d, all[1..], terminal);
      if all[0].id == d {
        assert DepMet(d, all, terminal) <==> InColumn(all[0], terminal);
      } else if Done(d, all[1..], terminal) {
        var i :| 0 <= i < |all[1..]| && all[1..][i].id == d && InColumn(all[1..][i], terminal) &&
                 forall j :: 0 <= j < i ==> all[1..][j].id != d;
        forall j | 0 <= j < i + 1 ensures all[j].id != d {
          if j > 0 { assert all[1..][j - 1] == all[j]; }
        }
        assert all[i + 1] == all[1..][i];
      }
    }
  }

  lemma DepsMean(e: Entity, all: seq<Entity>, terminal: string)
    ensures forall d :: d in Deps(e) <==> Lists(e, "depends_on", d)
    ensures forall d :: DepMet(d, all, terminal) <==> Done(d, all, terminal)
    ensures TaskIsReady(e, all, terminal) <==> AllDone(e, all, terminal)
  {
    forall d ensures d in Deps(e) <==> Lists(e, "depends_on", d) { StringListMember(e, "depends_on", d); }
    forall d ensures DepMet(d, all, terminal) <==> Done(d, all, terminal) { DepMetMeans(d, all, terminal); }
  }

  lemma ColumnMeans(e: Entity, terminal: string)
    ensures ColumnOr(e, "") != terminal <==> Outside(e, terminal)
  {
    if Column(e).Some? { assert InColumn(e, Column(e).value); }
  }

  // ---- the fields one by one ----------------------------------------------------

  lemma {:induction false} UnmetFilters(deps: seq<string>, all: seq<Entity>, terminal: string)
    ensures Unmet(deps, all, terminal) == Filter(deps, d => !DepMet(d, all, terminal))
  {
    if deps != [] { UnmetFilters(deps[1..], all, terminal); }
  }

  lemma {:induction false} DependentsFilter(id: string, all: seq<Entity>)
    ensures Dependents(id, all) == MapSeq(Filter(all, (x: Entity) => id in Deps(x)), (x: Entity) => x.id)
  {
    if all != [] {
      DependentsFilter(id, all[1..]);
      var p, f := (x: Entity) => id in Deps(x), (x: Entity) => x.id;
      var head := if p(all[0]) then [all[0]] else [];
      assert MapSeq(head + Filter(all[1..], p), f) == MapSeq(head, f) + MapSeq(Filter(all[1..], p), f);
    }
  }

  lemma VirtualTagsMean(e: Entity, all: seq<Entity>, terminal: string)
    ensures VirtualTags(e, all, terminal) == Filter(["READY", "BLOCKED", "BLOCKING"], tag => Tagged(e, all, terminal, tag))
  {
    assert "READY" != "BLOCKED" && "READY" != "BLOCKING" && "BLOCKED" != "BLOCKING" by {
      assert |"READY"| == 5 && |"BLOCKED"| == 7 && |"BLOCKING"| == 8;
    }
    DepsMean(e, all, terminal);
    ColumnMeans(e, terminal);
    assert MatchesReady(e, all, terminal) <==> Tagged(e, all, terminal, "READY");
    if MatchesBlocked(e, all, terminal) {
      var d :| d in Deps(e) && !DepMet(d, all, terminal);
      assert Lists(e, "depends_on", d) && !Done(d, all, terminal);
    }
    assert MatchesBlocked(e, all, terminal) <==> Tagged(e, all, terminal, "BLOCKED");
    forall i | 0 <= i < |all| ensures e.id in Deps(all[i]) <==> Lists(all[i], "depends_on", e.id) {
      StringListMember(all[i], "depends_on", e.id);
    }
    assert MatchesBlocking(e, all, terminal) <==> Tagged(e, all, terminal, "BLOCKING");
    FilterThree("READY", "BLOCKED", "BLOCKING", tag => Tagged(e, all, terminal, tag));
  }

  lemma FilterThree(a: string, b: string, c: string, p: string -> bool)
    ensures Filter([a, b, c], p) == (if p(a) then [a] else []) + (if p(b) then [b] else []) + (if p(c) then [c] else [])
  {
    assert [a, b, c][1..] == [b, c] && [b, c][1..] == [c] && [c][1..] == [];
    assert Filter([c], p) == (if p(c) then [c] else []) + Filter([], p);
    assert Filter([b, c], p) == (if p(b) then [b] else []) + Filter([c], p);
  }

  lemma {:induction false} NotInFilters(slugs: seq<string>, tags: seq<string>)
    ensures NotIn(slugs, tags) == Filter(slugs, slug => slug !in tags)
  {
    if slugs != [] { NotInFilters(slugs[1..], tags); }
  }

  lemma {:induction false} FilterDistinct(s: seq<string>, p: string -> bool)
    requires forall i, j :: 0 <= i < j < |s| ==> s[i] != s[j]
    ensures forall i, j :: 0 <= i < j < |Filter(s, p)| ==> Filter(s, p)[i] != Filter(s, p)[j]
  {
    if s != [] {
      assert forall i, j :: 0 <= i < j < |s[1..]| ==> s[1..][i] == s[i + 1] && s[1..][j] == s[j + 1];
      FilterDistinct(s[1..], p);
      var rest := Filter(s[1..], p);
      forall i | 0 <= i < |rest| ensures rest[i] != s[0] {
        FilterMembers(s[1..], p, rest[i]);
        var m :| 0 <= m < |s[1..]| && s[1..][m] == rest[i];
        assert s[m + 1] == rest[i];
      }
    }
  }

  /** The five fields, read off what is stored: readiness, the dependencies that
      are not done and the dependants, both in order, and the virtual tags in
      the order of their registration. */
  lemma FiveMeans(e: Entity, all: seq<Entity>, terminal: string)
    ensures var five := FiveOf(e, all, terminal);
            && At(five, "ready") == Bool(AllDone(e, all, terminal))
            && At(five, "blocked_by") ==
                 Strs(Filter(GetStringList(e.fields, "depends_on"), d => !Done(d, all, terminal)))
            && At(five, "blocks") ==
                 Strs(MapSeq(Filter(all, (x: Entity) => Lists(x, "depends_on", e.id)), (x: Entity) => x.id))
            && At(five, "virtual_tags") ==
                 Strs(Filter(["READY", "BLOCKED", "BLOCKING"], tag => Tagged(e, all, terminal, tag)))
  {
    DepsMean(e, all, terminal);
    UnmetFilters(Deps(e), all, terminal);
    FilterAlike(Deps(e), d => !DepMet(d, all, terminal), d => !Done(d, all, terminal));
    DependentsFilter(e.id, all);
    forall x: Entity ensures e.id in Deps(x) <==> Lists(x, "depends_on", e.id) { StringListMember(x, "depends_on", e.id); }
    FilterAlike(all, (x: Entity) => e.id in Deps(x), (x: Entity) => Lists(x, "depends_on", e.id));
    VirtualTagsMean(e, all, terminal);
  }

  /** The filter tags of a task: its body tags as they are, then each virtual tag
      it carries that is not among them, once. */
  lemma FilterTagsMean(e: Entity, all: seq<Entity>, terminal: string)
    ensures var tags := GetStringList(e.fields, "tags");
            var names := GetStringList(FiveOf(e, all, terminal), "filter_tags");
            && At(FiveOf(e, all, terminal), "filter_tags") == Strs(names)
            && tags <= names
            && (forall n :: n in names <==> Lists(e, "tags", n) || Tagged(e, all, terminal, n))
            && (forall i, j :: 0 <= i < j < |names| && |tags| <= j ==> names[i] != names[j])
  {
    var tags, slugs := GetStringList(e.fields, "tags"), VirtualTags(e, all, terminal);
    StringsOfStrs(FilterTags(tags, slugs));
    VirtualTagsMean(e, all, terminal);
    SlugsDistinct(tag => Tagged(e, all, terminal, tag));
    UnionMeans(tags, slugs);
    forall n
      ensures n in slugs <==> Tagged(e, all, terminal, n)
      ensures n in tags <==> Lists(e, "tags", n)
    {
      FilterMembers(["READY", "BLOCKED", "BLOCKING"], tag => Tagged(e, all, terminal, tag), n);
      StringListMember(e, "tags", n);
    }
  }

  lemma SlugsDistinct(p: string -> bool)
    ensures var slugs := Filter(["READY", "BLOCKED", "BLOCKING"], p);
            forall i, j :: 0 <= i < j < |slugs| ==> slugs[i] != slugs[j]
  {
    assert |"READY"| == 5 && |"BLOCKED"| == 7 && |"BLOCKING"| == 8;
    FilterDistinct(["READY", "BLOCKED", "BLOCKING"], p);
  }

  /** Joining distinct slugs to a list adds each one that is not there, once. */
  lemma UnionMeans(tags: seq<string>, slugs: seq<string>)
    requires forall i, j :: 0 <= i < j < |slugs| ==> slugs[i] != slugs[j]
    ensures var names := FilterTags(tags, slugs);
            && tags <= names
            && (forall n :: n in names <==> n in tags || n in slugs)
            && (forall i, j :: 0 <= i < j < |names| && |tags| <= j ==> names[i] != names[j])
  {
    var added, p := NotIn(slugs, tags), (slug: string) => slug !in tags;
    NotInFilters(slugs, tags);
    FilterDistinct(slugs, p);
    forall n ensures n in added <==> n in slugs && n !in tags { FilterMembers(slugs, p, n); }
    var names := FilterTags(tags, slugs);
    forall i, j | 0 <= i < j < |names| && |tags| <= j ensures names[i] != names[j] {
      assert names[j] == added[j - |tags|] && added[j - |tags|] in added;
      if i >= |tags| { assert names[i] == added[i - |tags|]; } else { assert names[i] == tags[i]; }
    }
  }
}
