/** The field registry the application ships: which fields reads derive, from
    what, and which are registered as computed. */
module Registry {
  import opened Json
  import opened TaskGraph
  import opened Watcher
  import opened Quiescence

  /** What is left open: the tag slugs a body mentions, the fields derived from
      the body's checklist, the change log and the clock, and the description of
      attachments that replaces their file names. */
  datatype Rules = Rules(
    parse: string -> seq<string>,
    timed: (Fields, string, string, nat) -> Fields,
    attach: (Value, nat) -> Value)

  const TIMED: set<string> :=
    {"progress", "created", "updated", "started", "completed", "status_date", "short_id", "progress_fraction"}

  const TASK_REGISTERED: seq<string> :=
    ["tags", "virtual_tags", "filter_tags", "created", "updated", "started", "completed", "status_date", "progress"]

  const ATTACHMENTS := "attachments"

  function Body(f: Fields): string {
    match GetStr(f, "body")
    case Some(b) => b
    case None => ""
  }

  function Known(parsed: seq<string>, names: set<string>): seq<string> {
    if parsed == [] then []
    else (if parsed[0] in names then [parsed[0]] else []) + Known(parsed[1..], names)
  }

  /** `parse-body-tags`: the mentioned tags that exist. */
  function TaskTags(r: Rules, f: Fields, names: set<string>): seq<string> { Known(r.parse(Body(f)), names) }

  /** The derivations of `virtual_tags` and `filter_tags` are stubs; the
      enrichment overwrites them. */
  function DeriveTask(r: Rules, f: Fields, v: Surroundings): Fields {
    var timed := r.timed(f, v.first, v.terminal, v.outside);
    (map n | n in timed && n in TIMED :: timed[n]) +
    (if ATTACHMENTS in f && f[ATTACHMENTS] != Null then map[ATTACHMENTS := r.attach(f[ATTACHMENTS], v.outside)] else map[]) +
    map["tags" := Strs(TaskTags(r, f, v.tagNames)), "virtual_tags" := Strs([]), "filter_tags" := Strs([])]
  }

  lemma TagsRead(r: Rules, f: Fields, v: Surroundings)
    ensures "tags" in DeriveTask(r, f, v) && DeriveTask(r, f, v)["tags"] == Strs(TaskTags(r, f, v.tagNames))
  {
    assert |"tags"| == 4 && |"virtual_tags"| == 12 && |"filter_tags"| == 11;
  }

  /** Rounded to the nearest whole number. */
  function Percent(done: nat, total: nat): nat {
    if total == 0 then 0 else (200 * done + total) / (2 * total)
  }

  /** `board-percent-complete` */
  function PercentComplete(done: nat, total: nat): Value {
    Obj(map["done" := Num(done), "total" := Num(total), "percent" := Num(Percent(done, total))])
  }

  function Derive(r: Rules): (string, Fields, Surroundings) -> Fields {
    (kind: string, f: Fields, v: Surroundings) =>
      if kind == "task" then DeriveTask(r, f, v)
      else if kind == "board" then map["percent_complete" := PercentComplete(v.done, v.total)]
      else map[]
  }

  function KanbanSchema(r: Rules, outside: nat): Schema {
    Schema(
      Derive(r),
      (kind: string) => if kind == "task" then TASK_REGISTERED else if kind == "board" then ["percent_complete"] else [],
      (kind: string) =>
        if kind == "task" then TIMED + {"tags", "virtual_tags", "filter_tags", "ready", "blocked_by", "blocks"}
        else if kind == "board" then {"percent_complete"} else {},
      (kind: string) => if kind == "task" then {ATTACHMENTS} else {},
      outside)
  }

  lemma RegisteredNames(n: string)
    ensures n in TASK_REGISTERED <==>
            n in {"tags", "virtual_tags", "filter_tags", "created", "updated", "started", "completed", "status_date", "progress"}
  {
    assert TASK_REGISTERED[0] == "tags" && TASK_REGISTERED[1] == "virtual_tags" && TASK_REGISTERED[2] == "filter_tags" &&
           TASK_REGISTERED[3] == "created" && TASK_REGISTERED[4] == "updated" && TASK_REGISTERED[5] == "started" &&
           TASK_REGISTERED[6] == "completed" && TASK_REGISTERED[7] == "status_date" && TASK_REGISTERED[8] == "progress";
  }

  lemma FiveNames(n: string)
    ensures IsFive(n) <==> n in {"virtual_tags", "filter_tags", "ready", "blocked_by", "blocks"}
  {
    assert TASK_COMPUTED_FIELDS[0] == "virtual_tags" && TASK_COMPUTED_FIELDS[1] == "filter_tags" &&
           TASK_COMPUTED_FIELDS[2] == "ready" && TASK_COMPUTED_FIELDS[3] == "blocked_by" &&
           TASK_COMPUTED_FIELDS[4] == "blocks";
  }

  lemma KanbanDerives(r: Rules, outside: nat, kind: string, f: Fields, v: Surroundings)
    ensures var sc := KanbanSchema(r, outside);
            sc.derive(kind, f, v).Keys <= sc.derived(kind) + sc.rewritten(kind)
  {
  }

  /** The shipped registry is well formed, and its derivations read around an
      entity only what `Local` says. */
  lemma KanbanWellFormed(r: Rules, outside: nat)
    ensures WellFormed(KanbanSchema(r, outside)) && Local(KanbanSchema(r, outside))
  {
    var sc := KanbanSchema(r, outside);
    forall kind, f, v ensures sc.derive(kind, f, v).Keys <= sc.derived(kind) + sc.rewritten(kind) {
      KanbanDerives(r, outside, kind, f, v);
    }
    RegisteredDerived(r, outside);
    TriggersPlain(r, outside);
    AttachmentsStored(r, outside);
    KanbanLocal(r, outside);
  }

  /** Which names are computed, derived or rewritten, type by type. */
  lemma ShippedNames(r: Rules, outside: nat, kind: string, n: string)
    ensures var sc := KanbanSchema(r, outside);
            && (n in sc.computed(kind) <==>
                  || (kind == "task" && n in {"tags", "virtual_tags", "filter_tags", "created", "updated", "started",
                                              "completed", "status_date", "progress"})
                  || (kind == "board" && n == "percent_complete"))
            && (n in sc.derived(kind) <==>
                  || (kind == "task" && n in {"tags", "virtual_tags", "filter_tags", "created", "updated", "started",
                                              "completed", "status_date", "progress", "progress_fraction", "short_id",
                                              "ready", "blocked_by", "blocks"})
                  || (kind == "board" && n == "percent_complete"))
            && (n in sc.rewritten(kind) <==> kind == "task" && n == "attachments")
  {
    RegisteredNames(n);
    assert |"task"| != |"board"|;
  }

  lemma Apart(f: string)
    requires f in TIMED
    ensures f != ATTACHMENTS && f != "tags" && f != "virtual_tags" && f != "filter_tags"
  {
    assert ATTACHMENTS[0] == 'a' && |"tags"| == 4 && "virtual_tags"[0] == 'v' && "filter_tags"[0] == 'f';
  }

  /** Stored attachments are read as their descriptions, and the timed fields as
      the rules give them under the outer columns and what is outside. */
  lemma AttachmentsRead(r: Rules, outside: nat, f: Fields, v: Surroundings, n: string)
    ensures At(KanbanSchema(r, outside).derive("task", f, v), ATTACHMENTS) ==
            if At(f, ATTACHMENTS) == Null then Null else r.attach(At(f, ATTACHMENTS), v.outside)
    ensures n in TIMED ==>
              At(KanbanSchema(r, outside).derive("task", f, v), n) == At(r.timed(f, v.first, v.terminal, v.outside), n)
  {
    var d := DeriveTask(r, f, v);
    assert KanbanSchema(r, outside).derive("task", f, v) == d;
    assert ATTACHMENTS[0] == 'a' && |ATTACHMENTS| == 11 && |"tags"| == 4 && "virtual_tags"[0] == 'v' && "filter_tags"[0] == 'f';
    assert ATTACHMENTS !in TIMED by { if ATTACHMENTS in TIMED { Apart(ATTACHMENTS); } }
    if n in TIMED { Apart(n); }
  }

  lemma RegisteredDerived(r: Rules, outside: nat)
    ensures var sc := KanbanSchema(r, outside);
            && (forall kind, n :: n in sc.computed(kind) ==> n in sc.derived(kind))
            && (forall n :: IsFive(n) ==> n in sc.derived("task"))
  {
    var sc := KanbanSchema(r, outside);
    forall n ensures n in sc.computed("task") ==> n in sc.derived("task") { RegisteredNames(n); }
    forall n ensures IsFive(n) ==> n in sc.derived("task") { FiveNames(n); }
  }

  lemma TaskReads(r: Rules, f: Fields, u: Surroundings, v: Surroundings)
    requires u.tagNames == v.tagNames && u.first == v.first && u.terminal == v.terminal && u.outside == v.outside
    ensures DeriveTask(r, f, u) == DeriveTask(r, f, v)
  {
  }

  lemma KanbanLocal(r: Rules, outside: nat)
    ensures Local(KanbanSchema(r, outside))
  {
    var sc := KanbanSchema(r, outside);
    assert |"task"| == 4 && |"board"| == 5;
    forall f, u: Surroundings, v: Surroundings |
      u.tagNames == v.tagNames && u.first == v.first && u.terminal == v.terminal && u.outside == v.outside
      ensures sc.derive("task", f, u) == sc.derive("task", f, v)
    {
      TaskReads(r, f, u, v);
      assert sc.derive("task", f, u) == DeriveTask(r, f, u) && sc.derive("task", f, v) == DeriveTask(r, f, v);
    }
  }

  /** No name of the registry looks like one of the two graph fields. */
  lemma PlainName(r: Rules, outside: nat, n: string)
    requires |n| == 15 || (|n| == 10 && n[0] == 'd')
    ensures Plain(KanbanSchema(r, outside), "task", n)
  {
    ShippedNames(r, outside, "task", n);
    assert "blocked_by"[0] == 'b' && |"attachments"| == 11 && |"progress_fraction"| == 17 && |"board"| == 5 && |"task"| == 4;
  }

  lemma TriggersPlain(r: Rules, outside: nat)
    ensures forall n :: n in TASK_FANOUT_TRIGGER_FIELDS ==> Plain(KanbanSchema(r, outside), "task", n)
  {
    assert TASK_FANOUT_TRIGGER_FIELDS == ["position_column", "depends_on"];
    PlainName(r, outside, "position_column");
    PlainName(r, outside, "depends_on");
  }

  lemma AttachmentsStored(r: Rules, outside: nat)
    ensures forall kind, n :: n in KanbanSchema(r, outside).rewritten(kind) ==> n !in KanbanSchema(r, outside).derived(kind)
  {
    assert |ATTACHMENTS| == 11;
    assert ATTACHMENTS[0] == 'a';
    assert "filter_tags"[0] == 'f' && "status_date"[0] == 's';
  }
}
