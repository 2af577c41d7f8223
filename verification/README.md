# Kanban application: a verified model

This project models the desktop application of the Kanban repository and proves
what its central pieces are for. Every operation is written with the branches,
constants and error cases of the program; the state that the program updates in
place is a class here, and its methods are tied to functions about which the
properties are proved.

## What is modelled

**The bridge from the entity cache to the frontend.** Writers change a board and
queue cache events. The bridge takes them one at a time, later, against whatever
the board is by then; it keeps a `seen` set and one snapshot of computed fields
per task, and sends Created, FieldChanged and Removed events. A remote store
knows nothing but these events. The bridge visits other tasks only when a column
or a dependency changed, and sends only differences from what it sent last.

Reading an entity derives fields from its own and from what is around it: the
names of the tags, the outer columns, the counts of tasks, the clock and the
change logs. The main result (`Quiescence.QuiescentContents`) says exactly what
the replayed store holds whenever the queue is empty, for every interleaving of
writers, outside changes and bridge and from any starting `seen` set: of every
entity its stored fields, its computed fields as derived under the surroundings
of its last own event, and its five cross-task fields as of its last own event
or the last fan-out. Hence when a copy is fresh
(`Quiescence.QuiescentFreshness`), and that it is when nothing moved what the
entity reads since the bridge was last bound to read it
(`Quiescence.QuiescentConvergence`). Over runs that write no tag and no column,
with any changes outside the cache, every task's five fields end fresh, and so
does all of every entity but tasks and the board; a task's own derived fields do
if nothing outside moved them since its own last event was still waiting
(`OrdinaryRuns.OrdinaryConvergence`). An edit that logs itself always brings its
entity right (`OrdinaryRuns.LoggedEditConverges`); the clock, which moves
`status_date` without any event, is what the condition is for. Holding what a
fresh read finds means, throughout: the stored fields that reads leave alone, the
registered computed fields that have a value, and of a task the five cross-task
fields (`Convergence.HeldFor`). `StaleReads` and `KanbanReads` settle the writes
the economy does not cover, with their exact conditions: columns, tags, the
clock, and tasks against the board. Beside it: exactly which events a fan-out
sends, what a snapshot is worth at any moment, the order of announcements, the
startup race, the search index and the perspective filters that ride on the same
stream.

- `Json`, `EntityCache`, `TaskGraph`, `FiveMeaning`, `BatchEnrichment`: values, the
  cache, the cross-task enrichment, what it means in terms of the stored fields,
  and its one-pass batch form.
- `Watcher` (functions), `BridgeState` (the methods that update the bridge in
  place), `Replica`, `EventQueue`, `TaskLists`, `Convergence`, `Delivery`,
  `Fallback` (deliveries without an entity context), `Quiescence`, `Registry`
  (the shipped field registry), `BoardReading`, `StaleReads`, `KanbanReads`,
  `OrdinaryRuns`, `FanOutEvents`, `EventOrder`, `Lifecycle`, `Announcements`,
  `Startup`, `SearchIndex`, `Perspectives`.

**Boards, windows and sessions.** `UiState`, `Boards`, `BoardSafety`, `BoardList`,
`Session`, `QuitTrace`: the open boards, the windows showing them, the most-recent entry,
quitting and restarting. `Sorting`, `Ordinals`, `OrdinalOrder`: the migration of
legacy ordinals. `Discovery`: finding and resolving a board directory. `Counts`:
the board summary and its unsigned subtraction. `SpatialLocks`: the two-lock
discipline.

**Printers, parsers and the self-installing link.** `DeepLink`, `AppleScript`,
`ShellWords`, `ShellLines`, `ProfilePhoto`, `InstallPaths`, `CliInstall`.

## What turned out differently from what the code or its documentation says

- A synthetic FieldChanged can reach the frontend before the Created of its
  entity when two writes are queued (`Announcements.FieldChangeBeforeCreated`);
  it happens exactly when the visited task was not on the board yet when the
  resolved event was written (`Announcements.UnannouncedSynthetic`), and never
  when each write is resolved before the next
  (`Announcements.SyncedAnnouncedFirst`). The store upserts, so convergence holds.
- Without an entity context, an entity the bridge has not seen is announced with the
  changed fields alone, so whatever kept its value is lost from the store
  (`Fallback.RawEventCarries`).
- A write between the `seen` scan and the subscription is in neither, although
  the comment at `apps/kanban-app/src/watcher.rs:679-682` says it is in the scan
  (`Startup.WriteInTheWindow`). The bridge's own guarantees do not depend on it.
- A field-changed event refreshes a derived field only when the registry lists it
  and its fresh value is not null (`FanOutEvents.DerivedRefresh`).
- Moving the terminal column, by reordering or by deleting the last one, changes
  computed fields of tasks that no event mentions
  (`StaleReads.ReorderedColumnGoesStale`, `StaleReads.DeletedColumnGoesStale`).
- So does a new tag that a task's body already mentions
  (`KanbanReads.NewTagGoesStale`), and the creation of any task leaves the
  board's completion stale (`KanbanReads.NewTaskLeavesBoardStale`).
- Attachments are sent as stored file names by a field-changed event, though a
  read replaces them by descriptions (`FanOutEvents.RewrittenRefresh`).
- The search index does not start in step with the store: it loads five entity
  types, and of a task's five cross-task fields only two, as empty lists
  (`SearchIndex.LoadedKanbanTaskAgrees`, `SearchIndex.EditedProjectDiverges`).
- A config that cannot rebuild any window is answered with a fallback window the
  session never had (`QuitTrace.QuitRestartRoundTrip`).
- The batch enrichment and the per-task enrichment disagree on a task that is
  listed twice by one dependant (`BatchEnrichment.ListedTwiceDisagrees`), and,
  under an empty terminal id, on a dependant of a task without a column
  (`BatchEnrichment.BatchRefinesSingle`).
- A board switch that fails leaves its window and the most-recent entry at the
  path that was not opened (`BoardSafety.SwitchOutcome`), and closing the last
  board leaves the most-recent entry at it (`BoardSafety.LastCloseKeepsMostRecent`).
- A close can take the board away from a window that did not ask for it, exactly
  when that is the only window showing it (`BoardSafety.CloseTakesFrom`).
- The privileged install replaces a foreign entry with `ln -sf`, although the
  install is documented as leaving such entries alone; where the entry leads to a
  directory it links inside that instead (`CliInstall.ForeignReplaced`).
- A path with an apostrophe breaks the privileged install's shell command
  (`ShellWords.ShellReadsBack`): with one nothing is linked
  (`CliInstall.OneApostropheFails`), with two something else is
  (`CliInstall.TwoApostrophesMislink`). A missing target directory escalates, and
  the command fails (`CliInstall.NoDirectoryNoLink`).
- A failed write during the ordinal migration leaves it to be run again exactly
  when it hit a task with an invalid ordinal (`OrdinalOrder.StillNeedsMigration`).
- Resolving a path is idempotent exactly when its result exists
  (`Discovery.ResolveIdempotent`), and discovering from within a `.kanban`
  directory may lead out to an enclosing one (`Discovery.DiscoverThenResolveInside`).
- A profile picture dumped on the header's own line is refused
  (`ProfilePhoto.OneLineDumpRefused`).

## Assumptions

- One resolve reads one state of the cache: the re-read of the changed entity and
  the fan-out's task list agree.
- Stored fields name no derived field, and the two graph fields are stored and
  read as they are (`Watcher.WellFormed`, `Watcher.RawOnly`); the shipped registry
  satisfies this (`Registry.KanbanWellFormed`).
- Derived fields are some function of the entity's own stored fields and of its
  surroundings (`Schema.derive`, `Watcher.Surroundings`); only the shipped
  registry's tags, stubs and board completion are written out (`Registry`).
- In `Quiescence` and `OrdinaryRuns` the entity context can be opened; what holds when
  it cannot is in `Fallback`.
- The event channel drops nothing, and the store starts as a faithful copy.
- In `Announcements` the starting `seen` set is exactly the live entities;
  `Startup.WriteInTheWindow` is a start that is not like that.
- Ids are unique across entity types where the search index is concerned; what
  the index and the store start from is free.
- The file system does not change while a path is resolved, and canonicalizing a
  canonical path changes nothing (`Boards.CanonStable`).
- An ordinal's successor is valid and greater (`Ordinals.Lawful`).

## Model

| member | source | states |
|---|---|---|
| Quiescence.QuiescentContents | apps/kanban-app/src/watcher.rs:346-376 | Over every legal interleaving of writes, deletions, attachment changes, outside changes and deliveries, an empty queue means the store holds of every entity its plainly stored fields, its computed fields with a value as derived under the surroundings of its last own event, and its five cross-task fields as of that event or the last fan-out; and no dead entity. |
| Quiescence.QuiescentFreshness | apps/kanban-app/src/watcher.rs:346-376 | In every quiet state a live task's five fields are what a fresh full-board read finds if and only if reading it under its last surroundings gives the same; and a computed field that had a value likewise. |
| Quiescence.QuiescentConvergence | apps/kanban-app/src/watcher.rs:480-512 | In the quiet states of every run: a task's five fields are fresh if no step moved how they read, the graph aside, since the start or since some moment at which its own event or a fan-out waited; and an entity holds all that a fresh read finds if moreover no step but its own writes moved how its own fields derive, since the start or since some moment at which its own event waited. |
| OrdinaryRuns.OrdinaryConvergence | apps/kanban-app/src/watcher.rs:561-607 | In the quiet states of every run that writes no tag and no column, with any changes outside the cache: every live task's five fields are fresh; every entity but tasks and the board holds all that a fresh read finds; and so does a task whose own derived fields no outside change moved since the start or since some moment at which its own event waited. |
| OrdinaryRuns.KanbanConvergence | crates/swissarmyhammer-kanban/src/defaults.rs:93-180 | The same under the shipped registry. |
| OrdinaryRuns.LoggedEditConverges | crates/swissarmyhammer-entity/src/cache.rs:373-456 | From any quiet state of the invariant, an edit that first grows the change log, then reaches cache and queue, and is resolved, leaves its entity with all that a fresh read finds. |
| Registry.KanbanWellFormed | crates/swissarmyhammer-kanban/src/defaults.rs:93-180 | The shipped registry is well formed: a task reads around itself only the tag names and the outer columns, the board only the two counts, the others nothing. |
| Registry.ShippedNames | crates/swissarmyhammer-kanban/src/defaults.rs:93-180 | Which names are computed, derived or rewritten, type by type. |
| Registry.AttachmentsRead | crates/swissarmyhammer-entity/src/context.rs:1681-1745 | Stored attachments are read as their descriptions, absent or null ones as nothing. |
| BoardReading.TaskTagsMean | crates/swissarmyhammer-kanban/src/defaults.rs:93-118 | A task's tags are the slugs its body mentions, in order, that are the name of some tag. |
| BoardReading.CompletionMeans | crates/swissarmyhammer-kanban/src/defaults.rs:148-184 | The board's completion is the tasks in the terminal column, a task without a column counting as in `todo`, all tasks, and their share rounded to the nearest per cent. |
| BoardReading.TerminalMeans | crates/swissarmyhammer-kanban/src/defaults.rs:148-164 | The terminal column is the one of the greatest order, the last of several, or `done`. |
| BoardReading.FirstMeans | crates/swissarmyhammer-kanban/src/defaults.rs:379-402 | The first column is the one of the least order, the last of several, or `todo`. |
| BoardReading.TagNamesMean | crates/swissarmyhammer-kanban/src/defaults.rs:93-118 | The known tag names are the texts stored as `tag_name` of tags. |
| Delivery.RunKeepsInv | apps/kanban-app/src/watcher.rs:450-475 | The invariant behind it, kept by every step of every run: waiting events settle the store on the cache's values, snapshots are truthful where nothing waits, and of an entity with nothing waiting the computed fields are as last read, unless a fan-out is still queued. |
| Delivery.SnapshotsAreHeld | apps/kanban-app/src/watcher.rs:206-238 | In every reachable state the snapshot of a task with no event waiting has all five fields, belongs to a live task and equals what the store holds. |
| Delivery.FanOutTask | apps/kanban-app/src/watcher.rs:346-376 | After a fan-out every live task's snapshot is fresh and, if its baseline was truthful or absent, so is the store's copy; the trigger's copy is not touched. |
| Delivery.FanOutRaw | apps/kanban-app/src/watcher.rs:346-376 | Replaying a fan-out changes no stored field, creates no entity that is not live and removes none. |
| Delivery.PrimaryHeld | apps/kanban-app/src/watcher.rs:520-555 | After the primary event the store's copy of the written entity holds its computed fields as a read now finds them and the stored values the event carried. |
| Delivery.ResolveShape | apps/kanban-app/src/watcher.rs:561-607 | A resolved event is its primary event followed by a full fan-out exactly when the task is unknown, deleted or had a graph field named; otherwise only the task's own snapshot moves. |
| Delivery.FieldChangedAt | apps/kanban-app/src/watcher.rs:405-443 | What one field of the store's copy reads after a field-changed event: the change's own value first, else the appended computed value. |
| EventOrder.AppendedInOrder | apps/kanban-app/src/watcher.rs:405-443 | A field-changed event keeps the raw changes as they came and appends computed values that are not null, sorted by name. |
| Convergence.QuietPutLocal | apps/kanban-app/src/watcher.rs:330-336 | A write that names no graph field of a task moves no other entity's five fields, as read under any fixed surroundings, so visiting nobody loses nothing of the graph. |
| StaleReads.OffGraphWriteConverges | apps/kanban-app/src/watcher.rs:480-607 | After a write to anything but a task, or its deletion, is resolved, the store is right if and only if every other entity stays: its computed fields read alike before and after, and for a task the move of the terminal column spares it and the known tags give it the same filter. |
| StaleReads.OutsideChangeConverges | crates/swissarmyhammer-kanban/src/defaults.rs:540-550 | A change outside the cache, such as the clock, leaves an entity's copy right if and only if the entity stays in the same sense. |
| StaleReads.FiveSpared | crates/swissarmyhammer-kanban/src/task_helpers.rs:236-277 | Two readings of a task give the same five fields if and only if each dependency is met under both terminal columns or neither, a ready or blocking task sits in both or neither, and the filter tags agree. |
| KanbanReads.TagWriteConverges | crates/swissarmyhammer-kanban/src/defaults.rs:93-118 | After a tag is written or deleted the store is right if and only if the known tag names give every task the tags they gave it before. |
| KanbanReads.NewTagGoesStale | crates/swissarmyhammer-kanban/src/defaults.rs:93-118 | A new tag that a task's body mentions leaves that task stale. |
| KanbanReads.BoardAfterTaskWrite | crates/swissarmyhammer-kanban/src/defaults.rs:148-184 | After a task is written or deleted a board's copy is right if and only if the counts of done and of all tasks are as before. |
| KanbanReads.NewTaskLeavesBoardStale | crates/swissarmyhammer-kanban/src/defaults.rs:148-184 | Every creation of a task leaves the board's completion stale. |
| StaleReads.ReorderedColumnGoesStale | apps/kanban-app/src/watcher.rs:480-512 | A board on which reordering two columns leaves a task's computed fields stale. |
| StaleReads.DeletedColumnGoesStale | apps/kanban-app/src/watcher.rs:588-607 | A board on which deleting the last column does. |
| FanOutEvents.ResolvedEvents | apps/kanban-app/src/watcher.rs:561-583 | After the primary event come exactly the live tasks whose five fields differ from their baseline, and none unless the event touches the graph. |
| FanOutEvents.SyntheticOnce | apps/kanban-app/src/watcher.rs:346-376 | No task gets two synthetic events, and each carries exactly the difference from its baseline. |
| EventOrder.SyntheticInOrder | apps/kanban-app/src/watcher.rs:346-376 | The synthetic events are, in the order of the task list, one for each task but the trigger that differs from what was last sent of it. |
| FanOutEvents.PlainEditVisitsNobody | apps/kanban-app/src/watcher.rs:575-582 | An edit of a known task that names no graph field costs one event and moves no other task's snapshot, whatever the size of the board. |
| Announcements.UnannouncedSynthetic | apps/kanban-app/src/watcher.rs:346-376 | In every reachable state of the pipeline, resolving the head of the queue mentions a task that is not announced yet if and only if the event fans out, the task moved and was not on the board when the head was written; the task's own event then still waits in the queue. |
| Announcements.FieldChangeBeforeCreated | apps/kanban-app/src/watcher.rs:498-505 | A run from the empty board in which a FieldChanged precedes its Created: put one task, put another, deliver once. |
| Announcements.SyncedAnnouncedFirst | apps/kanban-app/src/watcher.rs:498-505 | Over every run that starts from a faithful scan and resolves each write before the next, every FieldChanged sent, primary or synthetic, speaks of an entity that was preloaded or created before it and not removed since. |
| Announcements.TrailsRun | apps/kanban-app/src/watcher.rs:480-512 | In every reachable state, what `seen` becomes once a waiting event is resolved is exactly what was live when that event was written. |
| FanOutEvents.DerivedRefresh | apps/kanban-app/src/watcher.rs:405-443 | After a field-changed event a derived field is fresh if and only if it is a registered name with a non-null value or was right already. |
| FanOutEvents.RewrittenRefresh | crates/swissarmyhammer-entity/src/context.rs:1681-1745 | A stored field that reads rewrite is sent as stored: it is fresh afterwards if and only if the value the event leaves it with is the rewritten one. |
| Replica.FanOutReplay | apps/kanban-app/src/watcher.rs:346-376 | Replaying a fan-out patches each visited task from its baseline and leaves every other entity alone; its snapshots are the fresh five fields of every listed task. |
| Replica.DiffSuffices | apps/kanban-app/src/watcher.rs:219-238 | Sending only the differences from a truthful baseline leaves the store with every current field and moves nothing else. |
| Replica.DiffToFields | apps/kanban-app/src/watcher.rs:219-238 | Which fields the difference names, and the values it assigns. |
| BridgeState.ResolveEvent | apps/kanban-app/src/watcher.rs:450-475 | One cache event updates the bridge and yields the events that the specification gives, for every cache, bridge and event. |
| BridgeState.ResolveEntityChanged | apps/kanban-app/src/watcher.rs:480-512 | The changed path in place, with the fallback when the context is missing. |
| BridgeState.ResolveEntityDeleted | apps/kanban-app/src/watcher.rs:588-607 | The deleted path in place: forget, drop the snapshot, fan out. |
| BridgeState.ApplyFanout | apps/kanban-app/src/watcher.rs:561-583 | Fan out or refresh one snapshot, in place. |
| BridgeState.FanOutTaskDependents | apps/kanban-app/src/watcher.rs:346-376 | The loop over all tasks yields the events and snapshots of the specification whose replay `Replica.FanOutReplay` describes. |
| BridgeState.AppendComputedChanges | apps/kanban-app/src/watcher.rs:405-443 | The sorted computed names are appended after the raw changes, skipping named and null ones. |
| BridgeState.RawChangedEvent | apps/kanban-app/src/watcher.rs:616-638 | The fallback without a context updates `seen` and yields the event whose replay `Fallback.RawEventCarries` describes. |
| Fallback.RawEventReads | apps/kanban-app/src/watcher.rs:616-638 | Without a context a known entity's copy that read as before the write reads as after it in every field, and a new entity arrives with all it holds; no other entity moves. |
| Fallback.RawEventCarries | apps/kanban-app/src/watcher.rs:616-638 | For any `seen` set it does if and only if the entity was in it or no field that kept its value had one. |
| Fallback.GoneIsRaw | apps/kanban-app/src/watcher.rs:520-555 | An entity that is gone when its event is resolved is announced as it would be without a context. |
| Fallback.StoredAlwaysArrive | apps/kanban-app/src/watcher.rs:480-495 | Over every legal run in which any of the deliveries may find no context, from a start that has seen every live entity: whenever the queue is empty the store holds every entity's plainly stored fields and no dead entity. |
| BridgeState.FromEntity | apps/kanban-app/src/watcher.rs:208-216 | The snapshot holds exactly the computed task fields that are present. |
| BridgeState.SnapshotDiff | apps/kanban-app/src/watcher.rs:219-238 | The changes name, in field order, exactly what the new snapshot has and the old lacks or holds differently. |
| Json.Diff | crates/swissarmyhammer-entity/src/cache.rs:210-247 | One change for each field that differs, null for a removed one, whatever the order of the hash map. |
| Json.DiffAssigns | crates/swissarmyhammer-entity/src/cache.rs:210-247 | Replaying the diff over the old value of a field gives its new value. |
| TaskGraph.FiveLocal | crates/swissarmyhammer-kanban/src/task_helpers.rs:236-277 | The five fields read nothing of other tasks but their id, column and dependencies. |
| TaskGraph.FiveUnmovedByBareTask | crates/swissarmyhammer-kanban/src/task_helpers.rs:142-207 | A new task without a column and dependencies changes no other task's five fields. |
| TaskGraph.FiveCoherent | crates/swissarmyhammer-kanban/src/virtual_tags.rs:223-360 | Ready means an empty `blocked_by`; BLOCKED is tagged exactly on unready tasks and never with READY; outside the terminal column READY is readiness and BLOCKING is having dependants. |
| FiveMeaning.FiveMeans | crates/swissarmyhammer-kanban/src/task_helpers.rs:142-207 | In terms of the stored fields, for any task list: a task is ready exactly when the first task listed under each id it depends on sits in the terminal column; `blocked_by` is the other dependencies and `blocks` the dependants, both in order; the virtual tags follow in the order of their registration. |
| FiveMeaning.FilterTagsMean | crates/swissarmyhammer-kanban/src/task_helpers.rs:267-277 | `filter_tags` begins with the body tags as they are; a name is in it if and only if it is a body tag or a virtual tag the task carries, READY, BLOCKED or BLOCKING each with its own condition; and no virtual tag is added twice or beside itself. |
| BatchEnrichment.BuildDependencyIndexes | crates/swissarmyhammer-kanban/src/task_helpers.rs:300-345 | The one-pass tables hold every task's dependants, dependencies, column and stub. |
| BatchEnrichment.EnrichAllTaskEntities | crates/swissarmyhammer-kanban/src/task_helpers.rs:413-422 | Every task of the slice is enriched in place from tables built before the first change. |
| BatchEnrichment.BatchRefinesSingle | crates/swissarmyhammer-kanban/src/task_helpers.rs:352-405 | The batch equals the per-task enrichment if and only if no task lists the id twice and it is not, under an empty terminal id, waiting on a task without a column. |
| BatchEnrichment.BatchEnriches | crates/swissarmyhammer-kanban/src/task_helpers.rs:413-422 | So each task of the slice keeps its identity and its other fields and is enriched as the per-task enrichment would exactly under those conditions. |
| BatchEnrichment.ListedTwiceDisagrees | crates/swissarmyhammer-kanban/src/task_helpers.rs:300-405 | Two tasks on which they disagree, under any tables built for them and any terminal column. |
| BatchEnrichment.RepeatedVersusDependents | crates/swissarmyhammer-kanban/src/task_helpers.rs:300-345 | A bucket is never shorter than the reverse lookup, equal to it when each task names the id at most once and longer otherwise. |
| Lifecycle.SeenIsAnnounced | apps/kanban-app/src/watcher.rs:498-505 | Over every event sequence `seen` is exactly the entities whose latest primary event is not a removal, or that were preloaded and never announced; with or without the context. |
| Lifecycle.PrimaryFollowsLog | apps/kanban-app/src/watcher.rs:498-505 | A primary event is Created exactly when the log so far leaves the entity absent, FieldChanged exactly when present, Removed exactly for deletions. |
| Lifecycle.CreatedTwiceRemovedBetween | apps/kanban-app/src/watcher.rs:594-598 | Two Created for one entity have a Removed between them. |
| Lifecycle.FieldChangedAfterCreated | apps/kanban-app/src/watcher.rs:616-638 | After a Removed, or without preloading, a FieldChanged has a Created before it with no Removed in between. |
| Startup.SeenIsScanned | apps/kanban-app/src/watcher.rs:267-277 | The starting `seen` set is exactly what some scan found live. |
| Startup.FirstAnnouncement | apps/kanban-app/src/watcher.rs:679-686 | The first resolved event of an entity is Created if and only if no scan found it. |
| Startup.FirstWriteAfterSubscribe | apps/kanban-app/src/watcher.rs:646-654 | However writer and startup interleave, an entity first written after the subscription is announced as Created. |
| Startup.WriteInTheWindow | apps/kanban-app/src/watcher.rs:679-682 | A write between scan and subscription is in neither the set nor the queue. |
| Startup.SubscribedSteps | apps/kanban-app/src/watcher.rs:646-654 | From the subscription on, writes and deletions do to cache and queue what they do in the running pipeline. |
| Startup.SubscribeFirstMisclassifies | apps/kanban-app/src/watcher.rs:646-654 | With the opposite order a new entity is announced as FieldChanged. |
| SearchIndex.SyncSearchIndex | apps/kanban-app/src/watcher.rs:133-167 | One event updates the index in place as the specification says; attachments touch nothing. |
| SearchIndex.EntitySearchIndex.MergeFields | crates/swissarmyhammer-entity-search/src/index.rs:64-83 | Given fields win over held ones, an unknown id is added, and it becomes stale. |
| SearchIndex.LockstepExactly | apps/kanban-app/src/watcher.rs:812-821 | From any index and any store, after any events they agree on an entity if and only if the events replaced it, or named every field the two disagreed on and touched it if one of them lacked it. |
| SearchIndex.Lockstep | apps/kanban-app/src/watcher.rs:133-167 | Where they start equal and ids are unique across types, they are equal after any event sequence. |
| SearchIndex.LoadedTaskAgrees | apps/kanban-app/src/state.rs:241-251 | A loaded task agrees with an enriched store if and only if it was replaced, or each of the five cross-task fields was named that the loaded copy lacks or holds differently. |
| SearchIndex.LoadedKanbanTaskAgrees | crates/swissarmyhammer-kanban/src/defaults.rs:559-572 | With the shipped registry: `ready`, `blocked_by` and `blocks` named, and each tag list unless it is empty. |
| SearchIndex.UnloadedAgrees | apps/kanban-app/src/state.rs:241-251 | An entity of a type that is not loaded agrees if and only if it was replaced, or touched with every field the store holds named. |
| SearchIndex.EditedProjectDiverges | apps/kanban-app/src/state.rs:241-251 | A project of which one field is edited reads differently in the two. |
| SearchIndex.SharedIdDiverges | apps/kanban-app/src/watcher.rs:133-167 | With an id shared by two types it does not. |
| Perspectives.GroupWindows | apps/kanban-app/src/watcher.rs:905-962 | Every filtered window is in its perspective's group once, no other window is in any. |
| Perspectives.LoadPerspectiveFilters | apps/kanban-app/src/watcher.rs:970-992 | The filter of each grouped perspective that exists, its own text or, when it has none, the empty one. |
| Perspectives.RecomputePerspectiveFilters | apps/kanban-app/src/watcher.rs:905-962 | One evaluation per perspective leaves every window as the naive per-window loop would: every filtered window holds what its perspective's own text evaluates to, an absent text being the empty one, where that succeeds; nothing else of any window moves; and the windows that moved are reported once each. |
| Perspectives.RecomputeSettles | apps/kanban-app/src/watcher.rs:905-962 | Afterwards every filtered, evaluable window is current; windows are current if and only if a recompute changes none. |
| Perspectives.RecomputeGate | apps/kanban-app/src/watcher.rs:839-856 | The recompute runs for exactly the changed and deleted events of tasks. |
| Perspectives.DeskStepMeans | apps/kanban-app/src/watcher.rs:812-829 | What each step does to the windows: a choice takes the perspective and what its text matches, a reassignment drops the filter, and only resolving a task's event recomputes. |
| Perspectives.WindowsStayCurrent | apps/kanban-app/src/watcher.rs:818-829 | Over every run with fixed perspectives whose writes of anything but tasks leave what filters match, once no task event waits each filtered window holds what its own perspective's text now matches. |
| OrdinalOrder.ColumnOrderKept | apps/kanban-app/src/state.rs:257-308 | After a migration each column lists the same tasks in the stable order of the old ordinals, with strictly increasing valid ordinals. |
| OrdinalOrder.ColumnOrderMeans | apps/kanban-app/src/state.rs:257-290 | A column's order is the stable sort by stored ordinal of the tasks in it, those without a column counting as in `todo` and those without an ordinal first. |
| OrdinalOrder.DisplayMeans | apps/kanban-app/src/commands.rs:267-275 | Tasks are displayed by column, then by stored ordinal, a missing one counting as `a0`. |
| OrdinalOrder.MigrationKeepsTasks | apps/kanban-app/src/state.rs:257-308 | No task is lost, added or moved to another column, and no field but its ordinal changes. |
| OrdinalOrder.StillNeedsMigration | apps/kanban-app/src/state.rs:294-308 | The migration runs if and only if some task holds an ordinal that is invalid, and a second one has work if and only if such an ordinal sits on a task whose write failed. |
| OrdinalOrder.SecondMigrationIsNoOp | apps/kanban-app/src/state.rs:257-290 | With every write succeeding, the second migration changes nothing. |
| OrdinalOrder.DisplayOrderKept | apps/kanban-app/src/commands.rs:267-275 | Where every task had a column and an ordinal, the displayed order is the same sequence of tasks. |
| Ordinals.MigrateLegacyOrdinals | apps/kanban-app/src/state.rs:257-290 | Grouping, sorting and reassigning column by column, in any order of the columns and with failing writes, gives the renumbered list. |
| Ordinals.ReassignOrdinalsInColumn | apps/kanban-app/src/state.rs:294-308 | The tasks of the column, and no others, carry the running ordinal of their place, except those whose write fails. |
| Sorting.FilterSort | apps/kanban-app/src/state.rs:257-290 | The sort is stable: filtering after it equals sorting the filtered elements by any order that agrees on them. |
| UiState.UIState.RemoveBoard | crates/swissarmyhammer-commands/src/ui_state.rs:718-730 | The board leaves the open list, in memory and in the file, and every window showing it. |
| UiState.BoardRemoved | crates/swissarmyhammer-commands/src/ui_state.rs:718-730 | The open list loses exactly that board, exactly the windows showing it lose their assignment, and nothing else moves. |
| UiState.UIState.AssignBoard | crates/swissarmyhammer-commands/src/ui_state.rs:761-772 | Only a different board resets the window's perspective and filter. |
| UiState.BoardAssigned | crates/swissarmyhammer-commands/src/ui_state.rs:761-772 | The window shows the board and keeps its geometry; perspective and filter survive exactly an assignment of the board it showed; nothing else moves. |
| UiState.UIState.SwitchWindowPerspective | crates/swissarmyhammer-commands/src/ui_state.rs:574-599 | Reports a change exactly when the perspective or the id list differs. |
| UiState.UIState.MoveGeometry | crates/swissarmyhammer-commands/src/ui_state.rs:1007-1024 | Moves an existing entry in memory and creates none. |
| UiState.GeometryStored | crates/swissarmyhammer-commands/src/ui_state.rs:1007-1024 | A stored geometry is read back and nothing else of the window moves. |
| UiState.PerspectiveSwitched | crates/swissarmyhammer-commands/src/ui_state.rs:574-599 | The window takes the perspective and the ids, keeps its board and geometry, and nothing else moves. |
| UiState.FilePersists | crates/swissarmyhammer-commands/src/ui_state.rs:718-730 | The config file keeps everything but the filtered ids. |
| Boards.AppState.OpenBoardWith | apps/kanban-app/src/state.rs:712-751 | An open board is only touched; a new one is registered under its canonical path; a failed build changes nothing. |
| Boards.AppState.Close | apps/kanban-app/src/state.rs:993-1019 | The board leaves the map and, in memory and in the file, the open list, no other board does; the most-recent entry is handed to an open one, if it named it and one is left. |
| Boards.AppState.DropOrDetachBoard | apps/kanban-app/src/commands.rs:1533-1556 | The last window showing a board drops it, as named and under its canonical path, from the open list; any other is only detached; no other board leaves the list. |
| Boards.AppState.Switch | apps/kanban-app/src/commands.rs:1467-1501 | The command's assignment, the opening, and the reassignment to the canonical path when it succeeds. |
| Boards.AppState.RestorePersistedBoards | apps/kanban-app/src/state.rs:849-872 | Startup opens the listed boards one by one and drops empty and vanished paths from the list, as the specification behind `BoardList.BoardsComeBack` says. |
| Boards.AppState.RestoreWindowBoards | apps/kanban-app/src/state.rs:878-901 | In any order of the windows, exactly the boards of windows that were not open before, are directories and can be built are opened and listed. |
| BoardList.ListedBoards | apps/kanban-app/src/state.rs:712-779 | From any loaded config and over any run, the open list names exactly the boards that were loaded or opened and not closed since; the boards opened and not closed since are exactly the open ones. |
| BoardList.BoardsComeBack | apps/kanban-app/src/state.rs:849-872 | Quit and start again: of the boards loaded or opened and not closed since, the next launch opens exactly those that are still directories and can be built. |
| BoardList.RestoreLists | apps/kanban-app/src/state.rs:849-872 | Restoring takes off the list exactly the empty and vanished paths among those it goes through and puts on exactly what it opens. |
| BoardSafety.RunKeepsSafe | apps/kanban-app/src/state.rs:712-779 | Over every run of opening, switching, closing, focusing and window creation, open boards are listed once, the most-recent entry names one of them while there is any, and every window with a board shows an open one. |
| BoardSafety.LoadedRunKeepsOpenSet | apps/kanban-app/src/state.rs:712-779 | From any loaded config, whatever its windows show and whichever boards fail to open, every run whose switches open their board and whose focused windows show an open board or none, or meet no open board at all, keeps the open boards listed once and the most-recent entry one of them, so a command finds its handle. |
| BoardSafety.FocusOutcome | apps/kanban-app/src/main.rs:326-331 | Focusing a window breaks that if and only if some board is open and the window's own is not. |
| BoardSafety.ActiveHandleExists | apps/kanban-app/src/state.rs:1022-1029 | In such states a command without a board finds the handle of the most-recent board whenever a board is open. |
| BoardSafety.ReopenAddsNothing | apps/kanban-app/src/state.rs:754-779 | Opening a board again by any path to it adds no entry and keeps its handle. |
| BoardSafety.SwitchOutcome | apps/kanban-app/src/commands.rs:1467-1501 | A switch leaves a safe state if and only if the board opens, or the raw path is an open board's key, or nothing was open and the path is empty; a failed one leaves the window and the most-recent entry at the path it did not open; other windows keep their boards. |
| BoardSafety.CloseSparesOthers | apps/kanban-app/src/commands.rs:1507-1556 | A close asked for by a window showing the board leaves every other window's board assigned and open, and detaches the window that asked. |
| BoardSafety.CloseTakesFrom | apps/kanban-app/src/commands.rs:1533-1556 | A close takes another window's board if and only if that window is the only one showing it. |
| BoardSafety.NewWindowShowsOpen | apps/kanban-app/src/commands.rs:808-849 | A new window shows an open board if and only if the board it is given is open, or it is given none and a board is open or the most-recent entry names none. |
| BoardSafety.NewWindowTakes | apps/kanban-app/src/commands.rs:808-849 | The board given, else the most recent one; and an open one whenever there is any and the most-recent entry names an open one or none. |
| BoardSafety.LastCloseKeepsMostRecent | apps/kanban-app/src/state.rs:993-1019 | Closing the last board leaves the most-recent entry naming it. |
| BoardSafety.CloseHandsOver | apps/kanban-app/src/state.rs:993-1019 | Closing an open board hands the most-recent entry on if and only if it named that board and another is open. |
| Session.Application.HandleWindowEvent | apps/kanban-app/src/main.rs:284-344 | Moves and closes are ignored while quitting and for the quick-capture window; a close forgets the window and saves. |
| Session.Application.HandleExitRequested | apps/kanban-app/src/main.rs:356-369 | The quit flag is set and the state saved. |
| Session.Application.CreateWindowImpl | apps/kanban-app/src/commands.rs:966-1006 | A built window with a board is assigned and its geometry stored; a failed build persists nothing. |
| Session.Application.RestoreSessionWindows | apps/kanban-app/src/main.rs:180-227 | Every saved board window that can be built is shown on its board at its geometry and nothing else is, or one fallback window when none could be; the state it leaves is that of the creation events, one for each, in some order. |
| Session.SwitchIsEvent | apps/kanban-app/src/commands.rs:1467-1501 | What a board switch does to the UI state is the session event for it. |
| Session.CloseIsEvent | apps/kanban-app/src/commands.rs:1533-1556 | What a board close does to the UI state is a drop or a detach event. |
| Session.FocusIsEvent | apps/kanban-app/src/main.rs:326-331 | Focusing makes the window's board the most recent, in memory and in the file, and moves nothing else. |
| Session.QuickCaptureIgnored | apps/kanban-app/src/main.rs:284-344 | Nothing that happens to the quick-capture window is kept. |
| Session.StartupEntry | apps/kanban-app/src/main.rs:180-227 | A window that startup creates is entered with its board and the geometry saved, else reported, for it. |
| Session.RestoreReproduces | apps/kanban-app/src/main.rs:180-227 | With every saved board window complete and buildable, the restore shows exactly those and leaves the saved entries as they were. |
| QuitTrace.SavedAtExit | apps/kanban-app/src/main.rs:304-369 | From any loaded config and over any events, the config file at exit holds exactly the windows loaded or given a board and not closed before the exit request, each on its last board (none once that board was dropped) and with exactly the geometry last reported. |
| QuitTrace.LateCloseRemovesNothing | apps/kanban-app/src/main.rs:337-344 | A close after the exit request changes nothing. |
| QuitTrace.QuitRestartRoundTrip | apps/kanban-app/src/main.rs:180-227 | From any loaded config, the next launch shows a window if and only if it was open at exit on a board that is still there and can be built, on that board and at its last geometry; and the fallback window, on its own board, if and only if there is none. |
| QuitTrace.SurvivesSession | apps/kanban-app/src/main.rs:180-227 | A window the second launch restores and nothing in the second session concerns is shown by the third on the same board at the same geometry. |
| Discovery.DiscoverBoard | apps/kanban-app/src/state.rs:1042-1054 | The loop ends and finds what the walk up finds. |
| Discovery.DiscoverIsNearest | apps/kanban-app/src/state.rs:1042-1054 | It is a directory if and only if that is the nearest ancestor holding a `.kanban` directory. |
| Discovery.BackstopLosesNothing | apps/kanban-app/src/state.rs:1061-1077 | Skipping the home directory below it gives the same discovery as always trying it. |
| Discovery.FoundFromEnvironment | apps/kanban-app/src/state.rs:909-934 | The board found is the nearest above the working directory; if there is none, the nearest above home; and if there is none either, the first recent one that is a directory. |
| Discovery.ResolveCases | apps/kanban-app/src/state.rs:1107-1130 | A path resolves to the nearest `.kanban` directory it lies in, else to its own `.kanban` child. |
| Discovery.ResolveIdempotent | apps/kanban-app/src/state.rs:1107-1130 | Resolving twice equals resolving once if and only if the result exists. |
| Discovery.DiscoverThenResolveInside | apps/kanban-app/src/state.rs:1042-1130 | From within a `.kanban` directory, discovering and resolving leads back to it if and only if some directory from there down to the path holds a board or it is not nested in another. |
| Discovery.UnnestedRoundTrip | apps/kanban-app/src/state.rs:1042-1130 | Where none is nested it always does. |
| Discovery.DiscoverThenResolveOutside | apps/kanban-app/src/state.rs:1042-1130 | Outside, the discovered board resolves to the existing child found, and the path resolves there exactly when the walk did not move. |
| Counts.CountTasksByColumn | apps/kanban-app/src/commands.rs:609-626 | Each column's counts are its tasks and its ready tasks, and the totals add up. |
| Counts.BuildBoardSummary | apps/kanban-app/src/commands.rs:652-673 | The subtraction is exact once ready tasks do not exceed tasks. |
| Counts.BoardSummary | apps/kanban-app/src/commands.rs:700-704 | For every task list that holds; each column's counts are the tasks in it and those of them whose dependencies are all done, and the blocked count is the tasks with one that is not. |
| SpatialLocks.NoDeadlock | apps/kanban-app/src/commands.rs:2163-2170 | In every reachable state of any number of commands, while one is unfinished some unfinished one can step. |
| SpatialLocks.NoHalfAppliedUpdate | apps/kanban-app/src/commands.rs:2127-2135 | Every completed command read the outcome of whole commands only, exactly those completed before it. |
| SpatialLocks.FinishedIsSerial | apps/kanban-app/src/commands.rs:2163-2170 | When all are done the data is a serial run of all of them, each once. |
| SpatialLocks.MaximalSchedulesFinish | apps/kanban-app/src/commands.rs:2163-2170 | A schedule that cannot be extended ran every command to its end. |
| SpatialLocks.ScheduleCompletes | apps/kanban-app/src/commands.rs:2163-2170 | Every schedule can be continued until all commands are done. |
| SpatialLocks.AllCanFinish | apps/kanban-app/src/commands.rs:2163-2170 | And there is one for any number of commands. |
| DeepLink.OpenUrlRoundTrip | apps/kanban-cli/src/main.rs:211-222 | Every non-empty text comes back as a path from the printed URL, and the empty one is refused. |
| DeepLink.PrintedAsIs | apps/kanban-cli/src/main.rs:211-222 | Exactly the letters, the digits and the signs `-._~` are printed unescaped. |
| DeepLink.SpellingReadsBack | apps/kanban-app/src/deeplink.rs:24-33 | So does every other spelling of it, whichever bytes are escaped and in either case, that does not end in a slash. |
| DeepLink.ExtractsTexts | apps/kanban-app/src/deeplink.rs:24-33 | A URL gives a path if and only if it has the prefix, goes on with something else than slashes, and what it spells is UTF-8; the path is what it spells. |
| DeepLink.ValidIsText | apps/kanban-app/src/deeplink.rs:30-32 | The bytes accepted as UTF-8 are exactly the encodings of sequences of Unicode scalar values, section 3 of RFC 3629. |
| DeepLink.TrailingSlashesIgnored | apps/kanban-app/src/deeplink.rs:24-33 | Slashes after the printed path make no difference. |
| DeepLink.OpenUrlInjective | apps/kanban-cli/src/main.rs:211-222 | Two paths never print the same URL. |
| AppleScript.TwoPassesAreOne | apps/kanban-app/src/cli_install.rs:312-314 | The two replacement passes equal escaping character by character. |
| AppleScript.EscapeReadsBack | apps/kanban-app/src/cli_install.rs:312-314 | Read as a literal the escape gives the text back and ends at the closing quote, whatever follows. |
| AppleScript.NoUnescapedQuote | apps/kanban-app/src/cli_install.rs:312-314 | No escaped text closes its own literal. |
| AppleScript.ScriptReadsBack | apps/kanban-app/src/cli_install.rs:338-360 | Whatever the paths contain, the script's two literals read back as the explanation and the shell command and end where the template closes them. |
| ShellWords.ShellReadsBack | apps/kanban-app/src/cli_install.rs:338-342 | The shell reads the command as the words ln, -sf and the two paths if and only if neither path holds an apostrophe. |
| ShellLines.LineReadsBack | apps/kanban-app/src/cli_install.rs:338-342 | The reading itself: every list of words is read back, however it is spaced, escaped and quoted. |
| ShellLines.UnreadableRefused | apps/kanban-app/src/cli_install.rs:338-342 | And wherever an unquoted special character, an open quote or the like stands, the line is no plain list of words. |
| ProfilePhoto.JpegPhoto | apps/kanban-app/src/state.rs:1357-1386 | The hex digits of the output, paired up, are returned exactly when they begin like a JPEG and go on; a last digit without a partner is dropped. |
| ProfilePhoto.DumpReadsBack | apps/kanban-app/src/state.rs:1357-1386 | A dump that spells some bytes, in either case and any layout, gives those bytes. |
| ProfilePhoto.SpelledIsRead | apps/kanban-app/src/state.rs:1357-1386 | The nibbles read from a text are exactly those its hex digits spell, in either case, other characters passed over. |
| ProfilePhoto.OneLineDumpRefused | apps/kanban-app/src/state.rs:1357-1386 | Without the header line nothing is accepted after the header's name, whose own E is read as a digit. |
| CliInstall.TargetDirectory.InstallCliSymlink | apps/kanban-app/src/cli_install.rs:162-190 | Under any failure: a file, a directory or a link that does not run through Kanban.app/Contents/MacOS/kanban is left alone and Skipped; Created, AlreadyCurrent and Repaired are answered exactly for an absent entry, this link and another bundle's link, when no step fails, and leave this bundle's link. |
| CliInstall.TargetDirectory.Run | apps/kanban-app/src/cli_install.rs:441-495 | One launch: skip, run the privileged command as the shell reads it, or install. |
| CliInstall.LaunchInstalls | apps/kanban-app/src/cli_install.rs:131-139 | A launch leaves this bundle's link if and only if it stood there; or the directory is writable and the entry was absent or a link through some bundle; or it is not, the user consented, the directory was there, none was met in the entry's place, and the path is text without an apostrophe. |
| CliInstall.LaunchMislinks | apps/kanban-app/src/cli_install.rs:392-426 | A launch leaves something that is neither what it found nor this bundle's link if and only if a consented privileged command is read as linking something else and meets an existing directory but none in the entry's place. |
| InstallPaths.InsideIsThrough | apps/kanban-app/src/cli_install.rs:97-105 | The bundle test holds if and only if Kanban.app, Contents, MacOS and kanban stand in the path in a row, components that are not text passed over. |
| CliInstall.ForeignReplaced | apps/kanban-app/src/cli_install.rs:392-426 | A file, a directory or a link through no bundle is replaced if and only if a consented privileged command is read as a link command to something else, in an existing directory, and the entry does not lead to a directory. |
| CliInstall.LinksThisBundle | apps/kanban-app/src/cli_install.rs:338-342 | The command links this very bundle if and only if its path is text without an apostrophe. |
| CliInstall.OneApostropheFails | apps/kanban-app/src/cli_install.rs:338-342 | With one apostrophe in the path, and plain characters after it, the privileged launch changes nothing. |
| CliInstall.TwoApostrophesMislink | apps/kanban-app/src/cli_install.rs:338-342 | With two, and plain characters between them, the command links to the path without them. |
| CliInstall.NoDirectoryNoLink | apps/kanban-app/src/cli_install.rs:234-246 | Over every history without the target directory nothing is installed. |
| CliInstall.HistoryHeals | apps/kanban-app/src/cli_install.rs:162-227 | Over every history of launches into a writable directory a target that started absent or as a link through a bundle points at the latest bundle. |
| CliInstall.HistorySparesForeign | apps/kanban-app/src/cli_install.rs:97-105 | Over every history whose consented escalations meet a directory, miss theirs, or are not read as a link command, a file, a directory or a link through no bundle is never changed. |
| CliInstall.RelaunchIsNoOp | apps/kanban-app/src/cli_install.rs:131-139 | The launch right after a launch changes nothing. |

## Left out

- The frontend's own refetches: it reloads all entities when a column is created or removed and fetches an entity whose Created payload is empty; the replica follows the event stream alone.
- Floating-point numbers; the board's percentage is rounded exactly.
- Event version numbers, lagged receivers, and the perspective and view event mappings.
- The cache's change detection by content hash: the model compares contents, so hash collisions are not covered.
- The derivation of the other computed fields (progress, the timestamps, `status_date`, `short_id`, `progress_fraction`) and of attachment descriptions: abstract functions of the entity, the outer columns and what is outside the cache.
- The memo of derived values: a read derives afresh here, while the program's may return values derived at an earlier read until something it depends on is written.
- Quiescence.QuiescentFreshness: says nothing of a computed field that had no value when last read, which no event refreshes, nor of stored fields that reads rewrite (`FanOutEvents.RewrittenRefresh`).
- Embeddings and search over the index; `stale_ids` is kept but used for nothing.
- The filter language: evaluating a filter is an abstract function of the board that may fail.
- The ordinal encoding: an abstract scheme whose successor is valid and greater.
- SearchIndex.LockstepExactly: not claimed for ids shared between entity types, where `SearchIndex.SharedIdDiverges` shows lockstep false.
- BoardSafety.RunKeepsSafe: runs from a safe state whose switches succeed and whose new windows are given an open board, or opened without one while a board is open or none was ever current; the other cases are settled exactly by `BoardSafety.SwitchOutcome` and `BoardSafety.NewWindowShowsOpen`, and the open set from any loaded config by `BoardSafety.LoadedRunKeepsOpenSet`.
- BoardSafety.LoadedRunKeepsOpenSet: runs whose switches succeed and whose focused windows show an open board, or none, or meet no open board at all; the other cases are settled exactly by `BoardSafety.SwitchOutcome` and `BoardSafety.FocusOutcome`.
- CliInstall.HistoryHeals: launches into one writable directory without file faults; a switch between the Homebrew and the system directory, paths that are not normalised, and what `ln -sf` leaves inside a directory it meets or does when its words are not the expected ones, are not modelled.
- QuitTrace.QuitRestartRoundTrip: no deep link is opened, and the label and board of the fallback window are parameters.
- QuitTrace.SurvivesSession: the second session begins with the boards that were gone already dropped.
- ShellWords.ShellReadsBack: a command line with expansions, patterns or operators outside quotes is not read as a list of words.
- DeepLink.OpenUrlRoundTrip: the `url` crate's own parsing and the lossy conversion of paths that are not UTF-8 are not part of this model.
- Two boards being opened at the same moment, and the list of recent boards beyond its first entry.
- Failing writes of the config file.
- Tauri windows, menus, dialogs and the tray; only the state they update is kept.
- `resolve_path` and `looks_like_path` of the command line, mention filtering and dynamic command prefixes: one-branch functions.
- The focus kernel behind the spatial commands: a command is any pair of updates to the two locked values.
- The base64 text of the profile picture, and the directory-service process that prints it.
