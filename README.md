# Craftile block editor core, modelled in Dafny

This project models the editing core of the Craftile visual page editor. A
page is a map from block ids to block records, plus an ordered list of
regions. Each region lists the ids of its top-level blocks. A block record
carries its type, its properties, an optional display name, the `disabled`,
`static`, `repeated` and `ghost` flags, its children's ids and its parent's
id.

The model covers:

- the **registry** of block schemas (`BlocksManager`), including the
  `accepts` / `private` parent-child rule and its `*` glob patterns;
- the **history** of undoable commands (`HistoryManager`), bounded to 100
  entries;
- the eight **commands** that edit a page. Each one has an `apply` and a
  `revert`:
  - insert;
  - insert from a preset, which is also used for paste;
  - remove;
  - move;
  - toggle;
  - set property;
  - set name;
  - duplicate.
- the **engine** façade:
  - the checks it runs before building a command;
  - recording in the history, and `undo` / `redo`;
  - `setPage` with its parent back-fill;
  - `exportBlockAsNestedStructure`;
  - the engine constructor.
- the editor's **responsive value** helpers (`getDeviceValue`,
  `setDeviceValue`, `hasDeviceOverride`, `clearDeviceOverride`,
  `getOverriddenDevices`).

## How the model is laid out

Every command is a class that holds its page and its undo state. Its
`Apply` and `Revert` methods change the page in place. Each method's
`ensures` ties the new page, the new command state and the emitted event to
a pure function of the old ones, such as `InsertApplied` / `InsertReverted`
or `MoveApplied` / `MoveReverted`. Lemmas about those functions state what
the source promises:

- what an operation does to the page;
- which errors it reports;
- that `revert` undoes `apply`.

The registry, the history, the id generator and the page are classes too.
Their methods are specified the same way, through `Registered`, `Added`,
`Undone`, `Redone`, `Cut`, `Reinsert`, and so on.

Blocks are values in a map, and JavaScript's shared block objects are
modelled explicitly. Every record carries an `objectId`. A command that
keeps a block object writes through it only while the page still holds
that object (`Pages.Live`, `Pages.WriteBack`). `ToggleBlockCommand` and
`SetBlockNameCommand` hold such an object, and their classes, like the
engine's `undo` / `redo`, follow the code as written. Where that code
misbehaves, a corrected definition stands beside it with the intended
property proved (see Findings).

Optional strings follow JavaScript truthiness: `Given(o)` means "present and
non-empty". `undefined` is `None`, or an absent key.

Ids come from a counter-backed generator (`Ids.IdFor(n)`, which is
injective). Lemmas that need fresh ids assume, as a hypothesis, that the
page holds none of the ids not yet drawn.

Every traversal that recurses over children carries a depth bound equal to
the number of records:

- cloning a subtree;
- deleting a subtree;
- exporting;
- the parent back-fill.

A deeper recursion can only come from a cycle, where the source recurses
forever. It is reported as `Diverges`. `Pages.Acyclic` says a page has no
cycle: some ranking of its records puts every listed child below its
parent. On such a page the bound is never reached: the export, the copy
and the back-fill complete, so `setPage` accepts it.

## Model

| member | source | states |
|---|---|---|
| Registry.Registered | packages/core/src/blocks-manager.ts:10-16 | Registering an already present type fails with `AlreadyRegistered`. Otherwise the type maps to the schema, is appended to the key order, and no other entry changes. |
| Registry.Unregistered | packages/core/src/blocks-manager.ts:30-32 | The flag is true exactly when the type was present. Afterwards the type is gone from the map and the key order, and the other entries are kept. |
| Registry.RegisteredAllConsistent | packages/core/src/blocks-manager.ts:21-25 | A batch of registrations keeps the table consistent: the key order lists exactly the map's keys, each once. |
| Registry.RegisteredAllFresh | packages/core/src/blocks-manager.ts:21-25 | A batch succeeds exactly when it names only unregistered types, each once. A failing batch names an already registered or repeated type. |
| Registry.RegisteredAllOrder | packages/core/src/blocks-manager.ts:21-25 | A successful batch appends its types to the key order, in entry order. |
| Registry.RegisteredAllMaps | packages/core/src/blocks-manager.ts:21-25 | A successful batch maps each of its types to its own schema. |
| Registry.LaterEntriesKeep | packages/core/src/blocks-manager.ts:21-25 | A type that the batch does not name keeps its schema. |
| Registry.MatchesPattern | packages/core/src/blocks-manager.ts:110-124 | The result is the glob reading of the pattern, the lone `*` short-cut included. |
| Registry.CanBeChild | packages/core/src/blocks-manager.ts:80-97 | The result is false for an unregistered parent or one without `accepts`. A private child must be listed by its exact name. Any other child is accepted exactly when some pattern matches it. |
| Registry.PrivateChildIgnoresWildcard | packages/core/src/blocks-manager.ts:91-93 | A private child is refused by a parent that accepts `*` but does not name the child. |
| Registry.WildcardAcceptsPublic | packages/core/src/blocks-manager.ts:96 | A parent accepting `*` takes every non-private child type, registered or not. |
| Registry.BlocksManager.Register | packages/core/src/blocks-manager.ts:10-16 | The table becomes `Registered`'s, or stays the same on the error. |
| Registry.BlocksManager.RegisterMany | packages/core/src/blocks-manager.ts:21-25 | The schemas are registered one by one, and the first duplicate stops the batch with the registrations before it kept. |
| Registry.BlocksManager.Unregister | packages/core/src/blocks-manager.ts:30-32 | The table and the answer are `Unregistered`'s. |
| Registry.Get | packages/core/src/blocks-manager.ts:37-39 | `get` gives a schema exactly for the types `has` reports, which on a consistent table are those in the key order. |
| Registry.Has | packages/core/src/blocks-manager.ts:44-46 | On a consistent table, `has` holds exactly for the types listed in the key order. |
| Glob.Fills | packages/core/src/blocks-manager.ts:115-123 | Soundness of the regex match: for a matched string, the result gives, wildcard by wildcard, the text that expands the pattern into the string. |
| Glob.ExpansionMatches | packages/core/src/blocks-manager.ts:115-123 | Completeness: every expansion of a pattern is matched by it. |
| Glob.MatchesIffExpansion | packages/core/src/blocks-manager.ts:115-123 | A pattern matches exactly the strings that expand it. |
| Glob.LiteralMatchesOnlyItself | packages/core/src/blocks-manager.ts:115-123 | A pattern without `*` matches only the identical string. |
| Glob.StarMatchesAll | packages/core/src/blocks-manager.ts:111-113 | The lone `*` matches every string. |
| Glob.PrefixPattern | packages/core/src/blocks-manager.ts:115-123 | `literal*` matches exactly the strings starting with `literal`. |
| Glob.StarAbsorbs | packages/core/src/blocks-manager.ts:115-123 | A leading `*` in front of a matching pattern may swallow any prefix. |
| Glob.NamespaceExamples | packages/core/src/blocks-manager.ts:115-123 | Namespace and prefix patterns: `@theme/*` matches `@theme/dark` but not `theme/dark`, and `visual-*` matches `visual-card` but not `card-visual`. |
| History.Added | packages/core/src/history-manager.ts:20-32 | The entries after the cursor are dropped. The oldest entry is evicted when the kept entries fill the capacity. The command becomes the last and current entry, so nothing is left to redo. |
| History.Undone | packages/core/src/history-manager.ts:34-44 | With nothing to undo, the state is unchanged and no command is returned. Otherwise the current command is returned and the cursor steps back. |
| History.Redone | packages/core/src/history-manager.ts:46-56 | With nothing to redo, the state is unchanged. Otherwise the cursor steps forward and the command it reaches is returned. |
| History.UndoThenRedo | packages/core/src/history-manager.ts:34-56 | Undo then redo gives back the same state and the same command. |
| History.RedoThenUndo | packages/core/src/history-manager.ts:34-56 | Redo then undo gives back the same state and the same command. |
| History.AddAtCapacityEvicts | packages/core/src/history-manager.ts:25-28 | At capacity with nothing undone, adding drops the oldest entry: the history is the other entries followed by the new command, and its size stays at the capacity. |
| History.AddAfterUndosTruncates | packages/core/src/history-manager.ts:21-23 | After any number of undos, adding a command drops the undone entries and leaves nothing to redo. |
| History.HistoryManager.constructor | packages/core/src/history-manager.ts:12-14 | The history starts empty with cursor -1 and the given capacity. |
| History.HistoryManager.AddCommand | packages/core/src/history-manager.ts:20-32 | The state becomes `Added`'s, and the invariant is kept: the size stays within the capacity and the cursor stays in range. |
| History.HistoryManager.Undo | packages/core/src/history-manager.ts:34-44 | The state and the returned command are `Undone`'s. |
| History.HistoryManager.Redo | packages/core/src/history-manager.ts:46-56 | The state and the returned command are `Redone`'s. |
| History.HistoryManager.Clear | packages/core/src/history-manager.ts:66-69 | The history is emptied and the cursor reset to -1. |
| History.HistoryManager.CanUndo | packages/core/src/history-manager.ts:58-60 | On a valid history, undo is possible exactly when there is a command at the cursor. |
| History.HistoryManager.CanRedo | packages/core/src/history-manager.ts:62-64 | On a valid history, redo is possible exactly when there is a command just after the cursor. |
| Ids.Digits | packages/core/src/utils.ts:3-9 | The decimal digits of a number, all of them digit characters. |
| Ids.DigitsInjective | packages/core/src/utils.ts:3-9 | Different numbers have different digit strings. |
| Ids.IdFor | packages/core/src/utils.ts:3-9 | The n-th generated id is a non-empty string. |
| Ids.IdForInjective | packages/core/src/utils.ts:3-9 | Distinct draws give distinct ids, so generated ids never collide. |
| Ids.IdGenerator.Generate | packages/core/src/utils.ts:3-9 | Returns the id for the current counter and advances the counter. |
| Lists.IndexOf | packages/core/src/commands/remove-block.ts:33-40 | `indexOf` is -1 exactly when the element is absent. Otherwise it gives the first position holding the element. |
| Lists.IndexOfUnique | packages/core/src/commands/remove-block.ts:33-40 | An occurrence with none before it is the one `indexOf` finds. |
| Lists.SpliceStart | packages/core/src/commands/remove-block.ts:59-85 | `splice`'s start position: a negative start counts from the end and stops at 0, and a start past the end means the end. |
| Lists.RemoveUndoesInsert | packages/core/src/commands/insert-block.ts:94-113 | Removing at a position undoes inserting there. |
| Lists.InsertUndoesRemove | packages/core/src/commands/remove-block.ts:59-85 | Inserting the removed element back at its position undoes removing it. |
| Lists.RemoveOnlyOccurrence | packages/core/src/commands/remove-block.ts:33-48 | In a duplicate-free list, removing the one occurrence removes the element entirely. |
| Lists.Place | packages/core/src/commands/insert-block.ts:59-65 | An index in `[0, len]` is the position used, and anything else appends. The element lands at the returned position and the rest keep their order. |
| Lists.RemoveUndoesPlace | packages/core/src/commands/insert-block.ts:101-113 | Splicing at the recorded index removes the placed element again. |
| Lists.Without | packages/core/src/blocks-manager.ts:30-32 | The list with every occurrence of `x` removed. |
| Pages.FindRegion | packages/core/src/commands/insert-block.ts:69 | `regions.find` by name gives the first region with that name, or none when no region has it. |
| Pages.RegionWith | packages/core/src/commands/remove-block.ts:41-48 | `regions.find` by content gives the first region listing the id, or none. |
| Pages.EnsureRegion | packages/core/src/commands/insert-block.ts:69-74 | Gives the region with the name, pushing a new empty region only when none has it. The existing regions are unchanged. |
| Pages.FindRegionByNames | packages/core/src/commands/insert-block.ts:69 | The lookup by name reads only the region names. |
| Pages.DistinctNamesFind | packages/core/src/commands/move-block.ts:107-153 | With distinct names, a region is found again by its own name. |
| Pages.Cut | packages/core/src/commands/remove-block.ts:33-48 | Only the container's list changes: the keys, every record but the parent's, the region count and names stay. With a parent the regions are untouched, and without one the records are. The index it finds is `ReinsertUndoesCut`'s subject. |
| Pages.Reinsert | packages/core/src/commands/remove-block.ts:59-85 | Splicing back adds and removes no key and no region. That it undoes `Cut` is `ReinsertUndoesCut`. |
| Pages.Live | packages/core/src/commands/set-block-name.ts:23-37 | The held object as it now stands keeps its object identity. When it coincides with the page's record is `SetBlockName.AsWrittenWhileHeld`. |
| Pages.WriteBack | packages/core/src/commands/set-block-name.ts:37 | A write through a held object changes no region, no key and no other record. |
| Pages.CutClears | packages/core/src/commands/remove-block.ts:33-48 | On a well-formed page, cutting a block out of the container its `parentId` names finds it at a non-negative index and leaves its id in no container. |
| Pages.ReinsertUndoesCut | packages/core/src/commands/remove-block.ts:59-85 | Splicing back at the index the cut found restores the page, also when regions were appended in between. |
| Pages.CutUndoesIntoChildren | packages/core/src/commands/move-block.ts:107-153 | Cutting a block just placed among a parent's children takes exactly that placement back. |
| Pages.CutUndoesIntoRegion | packages/core/src/commands/move-block.ts:107-153 | Cutting a top-level block just placed in a region takes exactly that placement back, leaving behind any region pushed for it. |
| Pages.Page.CutOut | packages/core/src/commands/remove-block.ts:33-48 | Changes the page as `Cut` says and returns its index and region name. |
| Pages.Page.SpliceBack | packages/core/src/commands/remove-block.ts:59-85 | Changes the page as `Reinsert` says. |
| Pages.Page.PlaceChild | packages/core/src/commands/insert-block.ts:59-65 | Places the id among the parent's children by the index-or-append rule. |
| Pages.Page.AttachToParent | packages/core/src/commands/insert-block.ts:50-65 | Writes the parent's id into the record, then places the id among the parent's children. |
| Pages.Page.AttachToRegion | packages/core/src/commands/insert-block.ts:66-83 | Places the id in the region with the name, which is pushed first when absent. |
| Pages.SelfChildCyclic | packages/core/src/engine.ts:473-486 | A record listing itself as a child is a cycle, which no ranking allows. |
| Defaults.FieldDefaults | packages/core/src/commands/insert-block.ts:130-142 | Only fields that declare a default contribute a key. |
| Defaults.LastDefaultWins | packages/core/src/commands/insert-block.ts:130-142 | A key's value is the default of the last field with that id that declares one: the loop writes each default over the earlier ones. |
| Defaults.PresetProperties | packages/core/src/commands/insert-block-from-preset.ts:249-267 | The preset's properties override the schema defaults. Defaults without an override are kept. |
| Defaults.BuildProperties | packages/core/src/commands/insert-block.ts:130-142 | The loop over the fields computes `FieldDefaults`. |
| Defaults.BuildMergedProperties | packages/core/src/commands/insert-block-from-preset.ts:249-267 | The defaults loop followed by `Object.assign` computes `PresetProperties`. |
| InsertBlock.InsertOutcome | packages/core/src/commands/insert-block.ts:39-92 | On a fresh id, `apply` fails exactly when a given parent is missing (the new record is left behind) or there is no region. Otherwise the new record is on the page and the event names its index. |
| InsertBlock.InsertIntoParent | packages/core/src/commands/insert-block.ts:50-65 | Under an existing parent, the id lands at the given index or at the end. `actualIndex` is that position, the rest keep their order, and no other record changes. |
| InsertBlock.InsertIntoRegion | packages/core/src/commands/insert-block.ts:66-83 | At top level, the target is the region name or else the first region's name, pushed when missing. The id is placed by the same rule and no other record changes. |
| InsertBlock.AttachedOverwrites | packages/core/src/commands/insert-block.ts:48 | A record already under the id plays no part: it is overwritten first. |
| InsertBlock.AttachedFrame | packages/core/src/commands/insert-block.ts:48-83 | Attaching adds one key and its record. Of the other records, only the parent's children list changes. |
| InsertBlock.InsertRoundTrip | packages/core/src/commands/insert-block.ts:94-120 | `apply` then `revert` restores the block map exactly, and the regions too, except for a region `apply` had to create, which stays behind empty. |
| InsertBlock.AttachedRoundTrip | packages/core/src/commands/insert-block.ts:94-113 | The same round trip holds for any record attached under a fresh id. |
| InsertBlock.SelfParentRoundTrip | packages/core/src/commands/insert-block.ts:101-105 | A record named as its own parent: deleting it takes the splice target with it. |
| InsertBlock.ParentRoundTrip | packages/core/src/commands/insert-block.ts:101-105 | In the parent case, the parent's children list is restored. |
| InsertBlock.RegionRoundTrip | packages/core/src/commands/insert-block.ts:106-113 | In the region case, the target region's list is restored. |
| InsertBlock.InsertBlockCommand.constructor | packages/core/src/commands/insert-block.ts:27-37 | Draws the id and computes the properties from the schema defaults. |
| InsertBlock.InsertBlockCommand.Apply | packages/core/src/commands/insert-block.ts:39-92 | The page, state and event are `InsertApplied`'s. |
| InsertBlock.InsertBlockCommand.Revert | packages/core/src/commands/insert-block.ts:94-120 | The page and event are `InsertReverted`'s. |
| InsertBlock.AttachRecord | packages/core/src/commands/insert-block.ts:48-83 | Writes the record, then places it as `Attached` says. |
| InsertFromPreset.FromStructureFields | packages/core/src/commands/insert-block-from-preset.ts:73-117 | The flags are copied. The name falls back to the schema's display name, then to the type. The semantic id falls back to the structure's id. |
| InsertFromPreset.CreateOne | packages/core/src/commands/insert-block-from-preset.ts:207-247 | An id is drawn even for a skipped structure. A registered structure becomes a record under the parent, with its children created below it. |
| InsertFromPreset.Created | packages/core/src/commands/insert-block-from-preset.ts:207-247 | The loop returns the created children's ids, in order, one per registered structure. |
| InsertFromPreset.Prepared | packages/core/src/commands/insert-block-from-preset.ts:33-68 | Construction fails unless a preset index or data is given, the type is registered and the preset exists. The properties are the defaults overwritten by the preset's. |
| InsertFromPreset.CreateOneGrows | packages/core/src/commands/insert-block-from-preset.ts:207-247 | One iteration adds exactly `Count` records, under distinct newly drawn ids, and keeps every existing record. |
| InsertFromPreset.CreatedGrows | packages/core/src/commands/insert-block-from-preset.ts:207-247 | The loop adds exactly `CountAll` records, under distinct newly drawn ids. |
| InsertFromPreset.MirrorsFrame | packages/core/src/commands/insert-block-from-preset.ts:207-247 | Whether records mirror their structures depends only on the records created. |
| InsertFromPreset.CreateOneMirrors | packages/core/src/commands/insert-block-from-preset.ts:207-247 | An id is returned exactly for a registered structure. Its record is built from the structure, and its children mirror the structure's children. |
| InsertFromPreset.CreatedMirrors | packages/core/src/commands/insert-block-from-preset.ts:207-247 | Every returned id names a record that mirrors its structure. |
| InsertFromPreset.PresetCreates | packages/core/src/commands/insert-block-from-preset.ts:70-166 | `apply` creates exactly `1 + CountAll` records, under distinct fresh ids, the root's first. The counters advance by as many, and no existing record changes except the parent's children. |
| InsertFromPreset.PresetCreatesIds | packages/core/src/commands/insert-block-from-preset.ts:70-121 | The recorded ids are distinct and are exactly the keys added. |
| InsertFromPreset.PresetCreatesPage | packages/core/src/commands/insert-block-from-preset.ts:122-157 | The root is attached by the insert placement rule. |
| InsertFromPreset.PresetRoundTrip | packages/core/src/commands/insert-block-from-preset.ts:168-197 | `apply` then `revert` restores the block map exactly, every created record being deleted, and the regions too, except a region `apply` created. |
| InsertFromPreset.InsertFromPresetCommand.Apply | packages/core/src/commands/insert-block-from-preset.ts:70-166 | The page, counters and state are `PresetApplied`'s. |
| InsertFromPreset.InsertFromPresetCommand.PresetRoot | packages/core/src/commands/insert-block-from-preset.ts:73-117 | The root record is built from the given structure, or from the preset the index names. |
| InsertFromPreset.InsertFromPresetCommand.WriteTree | packages/core/src/commands/insert-block-from-preset.ts:225-243 | Writes a record, then creates its children below it, as `CreateOne` says. |
| InsertFromPreset.InsertFromPresetCommand.CreateChildren | packages/core/src/commands/insert-block-from-preset.ts:207-247 | The loop's page, counters and ids are `Created`'s. |
| InsertFromPreset.InsertFromPresetCommand.CreateChild | packages/core/src/commands/insert-block-from-preset.ts:212-245 | One iteration is `CreateOne`. |
| InsertFromPreset.InsertFromPresetCommand.Revert | packages/core/src/commands/insert-block-from-preset.ts:168-197 | The page and event are `PresetReverted`'s. |
| InsertFromPreset.NewInsertFromPreset | packages/core/src/commands/insert-block-from-preset.ts:33-68 | The id is drawn first. The command is built exactly when `Prepared` succeeds, and otherwise its error is returned. |
| RemoveBlock.RemoveMissing | packages/core/src/commands/remove-block.ts:27-29 | A missing id fails, changes nothing and forgets the recorded block. |
| RemoveBlock.RemoveEffect | packages/core/src/commands/remove-block.ts:24-57 | On a well-formed page, `apply` deletes exactly the block's record and leaves every other record but its parent's unchanged (descendants stay). Afterwards the id occurs in no container. |
| RemoveBlock.RemoveRoundTrip | packages/core/src/commands/remove-block.ts:59-85 | On a well-formed page with named regions, `apply` then `revert` gives back the same page: the same record, at its index, in its container. |
| RemoveBlock.RoundTripFromCut | packages/core/src/commands/remove-block.ts:59-85 | The round trip follows once the cut is known to be undone by the splice back. |
| RemoveBlock.OrphanIsLost | packages/core/src/commands/remove-block.ts:41-85 | A parentless block that no region lists is deleted and never comes back, because no index was recorded. |
| RemoveBlock.RemoveBlockCommand.constructor | packages/core/src/commands/remove-block.ts:18-22 | Records the page and id with an empty undo state. |
| RemoveBlock.RemoveBlockCommand.Apply | packages/core/src/commands/remove-block.ts:24-57 | The page, state and result are `RemoveApplied`'s. |
| RemoveBlock.RemoveBlockCommand.Revert | packages/core/src/commands/remove-block.ts:59-85 | The page and event are `RemoveReverted`'s. |
| ToggleBlock.ToggleMissing | packages/core/src/commands/toggle-block.ts:26-30 | A missing block fails and leaves the page as it was. |
| ToggleBlock.ToggleSetsFlag | packages/core/src/commands/toggle-block.ts:25-45 | The flag becomes the target, or the negation of the old flag (undefined counting as false). The event carries the new and old flags, and nothing else changes. |
| ToggleBlock.AsWrittenRestoresDefined | packages/core/src/commands/toggle-block.ts:47-63 | With a defined original flag, `revert` as written restores the page. |
| ToggleBlock.AsWrittenNegatesUndefined | packages/core/src/commands/toggle-block.ts:52-56 | With an undefined original flag, `revert` as written negates the flag `apply` set. |
| ToggleBlock.AsWrittenUndoDisables | packages/core/src/commands/toggle-block.ts:52-56 | Undoing an explicit enable of a block whose flag was undefined leaves it disabled. |
| ToggleBlock.ToggleRoundTrip | packages/core/src/commands/toggle-block.ts:47-63 | With the corrected `revert`, `apply` then `revert` gives back the page, except that undefined comes back as `false`. The block is exactly as disabled as before. |
| ToggleBlock.ToggleBlockCommand.constructor | packages/core/src/commands/toggle-block.ts:18-23 | Records the page, id and target with an empty undo state. |
| ToggleBlock.ToggleBlockCommand.Apply | packages/core/src/commands/toggle-block.ts:25-45 | The page, state and result are `ToggleApplied`'s. |
| ToggleBlock.ToggleBlockCommand.Revert | packages/core/src/commands/toggle-block.ts:47-63 | The page, state and event are `ToggleRevertedAsWritten`'s: the original flag is written back through the held object when defined; when undefined, the current flag is negated. |
| MoveBlock.TargetRegion | packages/core/src/commands/move-block.ts:78-94 | The target region name is `targetRegionName`, else the first region's name, else `main`. With no regions at all, reading the first region fails. |
| MoveBlock.MoveRejected | packages/core/src/commands/move-block.ts:39-45 | A missing block or a missing target parent fails and leaves the page as it was. |
| MoveBlock.MoveRoundTrip | packages/core/src/commands/move-block.ts:107-153 | On a well-formed page with named regions, a move that passes its checks succeeds. `revert` then restores every record and the regions, except a target region `apply` created. |
| MoveBlock.MoveToParentRoundTrip | packages/core/src/commands/move-block.ts:107-153 | The round trip of a move under a target parent. |
| MoveBlock.MoveToRegionRoundTrip | packages/core/src/commands/move-block.ts:107-153 | The round trip of a move to top level. |
| MoveBlock.AppliedToParent | packages/core/src/commands/move-block.ts:69-77 | Under a target parent, the cut page gains the id at the placement index and the record's `parentId` becomes the target. |
| MoveBlock.AppliedToRegion | packages/core/src/commands/move-block.ts:78-94 | At top level, the id is placed in the target region, pushed when absent, and `parentId` is cleared. |
| MoveBlock.UnplaceFromParent | packages/core/src/commands/move-block.ts:107-153 | `revert` after a move under a parent comes back to the page the first cut left, before the splice back. |
| MoveBlock.UnplaceFromRegion | packages/core/src/commands/move-block.ts:107-153 | `revert` after a move to top level comes back to the page the first cut left, plus any pushed region. |
| MoveBlock.MoveEffect | packages/core/src/commands/move-block.ts:36-105 | On a well-formed page, a move that passes its checks succeeds and leaves the block in its target container and in no other. |
| MoveBlock.MovedToParent | packages/core/src/commands/move-block.ts:69-77 | The parent case of `MoveEffect`. |
| MoveBlock.MovedToRegion | packages/core/src/commands/move-block.ts:78-94 | The top-level case of `MoveEffect`. |
| MoveBlock.MoveBlockCommand.constructor | packages/core/src/commands/move-block.ts:27-34 | Records the page, id and target with an empty undo state. |
| MoveBlock.MoveBlockCommand.Apply | packages/core/src/commands/move-block.ts:36-105 | The page, state and result are `MoveApplied`'s. |
| MoveBlock.MoveBlockCommand.Revert | packages/core/src/commands/move-block.ts:107-153 | The page and event are `MoveReverted`'s. |
| SetBlockProperty.Assigned | packages/core/src/commands/set-block-property.ts:40 | The key holds the new value. Every other key is unchanged. An undefined value is represented by removing the key, where the source keeps the key holding `undefined` (see Left out). |
| SetBlockProperty.PropertyMissing | packages/core/src/commands/set-block-property.ts:31-33 | A missing block fails and leaves the page as it was, and `revert` then changes nothing. |
| SetBlockProperty.PropertySetEffect | packages/core/src/commands/set-block-property.ts:28-48 | The key holds the new value. Every other key, field and record is unchanged, and the event carries the new and old values. |
| SetBlockProperty.PropertyRoundTrip | packages/core/src/commands/set-block-property.ts:50-67 | `apply` then `revert` gives back the page exactly, deleting a key that was absent. The revert event swaps the values. |
| SetBlockProperty.SetBlockPropertyCommand.constructor | packages/core/src/commands/set-block-property.ts:20-26 | Records the page, id, key and value with an empty undo state. |
| SetBlockProperty.SetBlockPropertyCommand.Apply | packages/core/src/commands/set-block-property.ts:28-48 | The page, state and result are `PropertyApplied`'s. |
| SetBlockProperty.SetBlockPropertyCommand.Revert | packages/core/src/commands/set-block-property.ts:50-67 | The page and event are `PropertyReverted`'s. |
| SetBlockName.NameApplyEffect | packages/core/src/commands/set-block-name.ts:32-46 | The block's name becomes the new name, and no other field or record changes. |
| SetBlockName.NameRoundTrip | packages/core/src/commands/set-block-name.ts:48-62 | With the old name captured from the page, `apply` then `revert` gives back the page, and the events carry the names swapped. |
| SetBlockName.AsWrittenWhileHeld | packages/core/src/commands/set-block-name.ts:23-53 | While the page still holds the kept object, writing through it is the same as re-reading the record. |
| SetBlockName.StaleNameAfterRedo | packages/core/src/commands/set-block-name.ts:23-37 | After insert, rename, undo both, and redo both, the block on the page stays unnamed as written. Re-reading names it. |
| SetBlockName.SetBlockNameCommand.constructor | packages/core/src/commands/set-block-name.ts:18-30 | Records the page, id, new name, old name and the block object to write through. |
| SetBlockName.SetBlockNameCommand.Apply | packages/core/src/commands/set-block-name.ts:32-46 | Never fails. The page, the held object and the event are `NameAppliedAsWritten`'s: the name is written through the object kept since construction. |
| SetBlockName.SetBlockNameCommand.Revert | packages/core/src/commands/set-block-name.ts:48-62 | Always emits. The page, the held object and the event are `NameRevertedAsWritten`'s: the old name, undefined included, is written through the held object. |
| SetBlockName.NewSetBlockName | packages/core/src/commands/set-block-name.ts:18-30 | Construction fails exactly for a missing block. Otherwise the command holds the block now on the page, and its name as the old name. |
| DuplicateBlock.CloneTreeGrows | packages/core/src/commands/duplicate-block.ts:85-107 | Cloning under a fresh id adds records only under newly drawn ids, the copy's own among them. |
| DuplicateBlock.CloneChildrenGrows | packages/core/src/commands/duplicate-block.ts:93-102 | The loop over the children adds records only under the ids it draws. |
| DuplicateBlock.CloneTreeCopies | packages/core/src/commands/duplicate-block.ts:85-107 | The copy's children are, in order, copies of the original's children. Each copy is the original with a new id and parent. |
| DuplicateBlock.CloneChildrenCopies | packages/core/src/commands/duplicate-block.ts:93-102 | The loop copies the existing children in order. |
| DuplicateBlock.CloneTreeCount | packages/core/src/commands/duplicate-block.ts:85-107 | A completed copy draws one id per record of the original subtree. |
| DuplicateBlock.CloneTreeRemoved | packages/core/src/commands/duplicate-block.ts:192-203 | `removeBlockAndChildren` from a completed copy's id deletes exactly the records the copy added. |
| DuplicateBlock.CloneTreeFails | packages/core/src/commands/duplicate-block.ts:85-107 | A copy stops short only by reaching the depth bound. |
| DuplicateBlock.CopyRecords | packages/core/src/commands/duplicate-block.ts:85-107 | A completed copy keeps every record. It adds one record per record of the subtree, under fresh ids, the root's among them. |
| DuplicateBlock.CloneTreeCompletes | packages/core/src/commands/duplicate-block.ts:85-107 | With a ranking of the records, a copy whose depth is above the children's ranks completes. |
| DuplicateBlock.CloneChildrenCompletes | packages/core/src/commands/duplicate-block.ts:93-102 | The loop over children ranked below the depth completes. |
| DuplicateBlock.CopyCompletes | packages/core/src/commands/duplicate-block.ts:85-107 | On a page without cycles whose children lists name only its records, with fresh ids, copying any block completes. |
| DuplicateBlock.LocatedOnPage | packages/core/src/commands/duplicate-block.ts:109-136 | The copy goes right after the original: in the parent's children, or in the first region listing it. |
| DuplicateBlock.DuplicateCopies | packages/core/src/commands/duplicate-block.ts:29-51 | On a well-formed page with fresh ids, a completed copy makes `apply` succeed. Only the parent's record changes among the old ones, and one record is added per subtree record. |
| DuplicateBlock.DuplicateSucceeds | packages/core/src/commands/duplicate-block.ts:29-51 | On a well-formed page without cycles, with fresh ids, `apply` on an existing block succeeds, records the first id drawn, and adds one record per subtree record. |
| DuplicateBlock.DuplicatePlacement | packages/core/src/commands/duplicate-block.ts:109-160 | The copy's id is placed right after the original, and the event names that parent and index. |
| DuplicateBlock.DuplicateRoundTrip | packages/core/src/commands/duplicate-block.ts:53-59 | On a well-formed page with fresh ids, `apply` whose copy completes, then `revert`, gives back the very same page. |
| DuplicateBlock.DuplicateMissing | packages/core/src/commands/duplicate-block.ts:30-33 | A missing block fails without drawing or copying, and `revert` then changes nothing. |
| DuplicateBlock.RedoDrawsNewId | packages/core/src/commands/duplicate-block.ts:35 | A second `apply` after `revert` draws a different id than the one the first event announced. |
| DuplicateBlock.RedrawnId | packages/core/src/commands/duplicate-block.ts:35-37 | `apply` on a found block records the first id it draws as the copy's id. |
| DuplicateBlock.DuplicateBlockCommand.Apply | packages/core/src/commands/duplicate-block.ts:29-51 | The page, counters and state are `DuplicateApplied`'s. |
| DuplicateBlock.DuplicateBlockCommand.CloneBlock | packages/core/src/commands/duplicate-block.ts:85-107 | The page and counters are `CloneTree`'s. |
| DuplicateBlock.DuplicateBlockCommand.DetermineInsertLocation | packages/core/src/commands/duplicate-block.ts:109-136 | The location and error are `Located`'s. |
| DuplicateBlock.DuplicateBlockCommand.InsertDuplicatedBlock | packages/core/src/commands/duplicate-block.ts:138-160 | The page is `Placed`'s. |
| DuplicateBlock.DuplicateBlockCommand.Revert | packages/core/src/commands/duplicate-block.ts:53-59 | The page and result are `DuplicateReverted`'s. |
| DuplicateBlock.DuplicateBlockCommand.RemoveBlockAndChildren | packages/core/src/commands/duplicate-block.ts:192-203 | The map and completion flag are `RemoveTree`'s. |
| DuplicateBlock.NewDuplicateBlock | packages/core/src/commands/duplicate-block.ts:23-27 | The command records only the page, the generator and the id. A missing block is reported later by `apply`. |
| Export.ExportOutcome | packages/core/src/engine.ts:279-302 | An unknown id fails with `Block not found`. A successful export copies type, id, semantic id, name, flags and properties, and has one child per listed child, in order. |
| Export.ExportedAllEach | packages/core/src/engine.ts:298 | A list export has one entry per id, each that id's own export. |
| Export.ExportIgnoresLinks | packages/core/src/engine.ts:285-295 | Pages that differ only in `parentId` and `ghost` export alike. |
| Export.ExportSize | packages/core/src/engine.ts:279-302 | A successful export has as many nodes as the subtree has records. |
| Export.ExportCompletes | packages/core/src/engine.ts:279-302 | With a ranking of the records, a depth above the block's rank never diverges, and succeeds when every listed child exists. |
| Export.ExportBlockCompletes | packages/core/src/engine.ts:279-302 | On a page without cycles, the export with the engine's depth bound never diverges, and succeeds for every record when the children lists name only records. |
| Export.ExportBlock | packages/core/src/engine.ts:279-302 | An unknown id throws `Block not found`. A success exports the record's id and type with one entry per listed child. On a page without cycles whose children lists name only records, every record exports. |
| Export.RegisteredCount | packages/core/src/commands/insert-block-from-preset.ts:207-247 | With every type registered, no child is skipped: one record per node. |
| Export.ExportPasteCount | packages/core/src/engine.ts:279-354 | Pasting the export of a block whose types are all registered creates as many records as the block's subtree has. |
| Engine.InsertCheckPasses | packages/core/src/engine.ts:54-68 | An insert passes the checks exactly when the type is registered and any given parent exists and accepts it. |
| Engine.PresetCheckPasses | packages/core/src/engine.ts:107-125 | A preset insert passes the checks exactly when the preset exists and the parent checks pass, and then the command's own construction succeeds. |
| Engine.MoveCheckPasses | packages/core/src/engine.ts:177-188 | A move to a parent passes the checks exactly when both blocks exist and the target accepts the type. A move without a target parent is not checked. |
| Engine.InsertGoesToFirstRegion | packages/core/src/engine.ts:70-77 | An engine insert without a parent lands in the first region whatever region was asked for, and the other regions are untouched. |
| Engine.MoveGoesToFirstRegion | packages/core/src/engine.ts:190-196 | An engine move without a target parent lands in the first region whatever region was asked for. |
| Engine.CutKeepsNames | packages/core/src/commands/move-block.ts:47-66 | Cutting keeps every region's name. |
| Engine.BackFillKeepsWellFormed | packages/core/src/engine.ts:472-489 | On a well-formed page the back-fill changes nothing. |
| Engine.BackFillUsesTheLister | packages/core/src/engine.ts:472-489 | A parentless child with a single lister gets exactly that lister's id. |
| Engine.BackFillKeepsParents | packages/core/src/engine.ts:478-480 | A parent that was set is never overwritten, and only `parentId` changes. |
| Engine.BackFillKeepsExport | packages/core/src/engine.ts:472-489 | The back-fill does not change what any block exports. |
| Engine.KeyList | packages/core/src/engine.ts:376 | `Object.keys` lists every key once. |
| Engine.Engine.constructor | packages/core/src/engine.ts:20-32 | The engine starts with the default page, an empty registry and an empty history. |
| Engine.Engine.Record | packages/core/src/history-manager.ts:20-32 | The history becomes `Added`'s with capacity 100, and the command is current. |
| Engine.Engine.Undo | packages/core/src/engine.ts:431-439 | With nothing to undo, the answer is false and nothing changes. Otherwise the current command's `revert`, as the source writes it, is run. A revert error keeps the cursor; success steps back and answers true. |
| Engine.Engine.Redo | packages/core/src/engine.ts:444-452 | With nothing to redo, the answer is false. Otherwise the cursor steps forward, the command reached is applied again as the source writes it, and the answer is true unless that fails. |
| Engine.Engine.CanUndo | packages/core/src/engine.ts:457-459 | On a valid engine, undo is possible only with a recorded command at the cursor, one that works on this engine's page. |
| Engine.Engine.CanRedo | packages/core/src/engine.ts:464-466 | On a valid engine, redo is possible only with a recorded command after the cursor, one that works on this engine's page. |
| Engine.Engine.GetPage | packages/core/src/engine.ts:359-361 | A copy of the document: every record and region of the page, as a value that later edits cannot reach. |
| Engine.Engine.InsertBlock | packages/core/src/engine.ts:46-83 | A failing check reports its error and changes nothing. Otherwise the insert command is applied and, on success, recorded, and its id returned. |
| Engine.Engine.InsertBlockFromPreset | packages/core/src/engine.ts:98-141 | The same, with the preset checks and a preset command. |
| Engine.Engine.PasteBlock | packages/core/src/engine.ts:316-354 | The insert checks on the structure's type, then a preset command built from the structure, applied and recorded. |
| Engine.Engine.RemoveBlock | packages/core/src/engine.ts:150-158 | A remove command is applied, and recorded on success. |
| Engine.Engine.MoveBlock | packages/core/src/engine.ts:169-200 | The checks when a target parent is given, then a move command, applied and recorded. |
| Engine.Engine.ToggleBlock | packages/core/src/engine.ts:205-214 | A toggle command is applied, and recorded on success. |
| Engine.Engine.SetBlockProperty | packages/core/src/engine.ts:225-235 | A property command is applied, and recorded on success. |
| Engine.Engine.SetBlockName | packages/core/src/engine.ts:245-254 | A missing block fails without change. Otherwise the block on the page gets the name, exactly as `NameApplied` says, and the command is recorded. |
| Engine.Engine.DuplicateBlock | packages/core/src/engine.ts:259-269 | A duplicate command is applied, recorded on success, and the copy's id returned. |
| Engine.Engine.ProcessBlock | packages/core/src/engine.ts:473-486 | Every existing child without a parent gets this record's id, and is then processed. Parents already set are kept. With a ranking of the records and a depth above the record's rank, it completes. |
| Engine.Engine.Visit | packages/core/src/engine.ts:476-483 | One child: filled when it exists without a parent, then processed; it completes when the depth is above the child's rank. |
| Engine.Engine.InitializeParentChildRelationships | packages/core/src/engine.ts:472-489 | Every record is processed. On completion, every child listed by a record without a parent has a parent. A page without cycles always completes. |
| Engine.Engine.SetPage | packages/core/src/engine.ts:370-402 | The page is replaced. Without regions, one `main` region lists every block id. Parents are back-filled and the history cleared, and a well-formed page is read back by `getPage` as given. It fails only with `Diverges`, never on a page without cycles. |
| Engine.Entries | packages/core/src/engine.ts:27-31 | One registry entry per schema, keyed by its type. |
| Engine.NewEngine | packages/core/src/engine.ts:20-32 | The page (or the default one) is set, then the schemas are registered in order. The first duplicate type fails. With the default page, or any page without cycles, it fails exactly when a type is duplicated. |
| Responsive.SetDeviceValue | packages/editor/src/utils/responsive.ts:38-55 | The result is always a responsive value. What each device then reads is stated by `GetAfterSet`, `SetLeavesOtherDevices` and `SetWrapsPlain`. |
| Responsive.ClearDeviceOverride | packages/editor/src/utils/responsive.ts:82-91 | `_default` and `fit` are kept. Any other device's key is removed and the rest kept. |
| Responsive.HasDeviceOverride | packages/editor/src/utils/responsive.ts:63-73 | A device with an override is one `getOverriddenDevices` lists, and `getDeviceValue` gives its own entry when that is defined. |
| Responsive.OverriddenDevices | packages/editor/src/utils/responsive.ts:98-100 | Every key of the object but `_default`, and nothing else, as a set. |
| Responsive.GetAfterSet | packages/editor/src/utils/responsive.ts:16-55 | `getDeviceValue` reads back, on the device just set (`fit` included, through `_default`), the defined value `setDeviceValue` stored. |
| Responsive.SetLeavesOtherDevices | packages/editor/src/utils/responsive.ts:16-55 | Setting one device changes what `getDeviceValue` gives on no other device, unless it sets `_default` (or `fit`), and changes no other key. |
| Responsive.SetWrapsPlain | packages/editor/src/utils/responsive.ts:44 | A plain value becomes `_default`, so other devices still read it. |
| Responsive.ClearRemovesOverride | packages/editor/src/utils/responsive.ts:63-91 | After clearing, the device has no override and reads `_default`, and `_default` is unchanged. |
| Responsive.ClearUndoesSet | packages/editor/src/utils/responsive.ts:38-91 | Clearing a device that had no key undoes setting it. |
| Responsive.OverriddenMatchesHas | packages/editor/src/utils/responsive.ts:63-100 | The overridden devices are exactly the devices `hasDeviceOverride` reports, `fit` apart. |
| Responsive.PlainHasNoOverride | packages/editor/src/utils/responsive.ts:6-28 | Plain values have no overrides, and `getDeviceValue` returns them unchanged on every device. |

## Left out

- Events are not delivered. Each command returns the event it would emit, and the engine's `undo` / `redo` / `page:set` events are not modelled at all.
- `console.warn` is not modelled.
- `generateId` uses `crypto.randomUUID` or the clock. It is modelled as an injective counter (`Ids.IdFor`). That ids are fresh on a page is a hypothesis of the lemmas that need it.
- `structuredClone` is not modelled. Blocks are values. The only aliasing that matters, a command holding a block object, is modelled by `objectId`.
- `getBlockById`, `getBlocksManager`, `getBlockSchemas` and `getBlockSchema` are not modelled: they read fields directly. `getPage` is `Engine.Engine.GetPage`, whose `structuredClone` is the page's value.
- Registry `find`, `getAll` and `getTypes` are not modelled: the callback of `find` is foreign code, and the other two read the table (`Registry.Table` keeps its key order).
- The registry's cache of compiled patterns is left out, because it does not change results. The escaping of regex metacharacters is modelled as literal matching of every character other than `*`.
- `Glob.Matches`: a `*` also matches line terminators, which the regex's `.` does not, and a pattern holding the literal text `__WILDCARD__` is not read as a wildcard. Type names with line breaks, and such patterns, are not modelled.
- The engine's `page` is a fixed `Pages.Page` object whose contents `SetPage` replaces. The source rebinds the field to a fresh copy instead. After a successful `setPage` the history is cleared, so no command can tell the two apart; after a failing one they differ (see the `Engine.Engine.SetPage` lines below).
- `Page.regions` being undefined is not modelled: regions are always a list. The first-region lookups of insert, move and duplicate fail with an error on an empty list.
- `getRegionId` (`region.id || region.name`): regions carry only a name, so a region's id is taken to be its name.
- `Object.keys` order is not modelled: `Engine.KeyList` returns some duplicate-free order, and `Engine.Engine.SetPage` promises nothing about the order of the `main` region it builds.
- The second `regions.length === 0` branch of `setPage` is unreachable after the first, and is left out.
- Recursion over children is bounded by the number of records. `Diverges` stands for the source's endless recursion on a cycle. On a page without cycles (`Pages.Acyclic`) the bound is never reached.
- `config.blocksManager` (an externally supplied registry) is not modelled: `Engine.NewEngine` always starts from an empty registry.
- `Engine.Engine.MoveBlock`: for an unknown block with a target parent, the source reads `block.type` of `undefined`. The model reports it as `UnknownBlock`.
- `Engine.Engine.InsertBlock`, `Engine.Engine.InsertBlockFromPreset`, `Engine.Engine.PasteBlock` and `Engine.Engine.MoveBlock` pass no region name to the command. The engine forwards `regionId` / `targetRegionId`, while the commands read `regionName` / `targetRegionName`, so the requested region never arrives (`Engine.InsertGoesToFirstRegion`).
- `Engine.Engine.Redo`: runs `apply` before moving the history cursor. The two touch disjoint state, so the result is the source's. Its contract states the page and history but not the id and object counters the command advances.
- `Engine.Engine.Undo`, `Engine.Engine.Redo`: a command that throws inside `revert` / `apply` after partly changing the page leaves that partial page. The model reproduces this, but no lemma describes the partial state.
- `InsertFromPreset.PresetRoundTrip`, `DuplicateBlock.DuplicateRoundTrip`: proved only for runs that complete (the ids fresh and, for duplicate, no cycle, which `DuplicateBlock.DuplicateSucceeds` shows is enough on a well-formed page). A failing preset or duplicate run is not atomic in the source either.
- `FailedToCreate` in `insertBlockFromPreset` cannot happen once the constructor's checks have passed, and is not modelled.
- `HistoryManager` requires a capacity of at least 1. The source's default is 100, and the engine never passes another.
- `Responsive.OverriddenDevices`: returns the overridden devices as a set. The source returns an array in `Object.keys` order, and that order is not modelled, because the fields are a map without key order.
- `Responsive.HasDeviceOverride`, `Responsive.GetDeviceValue`, `Responsive.IsResponsive`: JavaScript's `in` and property reads also see keys inherited from `Object.prototype` (`toString`, `constructor`, and so on). The model sees own keys only. So `hasDeviceOverride({_default: 1}, "toString")`, true in the source, is false here, and `getDeviceValue` for such a device gives `_default` where the source gives the inherited function.
- `Engine.Engine.SetPage`: keeps the `objectId`s the given page carries and does not advance the object counter, so the model does not promise that objects created later differ from the page's own. After a successful `setPage` the history is cleared, so no recorded command holds an earlier object.
- `Engine.Engine.SetPage`: when the back-fill throws on a cycle, the source has already rebound `this.page` to the new copy and keeps its history, whose commands still hold the old, now detached, page object; a later `undo()` / `redo()` changes that detached object and `getPage()` does not show it. The model keeps one shared page, so the kept commands act on the new page instead: after `insertBlock`, a `setPage` of a cyclic page and `undo()`, the model removes the block from the new page while the source leaves it unchanged.
- `SetBlockProperty.Assigned`: `properties[key] = undefined` in the source keeps the key, holding `undefined`; the model has no undefined value and removes the key. This shows when such a block is exported and pasted: `Object.assign` copies the undefined entry over the schema default, where the model keeps the default. `revert` cannot tell the two apart either, since it tests only `=== undefined`.
- Numbers are integers: `Values.Num` holds an `int`, and the `index` arguments of insert and move are integers, so fractional property values and indices are not modelled.
- `ToggleBlock.ToggleRoundTrip`, `SetBlockName.NameRoundTrip`: the round trips are proved for the corrected `revert` / `apply`. The command classes and the engine follow the code as written, for which the round trip does not hold in the cases under Findings.

## Findings

The command classes and the engine follow the code as written. Each
corrected member is the intended definition, with the intended property
proved about it.

| source | as written | input that shows it | evidently intended | confidence | as-written member | corrected member |
|---|---|---|---|---|---|---|
| packages/core/src/commands/toggle-block.ts:52-56 | `revert` negates the current flag when the original was undefined, instead of restoring "not disabled" | A block whose `disabled` is undefined, `toggleBlock(id, false)`, then `undo()`: the block ends up disabled | Undo restores the original state, undefined counting as not disabled | not executed | ToggleBlock.AsWrittenUndoDisables | ToggleBlock.ToggleRoundTrip |
| packages/core/src/commands/set-block-name.ts:23-37 | The command keeps the block object read in its constructor and writes the name through it, even after that object has left the page | `insertBlock`, `setBlockName(id, "Title")`, `undo()` twice, `redo()` twice: redoing the insert makes a new object under the same id, so the name is written to the dropped one and the block stays unnamed | Each `apply` / `revert` names the block currently on the page | not executed | SetBlockName.StaleNameAfterRedo | SetBlockName.NameRoundTrip |
