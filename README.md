# Technical-specification editor: document, store, edits and views

The editor keeps one "technical specification" document for a manufactured
product:
- a `meta` record (product name and code, version, date, author, batch size,
  description);
- six ordered collections: ingredients, performance data, stability data,
  equipment, process steps (each with a nested list of parameters) and
  quality-control blocks (each with a nested list of checks).

Three copies of the same logic exist: the module edition (js/state.js,
js/store.js, js/main.js, js/ui.js, js/renderers.js) and the single-file
edition (app.js). This project models what all of them share and where they
differ.

- **Document** (`document.dfy`, module `Document`). The defaults, and the
  normaliser that turns any parsed JSON value into the canonical document.
  The normaliser overlays the defaults with the input's meta, keeps
  array-valued collections and replaces the rest by `[]`, and migrates legacy
  ingredients from `name` to `tradeName`. It is modelled with the draft kept in
  local storage. The document is a record of `meta` and the six collections,
  so any other top-level field of the input is dropped. A TypeError (a `null` document, a `null` ingredient) is
  `None`. JSON values are the datatype `JsonValues.Json`; truthiness, property
  reads and `x || ''` are in `json.dfy`.
- **Store** (`store.dfy`, class `StoreModel.Store`). The document, the
  listener list, the local-storage map and a log of listener calls. Its
  methods replace, persist and notify in the source's order.
- **Edits** (`edits.dfy`, module `Edits`). The document changes the event
  handlers make, as functions from the document before to the document after:
  - lookup by loose (`==`) or strict (`===`) id;
  - adding fresh entities;
  - deleting by id;
  - editing one cell, with a re-sort after a phase edit;
  - the nested parameter and check lists;
  - copying the meta inputs into the document.

  The handlers themselves are classes over that state, with a flag for the
  pending debounced save: `MainEditor.Editor` (js/main.js) and
  `AppEditor.AppEditor` (app.js). Each handler redraws what it changed
  before it schedules the save, so a TypeError in the redraw leaves the
  change in place with no save scheduled; `Ui.SectionDraws` and
  `Ui.PageDraws` say when a redraw completes.
- **Views** (`views.dfy`, `process.dfy`, `ui.dfy`, `renderers.dfy`). What each
  renderer appends, as a sequence of row records. A renderer that throws
  part-way is a `Rendered(rows, complete := false)` holding the rows appended
  before the throw. `renderAll` stops at the first renderer that throws.
  js/renderers.js sorts a copy of the ingredients by phase, with a stable
  insertion sort under an abstract `localeCompare` (`phase_sort.dfy`), and
  draws equipment as chips with a picker.

Oracles are parameters:
- `JSON.parse` / `JSON.stringify` / `JSON.stringify(state, null, 2)`:
  `parse` / `stringify` / `pretty`;
- the browser's selector parser, which throws a SyntaxError on a `#key`
  that is not a valid selector: `selectorOk`;
- `localeCompare`: `leq`, assumed a total preorder where a lemma needs it;
- `generateId()`: `newId`;
- `confirm()`: `confirmed`;
- the clock's ISO date: `today`.

## Model

| member | source | states |
|---|---|---|
| JsonValues.Set | js/main.js:59 | assigning a key of an object gives that key the value and leaves every other key as it was |
| JsonValues.Shown | js/ui.js:17 | `v[k] \|\| ''` is the property when it is truthy and `""` otherwise, and is truthy exactly when the property is |
| Text.Trim | js/renderers.js:130 | the result is a slice `s[i..j]` of the input, and every character removed before `i` or after `j` is white space; the result neither starts nor ends with white space |
| Text.TrimIdempotent | js/renderers.js:130 | trimming an already trimmed string changes nothing |
| Text.Split | js/renderers.js:130 | `split(sep)` yields at least one piece, and no piece contains `sep` |
| Text.JoinSplit | js/renderers.js:130 | joining the pieces of `split(sep)` with `sep` gives the string back |
| Text.SplitJoin | js/renderers.js:130 | splitting a join of separator-free pieces gives exactly those pieces, so the pieces are determined by the string |
| Text.Upper | js/ui.js:35 | upper-casing keeps the length, leaves no lower-case letter, and changes a character exactly when it is a lower-case letter (Basic Latin and Cyrillic) |
| Text.UpperIdempotent | js/ui.js:35 | upper-casing twice is upper-casing once, and only `""` upper-cases to `""` |
| Numbers.ParseFloat | js/ui.js:57 | `parseFloat` yields a number exactly when the string, after leading white space, starts with a decimal literal (optional sign, digits, optional fraction), and the number is the value of the longest such literal |
| Numbers.StringToNumber | js/main.js:57 | a blank string converts to 0; any other string converts exactly when, trimmed, it is one whole decimal literal, to that literal's value |
| Numbers.DigitsParse | js/ui.js:68 | a string of decimal digits parses to its decimal value under both `parseFloat` and `ToNumber` |
| Numbers.StrictIsLooser | js/main.js:253-258 | `===` against a row id implies `==`, and the numeric id 1 is loosely but not strictly equal to the row id "1" |
| Numbers.NatString | js/state.js:33 | the decimal string of an index is non-empty, all digits, and denotes the index |
| Numbers.NatStringInjective | js/state.js:33 | different indices have different decimal strings |
| Numbers.NatStringParses | js/main.js:57 | an index's decimal string reads back as the index under both `parseFloat` and `ToNumber` |
| Numbers.KeyString | js/renderers.js:89 | a string-valued short name is its own property key |
| Numbers.NumberKeyReadsBack | js/renderers.js:89 | the property key of a numeric short name converts back to that number, and that number is loosely equal to its key |
| Numbers.NegativeParses | js/main.js:57 | a minus sign before a decimal string negates its value under `ToNumber` |
| Numbers.NumberKeysDistinct | js/renderers.js:89 | two numbers with property keys share a key only when they are equal |
| Numbers.DecimalAtAppend | js/ui.js:57 | a literal that runs to the end of a string keeps its value and its end when text that cannot continue it is appended |
| Numbers.ParseFloatIgnoresTail | js/ui.js:57 | `parseFloat` reads the literal after leading white space and ignores any tail that cannot continue it |
| Numbers.NumericStringsAgree | js/ui.js:57 | on a non-blank string, whenever `ToNumber` succeeds `parseFloat` gives the same number |
| Document.InitialStateDefaults | js/state.js:8-25 | the initial document has all six collections empty; its meta has exactly the default keys (with `regulations` only in js/state.js), `docVersion` "1.0", `batchSize` 100, today's `docDate` |
| Document.CollectionNamed | js/store.js:145 | a field name designates a collection exactly when it is that collection's key, so it inverts `Key` |
| Document.WithItems | js/store.js:145-147 | replacing one collection leaves meta and the other five collections unchanged |
| Document.MigrateSpec | js/state.js:43-48 | a migratable ingredient gets `tradeName` = old `name` and loses `name`, with all other keys kept; others are unchanged; one with a truthy `tradeName` keeps its `name`; a migrated ingredient is never migrated again |
| Document.Migrated | js/state.js:43-48 | the migration throws exactly when some ingredient is null; otherwise ingredient `i` becomes `Migrate(ings[i])`, with the same length and order |
| Document.MigrateIngredients | js/state.js:43-48 | the in-place `forEach` loop returns exactly the migrated list, or the throw |
| Document.NormalizeState | js/state.js:30-50 | the imperative normaliser (build the record, then migrate in place) equals the specification `Normalize` |
| Document.NormalizeSpec | js/state.js:32-40 | the normaliser throws exactly on a null input or a null ingredient; every other collection is the input's array as given or `[]`; ingredients are migrated one by one in order; meta is the defaults overlaid with the spread of `data.meta \|\| {}` (`MetaOverlaySpec`) |
| Document.MetaOverlaySpec | js/state.js:33 | the spread of `data.meta \|\| {}` gives an object's fields, a string's characters or an array's items under index keys "0", "1", …, and nothing for a missing, null, boolean or number meta |
| Document.Indexed | js/state.js:33 | every index of an array-like value is a key holding its item, and every key is the decimal string of an index |
| Document.IndexKeysDiffer | js/state.js:33 | no two indices share a key |
| Document.NormalizeIsNormal | js/state.js:33-48 | every result of the normaliser has all default meta keys and only non-null, already migrated ingredients |
| Document.NormalFixpoint | js/state.js:30-50 | normalising a document's own JSON gives it back exactly when the document is normal (both directions) |
| Document.ToJsonReadsBack | js/state.js:52-54 | the JSON form of a document reads back to the same meta and collections |
| Document.NormalizeOwnJson | js/state.js:30-50 | normalising a normal document's own JSON gives it back |
| Document.NormalizeIdempotent | js/state.js:30-50 | normalising the normaliser's output again, even on a later date, gives the same document |
| Document.SaveLoadRoundTrip | js/state.js:52-64 | when `JSON.parse` reads back what `JSON.stringify` wrote for this document, loading the saved draft gives the document's normalisation, and a normal document loads back as itself |
| Document.ExportImportRoundTrip | js/main.js:183-204 | when `JSON.parse` reads back the indented export of a document, importing it gives the document back exactly when it is normal |
| Document.InitialIsNormal | js/state.js:8-25 | the initial document is normal, and normalising its JSON on any later day gives it back with its original date |
| StoreModel.Unsubscribed | js/store.js:91-93 | after the filter the listener is gone, every other listener keeps its membership, and the list never grows |
| StoreModel.SubscribeThenUnsubscribe | js/store.js:89-94 | unsubscribing a newly subscribed listener restores the previous list, order included |
| StoreModel.UnsubscribeAbsent | js/store.js:91-93 | unsubscribing a listener that is not subscribed leaves the list unchanged |
| StoreModel.AppendedNormal | js/store.js:102-141 | appending a fresh entity keeps the document normal |
| StoreModel.KeptNormal | js/store.js:143-148 | deleting by id keeps the document normal |
| StoreModel.ClearedStorageReloads | js/store.js:84-87 | when the initial document's JSON reads back, reloading after `clearStorage`, on any later day, gives the initial document of the day it was cleared |
| StoreModel.Store.constructor | js/store.js:20-23 | the state is the stored draft when it parses and normalises, otherwise the initial document; parse errors are swallowed; the state is normal; no listeners |
| StoreModel.Store.LoadFromStorage | js/store.js:67-78 | null when the key is missing or empty, the text does not parse or normalising throws; any loaded document is normal |
| StoreModel.Store.SaveToStorage | js/store.js:80-82 | only the draft key changes, to the document's JSON text; when that text reads back and the state is normal, every later load gives the state back |
| StoreModel.Store.Notify | js/store.js:96-98 | the loop appends exactly the deliveries of all listeners in order and changes nothing else |
| StoreModel.Store.SetState | js/store.js:58-62 | replace, then save, then notify: storage holds the new document and every listener gets it once |
| StoreModel.Store.ClearStorage | js/store.js:84-87 | the state becomes the initial document, which is saved again under the removed key and delivered to all listeners |
| StoreModel.Store.Subscribe | js/store.js:89-90 | the listener is appended; nothing else changes |
| StoreModel.Store.Unsubscribe | js/store.js:91-93 | the list becomes `Unsubscribed(old, l)`; nothing else changes |
| StoreModel.Store.AddItem | js/store.js:102-141 | exactly one fresh entity is appended to its collection only; then save and notify; normality preserved |
| StoreModel.Store.DeleteItem | js/store.js:143-148 | a name that is not a collection does nothing (no save, no notify); otherwise the entities whose id is `===` the argument are removed (a throw on a null entity changes nothing) and the store saves and notifies even when nothing matched |
| Edits.FindLoose | js/main.js:57 | `find(i => i.id == id)`: the first loosely matching index with no earlier match, no match when every entity is readable and none matches, or a throw at the first null before any match |
| Edits.Kept | js/main.js:253 | the filter keeps exactly the entities whose id does not match, and the kept count plus the matches is the original length |
| Edits.Without | js/main.js:253-258 | the delete throws exactly when a null entity is present |
| Edits.KeptAppend | js/main.js:253 | deleting distributes over concatenation, so survivors keep their relative order |
| Edits.KeptNoMatch | js/store.js:146 | deleting an id nobody has returns the list unchanged |
| Edits.KeptIdempotent | js/store.js:146 | deleting the same id twice is deleting it once |
| Edits.NumericIdDelete | js/main.js:253-258 | an entity with numeric id 1 survives the strict delete of row "1" (js/main.js) but not the loose delete (app.js) |
| Edits.StrictDeleteRemovesAtMostOne | js/store.js:146 | with pairwise distinct ids, a strict delete removes at most one entity |
| Edits.NewEntityId | js/store.js:102-141 | every fresh entity, parameter and check carries the generated id |
| Edits.NewEntityShape | js/store.js:102-141 | a fresh entity matches its id under both comparisons; steps get `parameters: []`, blocks `checks: []`; an ingredient has percent 0 and an empty phase; none needs migration |
| Edits.Appended | js/main.js:211-240 | an add appends the entity at the end of its own collection; meta and the other five collections are unchanged |
| Edits.AddThenDelete | js/store.js:102-148 | deleting a freshly added entity by its new id gives the collection back, under either comparison |
| Edits.AppendKeepsIdsUnique | js/store.js:104-105 | appending an entity with an id different from all existing ids keeps ids pairwise distinct |
| Edits.ApplyNested | js/main.js:265-284 | changing a nested list touches only that key of the owner |
| Edits.ApplyNestedAdd | js/main.js:265-273 | adding creates the list when falsy, then appends one entry; it throws exactly when the key holds a truthy non-array |
| Edits.ApplyNestedRemove | js/main.js:275-284 | removing succeeds exactly on an array without null entries, and leaves the entries whose id does not loosely match |
| Edits.AddThenRemoveNested | js/main.js:265-284 | adding a parameter with a fresh id and then removing that id restores the step |
| Edits.AddThenRemoveEntry | js/main.js:286-312 | appending an entry to an existing list and removing it by id restores the owner |
| Edits.RemoveFromArray | js/main.js:303-312 | removing from an array-valued list replaces the list by its filtered copy |
| Edits.OnOwner | js/main.js:265-312 | a nested edit changes only the owner's collection and keeps its length |
| Edits.OnOwnerFrame | js/main.js:265-312 | only the first entity with the owner id changes, and it becomes the nested edit's result |
| Edits.AddThenDeleteParam | js/main.js:265-284 | pressing add-parameter then delete-parameter with the new id gives the document back |
| Edits.SetField | js/main.js:59 | `item[key] = value` sets that key to the text and keeps every other key |
| Edits.EditCellStaysInTable | js/main.js:49-136 | a cell edit never changes meta or another collection |
| Edits.DirectEdit | js/main.js:88-100 | a direct cell edit sets the key on the first entity with that loose id and on nothing else; no match changes nothing; a null before any match throws with nothing changed |
| Edits.PhaseEdit | js/main.js:65-73 | a phase edit sets the phase, then leaves a stable permutation of the edited list sorted by phase; when the sort throws, the edited list remains unsorted |
| Edits.SyncedMeta | js/main.js:12-19 | syncing never adds or removes a meta key |
| Edits.SyncedMetaValues | js/main.js:12-19 | after syncing, a key holds the text of the last input with its id, or its old value when no input has it |
| Edits.SyncMeta | js/main.js:12-19 | the `forEach` over the inputs computes exactly `SyncedMeta` |
| Edits.WithBatchSize | js/main.js:326-329 | the batch size becomes the input's text (read back by `parseFloat`), and every other key and collection is unchanged |
| Edits.ExportBase | js/main.js:188 | the file name base is the string product code when truthy, and "techspec" when the code is absent or falsy |
| MainEditor.DeleteTarget | js/main.js:251-259 | the ingredient table is chosen exactly for `formBody`; no collection exactly when the row is in none of the five tables and has no process-row class |
| MainEditor.Editor.constructor | js/main.js:349-354 | the page starts from the stored draft when it loads, otherwise from the initial document |
| MainEditor.Editor.FlushSave | js/main.js:24-27 | a pending save copies the meta inputs into the document, then writes the draft; with none pending nothing changes |
| MainEditor.Editor.Input | js/main.js:49-136 | a non-data-field target skips the table update; a table update that throws, or whose redraw of the formulation after a `percent` or `phase` edit throws, ends the listener before any save; otherwise a save is scheduled, and a batch size input then sets the batch size and schedules a save only if redrawing the formulation does not throw |
| MainEditor.Editor.AddItem | js/main.js:211-240 | an add button appends one fresh entity to its own collection, redraws that section, and schedules a save exactly when the redraw does not throw |
| MainEditor.Editor.DeleteRow | js/main.js:246-263 | declining changes nothing; a confirmed delete removes the `===` matches from the row's collection only (a null entity throws with nothing changed), redraws the page, and schedules a save exactly when the page draws, even for a row in no table |
| MainEditor.Editor.Nested | js/main.js:265-313 | the nested-list buttons act without confirmation; a save is scheduled only when the owner was found and its section redraws without a throw |
| MainEditor.Editor.DeleteQcBlock | js/main.js:296-302 | gated on confirmation; removes the blocks whose id loosely matches and nothing else, and schedules a save exactly when the QC blocks redraw |
| MainEditor.Editor.Import | js/main.js:193-204 | a file that parses and normalises replaces the document, even if showing it then throws; otherwise nothing changes; the user is alerted unless the file normalises, its meta keys are valid selectors and the page draws |
| MainEditor.Editor.Clear | js/main.js:206-208 | only a confirmed clear shows the initial document; storage is not touched, so the stored draft keeps the old document until a later save |
| MainEditor.Editor.Export | js/main.js:183-191 | the meta is synced and a normal document stays normal; the file is `<productCode or techspec>.json` and holds the document's indented JSON text; storage is not written |
| MainEditor.Editor.Show | js/main.js:32-44 | a meta key that is not a valid selector stops the display before the description and the page; otherwise the inputs show the meta values of their keys, the print description (when present) shows `description \|\| ''`, and the page is `renderAll`'s; `ok` says nothing threw |
| AppEditor.ContainingTable | app.js:580-584 | a delete button's row belongs to one of the five tables (never QC), and to none exactly when it is outside them |
| AppEditor.AppEditor.constructor | app.js:644-652 | a stored draft that parses and normalises is shown; a failure is only logged and the initial document stays |
| AppEditor.AppEditor.SaveState | app.js:326-334 | copies the meta inputs into the document, then writes the draft |
| AppEditor.AppEditor.FlushSave | app.js:336 | the debounced `saveState` fires only when pending |
| AppEditor.AppEditor.Input | app.js:615-628 | the batch size listener runs first and its throw does not stop the body listener; the save is scheduled unless the table update threw, `updateTotals` threw after a `percent` edit or the formulation redraw threw after a `phase` edit |
| AppEditor.AppEditor.AddItem | app.js:527-553 | an add button appends one fresh entity to its own collection, redraws that section, and schedules a save exactly when the redraw does not throw |
| AppEditor.AppEditor.DeleteRow | app.js:575-585 | declining changes nothing; a confirmed delete removes the `!=` matches from the containing table only and redraws it, scheduling a save exactly when that redraw does not throw; a row in no table schedules nothing |
| AppEditor.AppEditor.Nested | app.js:555-613 | nested-list buttons: only the first owner with the id changes, and a save is scheduled only when it did and its section redraws without a throw |
| AppEditor.AppEditor.DeleteQcBlock | app.js:596-601 | gated on confirmation; only the matching blocks are removed; a save is scheduled exactly when the QC blocks redraw |
| AppEditor.AppEditor.Import | app.js:503-515 | a file that parses and normalises (without the `regulations` default) replaces the document, even if showing it then throws; `ok` (the "data loaded" alert) also needs valid selector keys and a page that draws |
| AppEditor.AppEditor.Clear | app.js:517-522 | a confirmed clear removes the draft and shows the initial document, so a load before any further save finds no draft; a pending debounced save stays pending, so when it fires (`FlushSave`) it writes the draft again |
| AppEditor.AppEditor.Export | app.js:494-502 | saves at once; the file is `<productCode or techspec>_<date>.json` holding the document's indented JSON text |
| AppEditor.AppEditor.Show | app.js:338-346 | a meta key that is not a valid selector stops `loadState` before the description and the page; otherwise the inputs show their meta values, the print description shows `description \|\| ''` and the page is the full `renderAll`; `ok` says nothing threw |
| PhaseSort.PhaseText | js/main.js:72 | `(a.phase \|\| '')` can be compared exactly when the ingredient is readable and its phase, if truthy, is a string; it is `""` exactly for a falsy or empty phase |
| PhaseSort.InsertionSortPermutes | js/renderers.js:37 | the sort is a permutation of its input |
| PhaseSort.InsertionSortSorted | js/renderers.js:37 | under a total preorder the sort's result is ordered by phase |
| PhaseSort.InsertionSortStable | js/renderers.js:37 | ingredients of equal phase keep their relative order |
| PhaseSort.SortByPhaseSpec | js/renderers.js:37 | the phase sort throws exactly when two or more ingredients include an uncomparable phase; otherwise it yields a permutation sorted by phase and stable |
| Views.TableRows | js/ui.js:11-21 | one row per item, in order, tagged with its id; complete exactly when no item is null; otherwise it stops at the first null |
| Views.RenderTableRows | js/ui.js:7-22 | the `forEach` appends exactly `TableRows` |
| Views.LastPhase | js/ui.js:33-45 | `lastPhase` is never the empty phase |
| Views.RenderIngredientRows | js/ui.js:33-60 | the loop with its mutable `lastPhase` appends exactly the specified lines, stopping at the ingredient that throws |
| Views.IngredientLinesComplete | js/ui.js:34-35 | the formulation table is complete exactly when every phase can be upper-cased |
| Views.IngredientRowsInOrder | js/ui.js:34-60 | the data rows are one per drawn ingredient, in order; all ingredients when complete, else it stops just before the first that throws |
| Views.HeaderTracksLastPhase | js/ui.js:36-45 | the nearest header at the end of a complete table is the last non-empty phase met |
| Views.DataRowsOfLines | js/ui.js:36-59 | an ingredient yields exactly one data row, with or without a header |
| Views.Grouped | js/ui.js:35-45 | an ingredient with a non-empty phase sits right under a header of its upper-cased phase, with only rows between |
| Views.HeadersChangePhase | js/ui.js:36-44 | a header is emitted only when the phase differs from the nearest header above |
| Views.UpdateTotals | js/ui.js:67-73 | the reduce loop returns the percentage sum (unparsable counts 0) with "ok" exactly when it is within 0.01 of 100, or a throw on a null ingredient |
| Views.PercentSumPermutation | js/renderers.js:72-80 | the percentage total does not depend on the ingredients' order |
| Views.MassOfLines | js/ui.js:57 | an ingredient's lines carry its mass once |
| Views.MassTotalScales | js/ui.js:57 | the masses of the ingredients add up to batch size × percentage sum / 100 |
| Views.MassSumIsTotal | js/ui.js:47-59 | the masses on a complete table are the ingredients' masses |
| Views.MassesAddUp | js/ui.js:57-68 | the masses shown add up to batch size × the total that `updateTotals` shows / 100 |
| Views.ChecksOf | js/ui.js:188 | `(checks \|\| [])` cannot be iterated exactly when it is a truthy non-array |
| Views.RenderQcBlocks | js/ui.js:174-199 | the nested loops append exactly the specified blocks, stopping at the first block that throws |
| Views.RenderCheckRows | js/ui.js:188-197 | the inner loop builds all check rows, or throws at a null check |
| Views.QcBlocksSpec | js/ui.js:174-199 | complete exactly when every block renders; blocks in order, each with one row per check tagged with both the block id and the check id |
| ProcessView.ParamRows | js/ui.js:138-151 | one row per further parameter, each with the step id; complete exactly without a null parameter |
| ProcessView.TokensAreClean | js/renderers.js:130 | every chip name is non-empty, trimmed and comma-free |
| ProcessView.TokensOfJoin | js/renderers.js:130 | the chips of a comma-joined list of clean names are exactly those names, in order |
| ProcessView.IndexFailsOnNull | js/renderers.js:87-90 | building `equipmentMap` throws exactly when an equipment entry is null |
| ProcessView.IndexKeys | js/renderers.js:87-90 | the map has a key exactly for the property key of each entry's short name (its string, or the string form of a number, boolean, null or missing name) |
| ProcessView.IndexLastWins | js/renderers.js:87-90 | under each short name the map holds the last entry with that name |
| ProcessView.PickerOptions | js/renderers.js:149-156 | the picker offers exactly the equipment entries that are not among the chosen names, never more than there are entries |
| ProcessView.EquipmentCellOf | js/renderers.js:115-156 | the template layout always builds the cell; the chip layout fails exactly when `step.equipment \|\| ''` is not a string |
| ProcessView.BuildChips | js/renderers.js:133-146 | the chip loop builds exactly `ChipsFor` |
| ProcessView.BuildPicker | js/renderers.js:149-156 | the picker loop builds exactly the unchosen entries in list order |
| ProcessView.IndexEquipment | js/renderers.js:87-90 | the `forEach` builds exactly `EquipmentIndex` |
| ProcessView.RenderEquipmentCell | js/renderers.js:116-156 | the cell as the renderer fills it equals `EquipmentCellOf` |
| ProcessView.RenderStepRows | js/ui.js:86-163 | one step's rows as the loop draws them |
| ProcessView.RenderParamRows | js/ui.js:138-151 | the `for` loop over further parameters draws exactly `ParamRows` |
| ProcessView.RenderStep | js/ui.js:82-163 | a null step or an unbuildable equipment cell throws; otherwise the step's rows |
| ProcessView.RenderProcessRows | js/ui.js:78-165 | the `forEach` over the steps draws exactly `ProcessRows` |
| ProcessView.StepRowsShape | js/ui.js:83-163 | a complete step takes `max(1, parameters.length)` rows; its first row carries that rowspan; every row carries the step id; a step without parameters is one row with empty parameter cells and the add-parameter and delete-step actions |
| ProcessView.ParamRowsDeleteIds | js/ui.js:138-151 | every further parameter row has a delete button for its own parameter id, in order |
| ProcessView.StepDeleteButtons | js/ui.js:117-151 | with the template layout every parameter has a delete button in order; with the chip layout all but the first |
| ProcessView.StepRowsSplit | js/ui.js:106-151 | a step with parameters merges the first into the step row, followed by the other parameters' rows |
| ProcessView.ProcessRowsComplete | js/ui.js:82-164 | the process table is complete exactly when every step renders |
| ProcessView.ProcessRowsCount | js/ui.js:82-84 | a complete process table has `max(1, parameters.length)` rows per step |
| Renderers.RenderSimpleTable | js/renderers.js:7-29 | the table rows are those of `TableRows` |
| Renderers.RenderQc | js/renderers.js:233-267 | the QC blocks are those of `QcBlocks` |
| Renderers.RenderIngredients | js/renderers.js:31-73 | a sorted copy is drawn (nothing when the sort throws), then the totals of the unsorted ingredients |
| Renderers.SortedRows | js/renderers.js:37-71 | a complete sorted table has one row per ingredient of a phase-ordered permutation of the ingredients |
| Renderers.SortedMassesMatchTotal | js/renderers.js:64-80 | the masses on the sorted rows add up to batch size × the unsorted total / 100 |
| Renderers.RenderProcess | js/renderers.js:82-231 | the equipment map is built first (a null entry draws nothing), then the steps with chips |
| Renderers.ChipsShow | js/renderers.js:133-146 | each chip shows its name, and carries an entry exactly when some equipment entry's short name has that property key, namely the last such entry |
| Renderers.ChipCellSpec | js/renderers.js:126-156 | a step's chips are one per token of its equipment string, each showing its name; the picker offers exactly the equipment not chosen |
| Renderers.RenderMeta | js/renderers.js:269-275 | it completes exactly when every meta key is a valid `#id` selector; then the inputs receive exactly the meta keys that have an input, with their values, and the print description shows `description \|\| ''`; otherwise only some inputs are filled and the description is not copied |
| Ui.PageOf | js/ui.js:205-213 | once a section throws, no later section is drawn |
| Ui.RenderSimpleTable | js/ui.js:7-22 | a missing table body draws nothing; otherwise `TableRows` |
| Ui.UpdateTotalsOn | js/ui.js:67-73 | the indicator shows the ingredients' percentage sum and its status when it exists; a missing indicator shows nothing |
| Ui.RenderIngredients | js/ui.js:27-62 | a missing body draws nothing; otherwise the lines in stored order, then the totals once every row is drawn |
| Ui.RenderProcess | js/ui.js:78-165 | a missing body draws nothing; otherwise the template process rows |
| Ui.RenderQc | js/ui.js:170-200 | a missing container draws nothing; otherwise the QC blocks |
| Ui.RenderAll | js/ui.js:205-213 | the renderers run in order and stop at the first that throws, as `PageOf` states |
| Ui.RenderAllComplete | js/ui.js:205-213 | a document whose entities can all be drawn is drawn in full: a row per ingredient and per table entry, `max(1, parameters)` rows per step, one block per QC block, and the percentage total |
| Ui.RenderSection | js/main.js:64 | a handler's redraw of one section completes exactly when that section draws |
| Ui.RenderPage | js/main.js:261 | `renderAll` from a handler completes exactly when every section draws |
| Ui.PageDrawsSpec | js/ui.js:205-213 | on the full page, no renderer of `renderAll` throws exactly when every section draws |
| Ui.SectionDrawsEach | js/ui.js:7-200 | a section draws exactly when each of its entries does |
| Ui.AddKeepsDrawing | js/main.js:211-240 | on a page that draws, an added fresh entity keeps the page drawable |
| Ui.DeleteKeepsDrawing | js/main.js:246-263 | on a page that draws, a delete keeps the page drawable |

## Left out

- DOM work: templates, `textContent` of labels, tooltips, print-only copies of textareas, `autoExpand`, focus and selection restoration after a phase sort, print class toggles and `window.print`. Rows are modelled as records of the values they show.
- Translation (js/i18n.js and the tables at the top of app.js): label text comes from an opaque function and never affects the rows.
- `generateId` (time and randomness): a `newId` parameter; freshness is a precondition where a lemma needs it.
- The debounce timer: a `saveScheduled` flag and a `FlushSave` method for the timer firing.
- The example loader (js/api.js and app.js:435-471) and the HTTP server (server.py): network I/O.
- Blob, FileReader and URL download plumbing: `Export` returns the file name and text; `Import` receives the file's text.
- `toFixed` formatting of masses and totals, and floating-point rounding: numbers are exact reals.
- The column-resize engine: it is not in any of the files modelled here.
- What the handlers' redraws display is modelled by the renderers; the editor classes record only whether a redraw completed, which decides whether the save is scheduled. Focus and selection restoration after a phase sort is left out.
- The handlers, js/renderers.js and app.js assume every container of the editor page exists (in js/renderers.js and app.js a missing one throws), so their redraws are modelled on the full page (`Ui.AllContainers`).
- The shallow copy `{ ...this.state }` in the `Store` actions shares the collection arrays with the old state, so a listener holding the old document sees the push. The model replaces the document by value and does not capture this aliasing.
- `equipmentMap` is a plain object: a short name such as `"constructor"` finds an inherited property when no entry has that name. The model indexes only the entries' own names.
- Numbers.ParseFloat: exponents (`1e3`), `Infinity` and hexadecimal forms are not recognised, so such strings count as not numeric.
- Numbers.StringToNumber: the same forms, and `0x`/`0b`/`0o` prefixes, are not recognised, so such strings convert to NaN (None) in the model.
- Numbers.KeyString: the property key of an array, of a non-integer number or of a number of 10^21 or more is not modelled (None), so `ProcessView.IndexKeys` and `Renderers.ChipsShow` leave entries with such short names out of the index.
- ProcessView.ParamList: an object-valued `parameters` with a numeric `length` is treated as no parameters, although `step.parameters?.length` would read that length.
- Document.MetaOverlay: a string `meta` spreads into one key per character of the model's strings; JavaScript spreads UTF-16 code units, which differ for characters outside the Basic Multilingual Plane.
- Renderers.RenderMeta: the order JavaScript enumerates meta keys in is not modelled, so when a key is not a valid selector the model promises only that the inputs filled are a subset of those a full pass fills.
- Numbers.LooseEqualsText: an array-valued id equals no row id, although JavaScript compares the array's joined string form.
- Numbers.NumberOrZero: an array-valued percent counts as 0, although `parseFloat` would read its joined string form.
- Text.UpperChar: `toUpperCase` is modelled for Basic Latin and Cyrillic only; other scripts and length-changing mappings are kept as they are.
- PhaseSort.SortByPhaseSpec: the sort is taken to throw whenever two or more ingredients include one whose phase cannot be compared. `localeCompare` throws only when such a phase is the receiver `a`; as the argument `b` it is converted to a string. Which pairs an engine compares, and in which roles, is not specified, so the model over-approximates the throw.
- PhaseSort.InsertionSortSorted: `localeCompare` is an abstract total preorder `leq`; the Unicode collation itself is not modelled.
- Edits.ExportBase: a truthy `productCode` that is not a string gives no file name (None), because its string conversion is not modelled.
- The language switch, print options and example selection handlers: UI only, no document change.
