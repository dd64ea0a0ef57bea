/** app.js: the single-file edition of the editor. Its handlers work like those
    of js/main.js over the same document edits, with these differences: a
    `percent` edit recomputes the totals instead of redrawing the formulation;
    rows are deleted by loose id (`!=`) from whichever table contains them,
    and only that table is redrawn; clearing removes the stored draft;
    exporting writes the draft at once and dates the file name; the document
    defaults carry no `regulations` key. As in js/main.js, a TypeError while
    redrawing ends a handler before it schedules the save. */
module AppEditor {
  import opened JsonValues
  import opened Document
  import opened PhaseSort
  import opened Edits
  import Views
  import Renderers
  import Ui

  /** The collection whose table body contains a row, from the body's id. */
  function ContainingTable(tbodyId: string): (r: Option<Collection>)
    ensures r.Some? ==> r.value != QualityControl
    ensures r.None? <==> tbodyId !in {"formBody", "perfBody", "stabBody", "equipmentBody", "procBody"}
  {
    if tbodyId == "formBody" then Some(Ingredients)
    else if tbodyId == "perfBody" then Some(PerformanceData)
    else if tbodyId == "stabBody" then Some(StabilityData)
    else if tbodyId == "equipmentBody" then Some(Equipment)
    else if tbodyId == "procBody" then Some(ProcessSteps)
    else None
  }

  /** The nearest `tr[data-id]` around a delete button: its table body's id and
      its `data-id`. */
  datatype DataRow = DataRow(tbodyId: string, id: string)

  /** `handleUpdate` on a table cell: the edit, then `updateTotals()` after a
      `percent` edit and `renderIngredients()` after a `phase` edit; a
      TypeError in either ends the update. */
  function AppTableUpdate(d: Doc, cell: Cell, value: string, leq: (string, string) -> bool): Effect {
    var e := EditCell(d, cell, value, leq);
    if !e.completed || !RedrawsFormulation(d, cell) then e
    else if cell.key == "percent" then Effect(e.doc, Views.TotalsOf(e.doc.ingredients).Some?)
    else Effect(e.doc, Ui.SectionDraws(e.doc, Ingredients))
  }

  class AppEditor {
    /** `JSON.parse`, `JSON.stringify`, `JSON.stringify(_, null, 2)` and
        `localeCompare`. */
    const parse: string -> Option<Json>
    const stringify: Json -> string
    const pretty: Json -> string
    const leq: (string, string) -> bool
    /** The document being edited. */
    var state: Doc
    /** The browser's local storage. */
    var storage: map<string, string>
    /** A debounced save is pending. */
    var saveScheduled: bool

    /** `initialize()`: the saved draft when it parses and normalises (a failure
        is only logged), otherwise the initial document. */
    constructor(saved: map<string, string>, parse: string -> Option<Json>, stringify: Json -> string,
                pretty: Json -> string, leq: (string, string) -> bool, today: string)
      ensures this.parse == parse && this.stringify == stringify && this.pretty == pretty && this.leq == leq
      ensures state == (match LoadDraft(saved, parse, today, WithoutRegulations)
                        case Some(d) => d
                        case None => InitialState(today, WithoutRegulations))
      ensures storage == saved && !saveScheduled
    {
      this.parse := parse;
      this.stringify := stringify;
      this.pretty := pretty;
      this.leq := leq;
      storage := saved;
      saveScheduled := false;
      state := InitialState(today, WithoutRegulations);
      if StorageKey in saved && saved[StorageKey] != "" {
        var j := parse(saved[StorageKey]);
        if j.Some? {
          var n := NormalizeState(j.value, today, WithoutRegulations);
          if n.Some? {
            state := n.value;
          }
        }
      }
    }

    /** `saveState()`: copy the meta inputs into the document, write the draft. */
    method SaveState(inputs: seq<(string, string)>)
      modifies this
      ensures state == old(state).(meta := SyncedMeta(old(state).meta, inputs))
      ensures storage == SaveDraft(old(storage), stringify, state)
      ensures saveScheduled == old(saveScheduled)
    {
      var meta := SyncMeta(state.meta, inputs);
      state := state.(meta := meta);
      storage := SaveDraft(storage, stringify, state);
    }

    /** The debounced `saveState` fires, when one is pending. */
    method FlushSave(inputs: seq<(string, string)>)
      modifies this
      ensures old(saveScheduled) ==>
        && state == old(state).(meta := SyncedMeta(old(state).meta, inputs))
        && storage == SaveDraft(old(storage), stringify, state)
      ensures !old(saveScheduled) ==> state == old(state) && storage == old(storage)
      ensures !saveScheduled
    {
      if saveScheduled {
        SaveState(inputs);
      }
      saveScheduled := false;
    }

    /** An `input` event: the batch size listener stores the text and redraws
        the formulation (a TypeError there ends only that listener); then the
        body listener runs `handleUpdate` for a table cell and schedules the
        save, unless `handleUpdate` threw. */
    method Input(cell: Option<Cell>, targetId: string, value: string)
      modifies this
      ensures var d0 := if targetId == "batchSize" then WithBatchSize(old(state), value) else old(state);
        var e := if cell.Some? then AppTableUpdate(d0, cell.value, value, leq) else Effect(d0, true);
        && state == e.doc
        && saveScheduled == (e.completed || old(saveScheduled))
      ensures storage == old(storage)
    {
      if targetId == "batchSize" {
        state := WithBatchSize(state, value);
        var _ := Ui.RenderSection(state, Ingredients);
      }
      if cell.Some? {
        var before := state;
        var e := EditCell(state, cell.value, value, leq);
        state := e.doc;
        if !e.completed {
          return;
        }
        if RedrawsFormulation(before, cell.value) {
          if cell.value.key == "percent" {
            var t := Views.UpdateTotals(state.ingredients);
            if t.None? {
              return;
            }
          } else {
            var ok := Ui.RenderSection(state, Ingredients);
            if !ok {
              return;
            }
          }
        }
      }
      saveScheduled := true;
    }

    /** An "add" button: push the fresh entity, redraw its section, schedule
        the save. */
    method AddItem(c: Collection, newId: string)
      modifies this
      ensures state == Appended(old(state), c, NewEntity(c, newId)) && storage == old(storage)
      ensures saveScheduled == (old(saveScheduled) || Ui.SectionDraws(state, c))
    {
      state := Appended(state, c, NewEntity(c, newId));
      var ok := Ui.RenderSection(state, c);
      if ok {
        saveScheduled := true;
      }
    }

    /** `.delBtn`: after confirmation, the table containing the row keeps the
        entities whose id is not loosely equal (`!=`) to the row's id, that
        table is redrawn and the save is scheduled (`needsSave`); a row in no
        table changes nothing and schedules nothing. A null entity makes the
        filter throw. */
    method DeleteRow(confirmed: bool, row: Option<DataRow>) returns (r: Outcome)
      modifies this
      ensures !confirmed || row.None? || ContainingTable(row.value.tbodyId).None? ==>
        r == NotFound && state == old(state) && saveScheduled == old(saveScheduled)
      ensures confirmed && row.Some? && ContainingTable(row.value.tbodyId).Some? ==>
        var c := ContainingTable(row.value.tbodyId).value;
        match Without(Items(old(state), c), row.value.id, Loose)
        case None => r == Failed && state == old(state) && saveScheduled == old(saveScheduled)
        case Some(kept) =>
          && r == Done(state) && state == WithItems(old(state), c, kept)
          && saveScheduled == (old(saveScheduled) || Ui.SectionDraws(state, c))
      ensures storage == old(storage)
    {
      if !confirmed || row.None? {
        return NotFound;
      }
      var table := ContainingTable(row.value.tbodyId);
      if table.None? {
        return NotFound;
      }
      var kept := Without(Items(state, table.value), row.value.id, Loose);
      if kept.None? {
        return Failed;
      }
      state := WithItems(state, table.value, kept.value);
      r := Done(state);
      var ok := Ui.RenderSection(state, table.value);
      if ok {
        saveScheduled := true;
      }
    }

    /** The nested-list buttons: the owner's section is redrawn and the save
        is scheduled (`needsSave`) only when the owner was found and nothing
        threw. */
    method Nested(b: NestedButton) returns (r: Outcome)
      modifies this
      ensures r == Pressed(old(state), b)
      ensures r.Done? ==> state == r.doc && saveScheduled == (old(saveScheduled) || Ui.SectionDraws(state, NestedSection(b)))
      ensures !r.Done? ==> state == old(state) && saveScheduled == old(saveScheduled)
      ensures storage == old(storage)
    {
      r := Pressed(state, b);
      if r.Done? {
        state := r.doc;
        var ok := Ui.RenderSection(state, NestedSection(b));
        if ok {
          saveScheduled := true;
        }
      }
    }

    /** `.delQcBtn`: after confirmation, keep the blocks whose id is not loosely
        equal to the block's id and redraw the QC blocks. */
    method DeleteQcBlock(confirmed: bool, blockId: string) returns (r: Outcome)
      modifies this
      ensures !confirmed ==> r == NotFound && state == old(state) && saveScheduled == old(saveScheduled)
      ensures confirmed ==> match Without(old(state).qualityControl, blockId, Loose)
        case None => r == Failed && state == old(state) && saveScheduled == old(saveScheduled)
        case Some(kept) =>
          && r == Done(state) && state == old(state).(qualityControl := kept)
          && saveScheduled == (old(saveScheduled) || Ui.SectionDraws(state, QualityControl))
      ensures storage == old(storage)
    {
      if !confirmed {
        return NotFound;
      }
      var kept := Without(state.qualityControl, blockId, Loose);
      if kept.None? {
        return Failed;
      }
      state := state.(qualityControl := kept.value);
      r := Done(state);
      var ok := Ui.RenderSection(state, QualityControl);
      if ok {
        saveScheduled := true;
      }
    }

    /** Reading a file: parse, normalise, then `loadState`, which replaces the
        document before showing it, so a throw while showing leaves the new
        document in place. `ok` is true when the user is told the data was
        loaded rather than alerted of an error. No save is scheduled. */
    method Import(text: string, today: string, inputIds: set<string>, selectorOk: string -> bool) returns (ok: bool)
      modifies this
      ensures var n := Imported(parse, text, today, WithoutRegulations);
        && state == (if n.Some? then n.value else old(state))
        && ok == (n.Some? && Renderers.SelectorsOk(n.value.meta, selectorOk) && Ui.PageDraws(n.value))
      ensures storage == old(storage) && saveScheduled == old(saveScheduled)
    {
      var j := parse(text);
      if j.None? {
        return false;
      }
      var n := NormalizeState(j.value, today, WithoutRegulations);
      if n.None? {
        return false;
      }
      state := n.value;
      var values, descriptionPrint, page;
      ok, values, descriptionPrint, page := Show(inputIds, selectorOk);
      Ui.PageDrawsSpec(state);
    }

    /** `#clearBtn`: after confirmation the stored draft is removed and the
        initial document shown, so a reload starts from the initial document. */
    method Clear(confirmed: bool, today: string)
      modifies this
      ensures state == (if confirmed then InitialState(today, WithoutRegulations) else old(state))
      ensures storage == (if confirmed then old(storage) - {StorageKey} else old(storage))
      ensures confirmed ==> forall day :: LoadDraft(storage, parse, day, WithoutRegulations).None?
      ensures saveScheduled == old(saveScheduled)
    {
      if confirmed {
        storage := storage - {StorageKey};
        state := InitialState(today, WithoutRegulations);
      }
    }

    /** `#saveBtn`: `saveState()` at once, then the file
        `<productCode || 'techspec'>_<today>.json` holds the document's
        indented JSON text. */
    method Export(inputs: seq<(string, string)>, today: string) returns (name: Option<string>, text: string)
      modifies this
      ensures state == old(state).(meta := SyncedMeta(old(state).meta, inputs))
      ensures storage == SaveDraft(old(storage), stringify, state)
      ensures name == (match ExportBase(state.meta) case Some(b) => Some(b + "_" + today + ".json") case None => None)
      ensures text == pretty(ToJson(state))
      ensures saveScheduled == old(saveScheduled)
    {
      SaveState(inputs);
      var base := ExportBase(state.meta);
      name := if base.Some? then Some(base.value + "_" + today + ".json") else None;
      text := pretty(ToJson(state));
    }

    /** The display half of `loadState`: each meta key with an input of that
        id gets its value, the print-only description gets the description,
        and `renderAll()` draws the document; this edition's page has every
        container. A meta key that is not a valid selector throws before the
        description and the page are drawn. `ok` is false when anything threw. */
    method Show(inputIds: set<string>, selectorOk: string -> bool)
      returns (ok: bool, values: map<string, Json>, descriptionPrint: Option<Json>, page: Option<Ui.Page>)
      ensures values.Keys <= state.meta.Keys * inputIds && forall k :: k in values ==> values[k] == state.meta[k]
      ensures Renderers.SelectorsOk(state.meta, selectorOk) ==>
        && values.Keys == state.meta.Keys * inputIds
        && descriptionPrint == Some(Shown(JObj(state.meta), "description"))
        && page == Some(Ui.PageOf(Ui.AllContainers, state))
      ensures !Renderers.SelectorsOk(state.meta, selectorOk) ==> descriptionPrint.None? && page.None?
      ensures ok == (Renderers.SelectorsOk(state.meta, selectorOk) && Ui.NothingThrew(Ui.PageOf(Ui.AllContainers, state)))
    {
      var metaOk;
      metaOk, values, descriptionPrint := Renderers.RenderMeta(state.meta, inputIds, selectorOk);
      if !metaOk {
        return false, values, None, None;
      }
      var p := Ui.RenderAll(Ui.AllContainers, state);
      page := Some(p);
      ok := Ui.NothingThrew(p);
    }
  }
}
