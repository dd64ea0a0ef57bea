/** js/main.js: the editor page's event handlers over the module-level
    document `state`. Handlers change the document in place, redraw the
    section they changed with the renderers of js/ui.js, and then schedule the
    debounced save, which copies the meta inputs into the document and writes
    the draft when it fires. A TypeError in the redraw ends the handler before
    the save is scheduled. */
module MainEditor {
  import opened JsonValues
  import opened Document
  import opened PhaseSort
  import opened Edits
  import Ui
  import Renderers

  /** The collection a delete button's row belongs to, from its tbody's id, or
      from the row's `param-row` / `step-header` class for process rows. */
  function DeleteTarget(tbodyId: string, stepRowClass: bool): (r: Option<Collection>)
    ensures r == Some(Ingredients) <==> tbodyId == "formBody"
    ensures r == None <==> tbodyId !in {"formBody", "perfBody", "stabBody", "equipmentBody", "procBody"} && !stepRowClass
  {
    if tbodyId == "formBody" then Some(Ingredients)
    else if tbodyId == "perfBody" then Some(PerformanceData)
    else if tbodyId == "stabBody" then Some(StabilityData)
    else if tbodyId == "equipmentBody" then Some(Equipment)
    else if tbodyId == "procBody" || stepRowClass then Some(ProcessSteps)
    else None
  }

  /** The row a delete button sits in: its tbody's id, whether it carries a
      process-row class, and its `data-id`. */
  datatype ButtonRow = ButtonRow(tbodyId: string, stepRowClass: bool, id: string)

  /** `handleTableUpdate` on a table cell: the edit, then `renderIngredients`
      for a `percent` or `phase` edit; a TypeError in either ends the update
      before its `debouncedSave()`. */
  function TableUpdate(d: Doc, cell: Cell, value: string, leq: (string, string) -> bool): Effect {
    var e := EditCell(d, cell, value, leq);
    if e.completed && RedrawsFormulation(d, cell) then Effect(e.doc, Ui.SectionDraws(e.doc, Ingredients)) else e
  }

  class Editor {
    /** `JSON.parse`, `JSON.stringify`, `JSON.stringify(_, null, 2)` and
        `localeCompare`. */
    const parse: string -> Option<Json>
    const stringify: Json -> string
    const pretty: Json -> string
    const leq: (string, string) -> bool
    /** The document being edited. */
    var state: Doc
    /** The browser's local storage. */
    var storage: map<string, string>
    /** A debounced save is pending. */
    var saveScheduled: bool

    /** Page load: the saved draft when it loads, otherwise the initial document. */
    constructor(saved: map<string, string>, parse: string -> Option<Json>, stringify: Json -> string,
                pretty: Json -> string, leq: (string, string) -> bool, today: string)
      ensures this.parse == parse && this.stringify == stringify && this.pretty == pretty && this.leq == leq
      ensures state == (match LoadDraft(saved, parse, today, WithRegulations)
                        case Some(d) => d
                        case None => InitialState(today, WithRegulations))
      ensures storage == saved && !saveScheduled
    {
      this.parse := parse;
      this.stringify := stringify;
      this.pretty := pretty;
      this.leq := leq;
      storage := saved;
      saveScheduled := false;
      state := InitialState(today, WithRegulations);
      var loaded := LoadDraft(saved, parse, today, WithRegulations);
      if loaded.Some? {
        state := loaded.value;
      }
    }

    /** The debounced save fires: the meta inputs are copied into the document,
        then the draft is written. Nothing happens when no save is pending. */
    method FlushSave(inputs: seq<(string, string)>)
      modifies this
      ensures old(saveScheduled) ==>
        && state == old(state).(meta := SyncedMeta(old(state).meta, inputs))
        && storage == SaveDraft(old(storage), stringify, state)
      ensures !old(saveScheduled) ==> state == old(state) && storage == old(storage)
      ensures !saveScheduled
    {
      if saveScheduled {
        var meta := SyncMeta(state.meta, inputs);
        state := state.(meta := meta);
        storage := SaveDraft(storage, stringify, state);
      }
      saveScheduled := false;
    }

    /** The `input` listener. `handleTableUpdate` returns at once unless the
        target is a data field (`dataField`); for a table cell it makes the
        edit and, for `percent` and `phase`, redraws the formulation; then it
        schedules the save. A batch size input then sets the batch size and
        redraws the formulation, and the listener schedules the save. A
        TypeError ends the listener where it occurs. */
    method Input(dataField: bool, cell: Option<Cell>, targetId: string, value: string)
      modifies this
      ensures var e := if dataField && cell.Some? then TableUpdate(old(state), cell.value, value, leq) else Effect(old(state), true);
        var after := if targetId == "batchSize" then WithBatchSize(e.doc, value) else e.doc;
        && (!e.completed ==> state == e.doc && saveScheduled == old(saveScheduled))
        && (!e.completed || state == after)
        && (!e.completed ||
            saveScheduled == (old(saveScheduled) || dataField || targetId != "batchSize" || Ui.SectionDraws(after, Ingredients)))
      ensures storage == old(storage)
    {
      if dataField {
        if cell.Some? {
          var before := state;
          var e := EditCell(state, cell.value, value, leq);
          state := e.doc;
          if !e.completed {
            return;
          }
          if RedrawsFormulation(before, cell.value) {
            var ok := Ui.RenderSection(state, Ingredients);
            if !ok {
              return;
            }
          }
        }
        saveScheduled := true;
      }
      if targetId == "batchSize" {
        state := WithBatchSize(state, value);
        var ok := Ui.RenderSection(state, Ingredients);
        if !ok {
          return;
        }
      }
      saveScheduled := true;
    }

    /** An "add" button: push the fresh entity, redraw its section, schedule
        the save. */
    method AddItem(c: Collection, newId: string)
      modifies this
      ensures state == Appended(old(state), c, NewEntity(c, newId)) && storage == old(storage)
      ensures saveScheduled == (old(saveScheduled) || Ui.SectionDraws(state, c))
    {
      state := Appended(state, c, NewEntity(c, newId));
      var ok := Ui.RenderSection(state, c);
      if ok {
        saveScheduled := true;
      }
    }

    /** `.delBtn`: after confirmation, the row's collection keeps the entities
        whose id is not strictly equal (`!==`) to the row's id; a row outside
        the five tables changes nothing. Either way the whole page is redrawn
        and then the save is scheduled. A null entity makes the filter throw
        and nothing changes. */
    method DeleteRow(confirmed: bool, row: Option<ButtonRow>) returns (r: Outcome)
      modifies this
      ensures !confirmed || row.None? ==> r == NotFound && state == old(state) && saveScheduled == old(saveScheduled)
      ensures confirmed && row.Some? && DeleteTarget(row.value.tbodyId, row.value.stepRowClass).None? ==>
        r == NotFound && state == old(state) && saveScheduled == (old(saveScheduled) || Ui.PageDraws(state))
      ensures confirmed && row.Some? && DeleteTarget(row.value.tbodyId, row.value.stepRowClass).Some? ==>
        var c := DeleteTarget(row.value.tbodyId, row.value.stepRowClass).value;
        match Without(Items(old(state), c), row.value.id, Strict)
        case None => r == Failed && state == old(state) && saveScheduled == old(saveScheduled)
        case Some(kept) =>
          r == Done(state) && state == WithItems(old(state), c, kept) && saveScheduled == (old(saveScheduled) || Ui.PageDraws(state))
      ensures storage == old(storage)
    {
      if !confirmed || row.None? {
        return NotFound;
      }
      var target := DeleteTarget(row.value.tbodyId, row.value.stepRowClass);
      r := NotFound;
      if target.Some? {
        var kept := Without(Items(state, target.value), row.value.id, Strict);
        if kept.None? {
          return Failed;
        }
        state := WithItems(state, target.value, kept.value);
        r := Done(state);
      }
      var ok := Ui.RenderPage(state);
      if ok {
        saveScheduled := true;
      }
    }

    /** The nested-list buttons `.addParamBtn`, `.delParamBtn`, `.addQcCheckBtn`
        and `.delQcCheckBtn`: find the owner by loose id, change its list and
        redraw its section; the save is scheduled only when the owner was found
        and nothing threw. */
    method Nested(b: NestedButton) returns (r: Outcome)
      modifies this
      ensures r == Pressed(old(state), b)
      ensures r.Done? ==> state == r.doc && saveScheduled == (old(saveScheduled) || Ui.SectionDraws(state, NestedSection(b)))
      ensures !r.Done? ==> state == old(state) && saveScheduled == old(saveScheduled)
      ensures storage == old(storage)
    {
      r := Pressed(state, b);
      if r.Done? {
        state := r.doc;
        var ok := Ui.RenderSection(state, NestedSection(b));
        if ok {
          saveScheduled := true;
        }
      }
    }

    /** `.delQcBtn`: after confirmation, keep the blocks whose id is not loosely
        equal (`!=`) to the block's id, redraw the QC blocks, schedule the save. */
    method DeleteQcBlock(confirmed: bool, blockId: string) returns (r: Outcome)
      modifies this
      ensures !confirmed ==> r == NotFound && state == old(state) && saveScheduled == old(saveScheduled)
      ensures confirmed ==> match Without(old(state).qualityControl, blockId, Loose)
        case None => r == Failed && state == old(state) && saveScheduled == old(saveScheduled)
        case Some(kept) =>
          && r == Done(state) && state == old(state).(qualityControl := kept)
          && saveScheduled == (old(saveScheduled) || Ui.SectionDraws(state, QualityControl))
      ensures storage == old(storage)
    {
      if !confirmed {
        return NotFound;
      }
      var kept := Without(state.qualityControl, blockId, Loose);
      if kept.None? {
        return Failed;
      }
      state := state.(qualityControl := kept.value);
      r := Done(state);
      var ok := Ui.RenderSection(state, QualityControl);
      if ok {
        saveScheduled := true;
      }
    }

    /** Reading a file: `applyState(normalizeState(JSON.parse(text)))` on the
        full page. When parsing or normalising throws, nothing changes; once
        normalised, the document replaces the current one before it is shown,
        so a throw while showing it leaves it in place. `ok` is false when the
        user is alerted. No save is scheduled. */
    method Import(text: string, today: string, inputIds: set<string>, selectorOk: string -> bool) returns (ok: bool)
      modifies this
      ensures var n := Imported(parse, text, today, WithRegulations);
        && state == (if n.Some? then n.value else old(state))
        && ok == (n.Some? && Renderers.SelectorsOk(n.value.meta, selectorOk) && Ui.PageDraws(n.value))
      ensures storage == old(storage) && saveScheduled == old(saveScheduled)
    {
      var j := parse(text);
      if j.None? {
        return false;
      }
      var n := NormalizeState(j.value, today, WithRegulations);
      if n.None? {
        return false;
      }
      state := n.value;
      var values, descriptionPrint, page;
      ok, values, descriptionPrint, page := Show(Ui.AllContainers, inputIds, selectorOk);
      Ui.PageDrawsSpec(state);
    }

    /** `#clearBtn`: after confirmation the initial document is shown; the
        stored draft is neither removed nor overwritten. */
    method Clear(confirmed: bool, today: string)
      modifies this
      ensures state == (if confirmed then InitialState(today, WithRegulations) else old(state))
      ensures storage == old(storage) && saveScheduled == old(saveScheduled)
    {
      if confirmed {
        state := InitialState(today, WithRegulations);
      }
    }

    /** `#saveBtn`: the meta inputs are copied into the document, which stays
        normal, and the file `<productCode || 'techspec'>.json` holds the
        document's indented JSON text. */
    method Export(inputs: seq<(string, string)>) returns (name: Option<string>, text: string)
      modifies this
      ensures state == old(state).(meta := SyncedMeta(old(state).meta, inputs))
      ensures old(IsNormal(state, WithRegulations)) ==> IsNormal(state, WithRegulations)
      ensures name == (match ExportBase(state.meta) case Some(b) => Some(b + ".json") case None => None)
      ensures text == pretty(ToJson(state))
      ensures storage == old(storage) && saveScheduled == old(saveScheduled)
    {
      var meta := SyncMeta(state.meta, inputs);
      state := state.(meta := meta);
      var base := ExportBase(state.meta);
      name := if base.Some? then Some(base.value + ".json") else None;
      text := pretty(ToJson(state));
    }

    /** The display half of `applyState` (js/main.js): each meta key with an
        input of that id gets its value, the print-only description gets the
        description when that element exists, and `renderAll` draws the
        document into the containers that exist. A meta key that is not a valid
        selector throws before the description and the page are drawn. `ok`
        is false when anything threw. */
    method Show(present: set<string>, inputIds: set<string>, selectorOk: string -> bool)
      returns (ok: bool, values: map<string, Json>, descriptionPrint: Option<Json>, page: Option<Ui.Page>)
      ensures values.Keys <= state.meta.Keys * inputIds && forall k :: k in values ==> values[k] == state.meta[k]
      ensures Renderers.SelectorsOk(state.meta, selectorOk) ==>
        && values.Keys == state.meta.Keys * inputIds
        && descriptionPrint == (if "description-print" in present then Some(Shown(JObj(state.meta), "description")) else None)
        && page == Some(Ui.PageOf(present, state))
      ensures !Renderers.SelectorsOk(state.meta, selectorOk) ==> descriptionPrint.None? && page.None?
      ensures ok == (Renderers.SelectorsOk(state.meta, selectorOk) && Ui.NothingThrew(Ui.PageOf(present, state)))
    {
      var metaOk, shown;
      metaOk, values, shown := Renderers.RenderMeta(state.meta, inputIds, selectorOk);
      if !metaOk {
        return false, values, None, None;
      }
      descriptionPrint := if "description-print" in present then shown else None;
      var p := Ui.RenderAll(present, state);
      page := Some(p);
      ok := Ui.NothingThrew(p);
    }
  }
}
