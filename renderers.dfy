/** js/renderers.js: the renderers of the store-based page. They read the
    whole document, show the formulation sorted by phase, and draw the
    process equipment as chips. Their simple tables and QC blocks are drawn
    as js/ui.js draws them (`Views.TableRows`, `Views.QcBlocks`). */
module Renderers {
  import opened JsonValues
  import opened Numbers
  import opened Document
  import opened PhaseSort
  import opened Views
  import opened ProcessView

  /** The formulation as drawn: a sorted copy of the ingredients, nothing at
      all when the sort throws. */
  function SortedLines(d: Doc, leq: (string, string) -> bool): Rendered<IngredientLine> {
    match SortByPhase(d.ingredients, leq)
    case None => Rendered([], false)
    case Some(s) => IngredientLines(s, BatchSizeOf(d.meta))
  }

  /** `renderSimpleTable(tbodyId, data, templateId, keys)`: the page has every
      table body, so the rows are always drawn. */
  method RenderSimpleTable(items: seq<Json>, keys: seq<string>) returns (r: Rendered<TableRow>)
    ensures r == TableRows(items, keys)
  {
    r := RenderTableRows(items, keys);
  }

  /** `renderQc(state)`. */
  method RenderQc(d: Doc) returns (r: Rendered<QcBlockView>)
    ensures r == QcBlocks(d.qualityControl)
  {
    r := RenderQcBlocks(d.qualityControl);
  }

  /** `renderIngredients(state)`: sort a copy, draw it, then `updateTotals`
      over the unsorted ingredients. */
  method RenderIngredients(d: Doc, leq: (string, string) -> bool) returns (lines: Rendered<IngredientLine>, totals: Option<Totals>)
    ensures lines == SortedLines(d, leq)
    ensures totals == (if lines.complete then TotalsOf(d.ingredients) else None)
  {
    var sorted := SortByPhase(d.ingredients, leq);
    if sorted.None? {
      return Rendered([], false), None;
    }
    lines := RenderIngredientRows(sorted.value, BatchSizeOf(d.meta));
    totals := None;
    if lines.complete {
      totals := UpdateTotals(d.ingredients);
    }
  }

  /** When the sorted formulation is drawn in full, its rows are those of a
      rearrangement of the ingredients ordered by phase. */
  lemma SortedRows(d: Doc, leq: (string, string) -> bool)
    requires TotalPreorder(leq) && SortedLines(d, leq).complete
    ensures var rows := DataRows(SortedLines(d, leq).rows);
      exists s ::
        && multiset(s) == multiset(d.ingredients) && Sorted(s, leq)
        && |rows| == |s|
        && forall i :: 0 <= i < |s| ==> rows[i] == IngredientRowOf(s[i], BatchSizeOf(d.meta))
  {
    SortByPhaseSpec(d.ingredients, leq);
    IngredientRowsInOrder(SortByPhase(d.ingredients, leq).value, BatchSizeOf(d.meta));
  }

  /** `ings` have a total, and the masses on `lines` add up to `batchSize`
      times that total over 100. */
  predicate MassesMatchTotal(lines: Rendered<IngredientLine>, ings: seq<Json>, batchSize: real) {
    TotalsOf(ings).Some? && Scales(MassSum(lines.rows), batchSize, TotalsOf(ings).value.sum)
  }

  /** The masses on the sorted rows add up to the batch size times the total
      that `updateTotals` shows for the unsorted ingredients, over 100. */
  lemma SortedMassesMatchTotal(d: Doc, leq: (string, string) -> bool)
    requires SortedLines(d, leq).complete
    ensures MassesMatchTotal(SortedLines(d, leq), d.ingredients, BatchSizeOf(d.meta))
  {
    var s := SortByPhase(d.ingredients, leq).value;
    if |d.ingredients| >= 2 {
      InsertionSortPermutes(d.ingredients, leq);
    }
    MassesOfRearrangement(SortedLines(d, leq), s, d.ingredients, BatchSizeOf(d.meta));
  }

  lemma MassesOfRearrangement(lines: Rendered<IngredientLine>, s: seq<Json>, ings: seq<Json>, b: real)
    requires lines == IngredientLines(s, b) && lines.complete && multiset(s) == multiset(ings)
    ensures MassesMatchTotal(lines, ings, b)
  {
    NoNullDrawn(s, b);
    assert JNull !in ings by {
      assert JNull !in multiset(s);
    }
    MassesAddUp(s, b);
    PercentSumPermutation(s, ings);
    assert TotalsOf(ings).value.sum == PercentSum(ings);
  }

  lemma NoNullDrawn(s: seq<Json>, b: real)
    requires IngredientLines(s, b).complete
    ensures JNull !in s
  {
    IngredientLinesComplete(s, b);
  }

  /** The chip layout of the process table: the short-name index is built
      first, and a null equipment entry throws before any step is drawn. */
  function ChipProcessRows(d: Doc): Rendered<ProcessRow> {
    match EquipmentIndex(d.equipment)
    case None => Rendered([], false)
    case Some(index) => ProcessRows(d.processSteps, ChipLayout(d.equipment, index))
  }

  /** `renderProcess(state)`. */
  method RenderProcess(d: Doc) returns (r: Rendered<ProcessRow>)
    ensures r == ChipProcessRows(d)
  {
    var index := IndexEquipment(d.equipment);
    if index.None? {
      return Rendered([], false);
    }
    r := RenderProcessRows(d.processSteps, ChipLayout(d.equipment, index.value));
  }

  /** A chip shows the clean name `name`, titled by the last equipment entry
      of that short name when there is one. */
  ghost predicate ChipShows(eqs: seq<Json>, name: string, chip: Chip) {
    && chip.name == name && CleanToken(name)
    && (chip.entry.Some? <==> exists j :: 0 <= j < |eqs| && NameKey(eqs[j]) == Some(name))
    && (chip.entry.Some? ==> exists j :: LastNamed(eqs, name, j) && chip.entry.value == eqs[j])
  }

  /** Each chip looked up in the index built from `eqs` shows its name. */
  lemma ChipsShow(eqs: seq<Json>, ts: seq<string>)
    requires EquipmentIndex(eqs).Some?
    requires forall i :: 0 <= i < |ts| ==> CleanToken(ts[i])
    ensures var chips := ChipsFor(ts, EquipmentIndex(eqs).value);
      forall i :: 0 <= i < |ts| ==> ChipShows(eqs, ts[i], chips[i])
  {
    var index := EquipmentIndex(eqs).value;
    var chips := ChipsFor(ts, index);
    IndexKeys(eqs);
    forall i | 0 <= i < |ts| ensures ChipShows(eqs, ts[i], chips[i]) {
      if ts[i] in index {
        IndexLastWins(eqs, ts[i]);
      }
    }
  }

  /** A step's chips: one per chosen name, in order, each showing that name;
      the picker offers exactly the entries not chosen. */
  lemma ChipCellSpec(d: Doc, step: Json)
    requires EquipmentIndex(d.equipment).Some?
    requires EquipmentCellOf(step, ChipLayout(d.equipment, EquipmentIndex(d.equipment).value)).Some?
    ensures var index := EquipmentIndex(d.equipment).value;
      var cell := EquipmentCellOf(step, ChipLayout(d.equipment, index)).value;
      && cell.EquipmentChips?
      && Shown(step, "equipment") == JStr(cell.chosen)
      && |cell.chips| == |Tokens(cell.chosen)|
      && (forall i :: 0 <= i < |cell.chips| ==> ChipShows(d.equipment, Tokens(cell.chosen)[i], cell.chips[i]))
      && forall e :: e in cell.options <==> e in d.equipment && !Chosen(e, Tokens(cell.chosen))
  {
    var index := EquipmentIndex(d.equipment).value;
    var s := Shown(step, "equipment").s;
    var ts := Tokens(s);
    assert EquipmentCellOf(step, ChipLayout(d.equipment, index)).value
      == EquipmentChips(s, ChipsFor(ts, index), PickerOptions(d.equipment, ts));
    TokensAreClean(s);
    ChipsShow(d.equipment, ts);
  }

  /** Every meta key makes a valid `#id` selector; `selectorOk` stands for the
      browser's selector parser, which throws a SyntaxError on the others. */
  predicate SelectorsOk(meta: map<string, Json>, selectorOk: string -> bool) {
    forall k :: k in meta ==> selectorOk(k)
  }

  /** `renderMeta(state)`: each meta key with an input of that id gets the
      value; the description is copied to its print element. A key that is not
      a valid selector throws: the inputs filled so far keep their values and
      the description is not copied. */
  method RenderMeta(meta: map<string, Json>, inputIds: set<string>, selectorOk: string -> bool)
    returns (ok: bool, values: map<string, Json>, descriptionPrint: Option<Json>)
    ensures ok == SelectorsOk(meta, selectorOk)
    ensures ok ==> values.Keys == meta.Keys * inputIds && descriptionPrint == Some(Shown(JObj(meta), "description"))
    ensures !ok ==> values.Keys <= meta.Keys * inputIds && descriptionPrint.None?
    ensures forall k :: k in values ==> values[k] == meta[k]
  {
    values := map[];
    var keys := meta.Keys;
    while keys != {}
      invariant keys <= meta.Keys
      invariant values.Keys == (meta.Keys - keys) * inputIds
      invariant forall k :: k in values ==> values[k] == meta[k]
      invariant forall k :: k in meta.Keys - keys ==> selectorOk(k)
      decreases |keys|
    {
      var k :| k in keys;
      if !selectorOk(k) {
        return false, values, None;
      }
      if k in inputIds {
        values := values[k := meta[k]];
      }
      keys := keys - {k};
    }
    ok := true;
    descriptionPrint := Some(Shown(JObj(meta), "description"));
  }
}
