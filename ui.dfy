/** js/ui.js: the editor page's renderers. Each one returns at once when its
    container is missing from the page (`present` holds the ids of the
    containers that exist); `renderAll` runs them in order, so a TypeError in
    one leaves every later section as it was. */
module Ui {
  import opened JsonValues
  import opened Numbers
  import opened Document
  import opened PhaseSort
  import opened Views
  import opened ProcessView
  import Edits

  /** What `renderAll` drew: None for a section it left as it was, because its
      container is missing or an earlier renderer threw. */
  datatype Page = Page(
    formulation: Option<Rendered<IngredientLine>>,
    totals: Option<Totals>,
    performance: Option<Rendered<TableRow>>,
    stability: Option<Rendered<TableRow>>,
    equipment: Option<Rendered<TableRow>>,
    process: Option<Rendered<ProcessRow>>,
    qc: Option<Rendered<QcBlockView>>)

  const PerformanceKeys: seq<string> := ["parameter", "value"]
  const StabilityKeys: seq<string> := ["condition", "result"]
  const EquipmentKeys: seq<string> := ["shortName", "fullName", "notes"]

  /** Every container `renderAll` draws into. */
  const AllContainers: set<string> := {"formBody", "sumPercent", "perfBody", "stabBody", "equipmentBody", "procBody", "qcContainer"}

  /** A section was drawn and its renderer threw part-way. */
  predicate Threw<T>(r: Option<Rendered<T>>) {
    r.Some? && !r.value.complete
  }

  function Drawn<T>(present: set<string>, id: string, r: Rendered<T>): Option<Rendered<T>> {
    if id in present then Some(r) else None
  }

  /** `renderAll(state)`: the sections in order, each skipped once a renderer
      before it has thrown. */
  function PageOf(present: set<string>, d: Doc): (p: Page)
    ensures Threw(p.formulation) ==>
      p.totals.None? && p.performance.None? && p.stability.None? && p.equipment.None? && p.process.None? && p.qc.None?
    ensures Threw(p.performance) ==> p.stability.None? && p.equipment.None? && p.process.None? && p.qc.None?
    ensures Threw(p.stability) ==> p.equipment.None? && p.process.None? && p.qc.None?
    ensures Threw(p.equipment) ==> p.process.None? && p.qc.None?
    ensures Threw(p.process) ==> p.qc.None?
  {
    var f := Drawn(present, "formBody", IngredientLines(d.ingredients, BatchSizeOf(d.meta)));
    var t := if f.Some? && f.value.complete && "sumPercent" in present then TotalsOf(d.ingredients) else None;
    var stop1 := Threw(f);
    var perf := if stop1 then None else Drawn(present, "perfBody", TableRows(d.performanceData, PerformanceKeys));
    var stop2 := stop1 || Threw(perf);
    var stab := if stop2 then None else Drawn(present, "stabBody", TableRows(d.stabilityData, StabilityKeys));
    var stop3 := stop2 || Threw(stab);
    var eq := if stop3 then None else Drawn(present, "equipmentBody", TableRows(d.equipment, EquipmentKeys));
    var stop4 := stop3 || Threw(eq);
    var proc := if stop4 then None else Drawn(present, "procBody", ProcessRows(d.processSteps, TemplateLayout));
    var stop5 := stop4 || Threw(proc);
    var qc := if stop5 then None else Drawn(present, "qcContainer", QcBlocks(d.qualityControl));
    Page(f, t, perf, stab, eq, proc, qc)
  }

  /** `renderSimpleTable(tbodyId, data, templateId, keys)`. */
  method RenderSimpleTable(present: set<string>, tbodyId: string, items: seq<Json>, keys: seq<string>)
    returns (r: Option<Rendered<TableRow>>)
    ensures r == Drawn(present, tbodyId, TableRows(items, keys))
  {
    if tbodyId !in present {
      return None;
    }
    var rows := RenderTableRows(items, keys);
    return Some(rows);
  }

  /** `updateTotals(ingredients)`: the sum is taken before the indicator is
      looked up. */
  method UpdateTotalsOn(present: set<string>, ings: seq<Json>) returns (t: Option<Totals>)
    ensures t == (if "sumPercent" in present then TotalsOf(ings) else None)
  {
    t := UpdateTotals(ings);
    if "sumPercent" !in present {
      t := None;
    }
  }

  /** `renderIngredients(ingredients, batchSize)`: the rows, then the totals
      once every row is drawn. */
  method RenderIngredients(present: set<string>, ings: seq<Json>, batchSize: Option<Json>)
    returns (lines: Option<Rendered<IngredientLine>>, totals: Option<Totals>)
    ensures lines == Drawn(present, "formBody", IngredientLines(ings, NumberOrZero(batchSize)))
    ensures totals == (if lines.Some? && lines.value.complete && "sumPercent" in present then TotalsOf(ings) else None)
  {
    if "formBody" !in present {
      return None, None;
    }
    var r := RenderIngredientRows(ings, NumberOrZero(batchSize));
    lines := Some(r);
    totals := None;
    if r.complete {
      totals := UpdateTotalsOn(present, ings);
    }
  }

  /** `renderProcess(processSteps)`. */
  method RenderProcess(present: set<string>, steps: seq<Json>) returns (r: Option<Rendered<ProcessRow>>)
    ensures r == Drawn(present, "procBody", ProcessRows(steps, TemplateLayout))
  {
    if "procBody" !in present {
      return None;
    }
    var rows := RenderProcessRows(steps, TemplateLayout);
    return Some(rows);
  }

  /** `renderQc(qualityControl)`. */
  method RenderQc(present: set<string>, blocks: seq<Json>) returns (r: Option<Rendered<QcBlockView>>)
    ensures r == Drawn(present, "qcContainer", QcBlocks(blocks))
  {
    if "qcContainer" !in present {
      return None;
    }
    var views := RenderQcBlocks(blocks);
    return Some(views);
  }

  /** `renderAll(state)`. */
  method RenderAll(present: set<string>, d: Doc) returns (page: Page)
    ensures page == PageOf(present, d)
  {
    var f, t := RenderIngredients(present, d.ingredients, Prop(JObj(d.meta), "batchSize"));
    page := Page(f, t, None, None, None, None, None);
    if Threw(f) {
      return;
    }
    var perf := RenderSimpleTable(present, "perfBody", d.performanceData, PerformanceKeys);
    page := page.(performance := perf);
    if Threw(perf) {
      return;
    }
    var stab := RenderSimpleTable(present, "stabBody", d.stabilityData, StabilityKeys);
    page := page.(stability := stab);
    if Threw(stab) {
      return;
    }
    var eq := RenderSimpleTable(present, "equipmentBody", d.equipment, EquipmentKeys);
    page := page.(equipment := eq);
    if Threw(eq) {
      return;
    }
    var proc := RenderProcess(present, d.processSteps);
    page := page.(process := proc);
    if Threw(proc) {
      return;
    }
    var qc := RenderQc(present, d.qualityControl);
    page := page.(qc := qc);
  }

  /** Every entity of the document can be drawn. */
  predicate DocRenders(d: Doc) {
    && AllComparable(d.ingredients)
    && JNull !in d.performanceData && JNull !in d.stabilityData && JNull !in d.equipment
    && (forall i :: 0 <= i < |d.processSteps| ==> Renders(d.processSteps[i], TemplateLayout))
    && (forall i :: 0 <= i < |d.qualityControl| ==> BlockRenders(d.qualityControl[i]))
  }

  /** On a full page, a document whose entities can all be drawn is drawn in
      full: one row per ingredient and per table entry, `max(1, parameters)`
      rows per step, one block per QC block, and the percentage total. */
  lemma RenderAllComplete(d: Doc)
    requires DocRenders(d)
    ensures var p := PageOf(AllContainers, d);
      && p.formulation.Some? && p.formulation.value.complete
      && |DataRows(p.formulation.value.rows)| == |d.ingredients|
      && p.totals == Some(Totals(PercentSum(d.ingredients), Abs(PercentSum(d.ingredients) - 100.0) < 0.01))
      && p.performance == Some(Rendered(p.performance.value.rows, true)) && |p.performance.value.rows| == |d.performanceData|
      && p.stability == Some(Rendered(p.stability.value.rows, true)) && |p.stability.value.rows| == |d.stabilityData|
      && p.equipment == Some(Rendered(p.equipment.value.rows, true)) && |p.equipment.value.rows| == |d.equipment|
      && p.process.Some? && p.process.value.complete && |p.process.value.rows| == TotalBudget(d.processSteps)
      && p.qc.Some? && p.qc.value.complete && |p.qc.value.rows| == |d.qualityControl|
  {
    var b := BatchSizeOf(d.meta);
    IngredientLinesComplete(d.ingredients, b);
    IngredientRowsInOrder(d.ingredients, b);
    forall i | 0 <= i < |d.ingredients| ensures d.ingredients[i] != JNull {
      assert PhaseText(d.ingredients[i]).Some?;
    }
    ProcessRowsComplete(d.processSteps, TemplateLayout);
    ProcessRowsCount(d.processSteps, TemplateLayout);
    QcBlocksSpec(d.qualityControl);
  }

  /** One entry of collection `c` can be drawn: an ingredient whose phase the
      upper-casing can read, a table entry that is not null, a process step
      that renders on the template layout, a QC block whose checks can all be
      drawn. */
  predicate EntryDraws(c: Collection, x: Json) {
    match c
    case Ingredients => PhaseText(x).Some?
    case ProcessSteps => Renders(x, TemplateLayout)
    case QualityControl => BlockRenders(x)
    case PerformanceData => x != JNull
    case StabilityData => x != JNull
    case Equipment => x != JNull
  }

  /** The renderer of collection `c` draws it on the full page without a
      TypeError: `renderIngredients`, `renderSimpleTable`, `renderProcess` or
      `renderQc`. */
  predicate SectionDraws(d: Doc, c: Collection) {
    match c
    case Ingredients => IngredientLines(d.ingredients, BatchSizeOf(d.meta)).complete
    case PerformanceData => TableRows(d.performanceData, PerformanceKeys).complete
    case StabilityData => TableRows(d.stabilityData, StabilityKeys).complete
    case Equipment => TableRows(d.equipment, EquipmentKeys).complete
    case ProcessSteps => ProcessRows(d.processSteps, TemplateLayout).complete
    case QualityControl => QcBlocks(d.qualityControl).complete
  }

  /** `renderAll` draws every section of the full page without a TypeError. */
  predicate PageDraws(d: Doc) {
    forall c :: SectionDraws(d, c)
  }

  /** The section's renderer run on the full page, as the handlers call it
      after an edit; `ok` is false when it threw. */
  method RenderSection(d: Doc, c: Collection) returns (ok: bool)
    ensures ok == SectionDraws(d, c)
  {
    match c {
      case Ingredients =>
        var lines, _ := RenderIngredients(AllContainers, d.ingredients, Prop(JObj(d.meta), "batchSize"));
        ok := lines.value.complete;
      case PerformanceData =>
        var r := RenderSimpleTable(AllContainers, "perfBody", d.performanceData, PerformanceKeys);
        ok := r.value.complete;
      case StabilityData =>
        var r := RenderSimpleTable(AllContainers, "stabBody", d.stabilityData, StabilityKeys);
        ok := r.value.complete;
      case Equipment =>
        var r := RenderSimpleTable(AllContainers, "equipmentBody", d.equipment, EquipmentKeys);
        ok := r.value.complete;
      case ProcessSteps =>
        var r := RenderProcess(AllContainers, d.processSteps);
        ok := r.value.complete;
      case QualityControl =>
        var r := RenderQc(AllContainers, d.qualityControl);
        ok := r.value.complete;
    }
  }

  /** `renderAll` run on the full page; `ok` is false when a renderer threw. */
  method RenderPage(d: Doc) returns (ok: bool)
    ensures ok == PageDraws(d)
  {
    var page := RenderAll(AllContainers, d);
    ok := NothingThrew(page);
    PageDrawsSpec(d);
  }

  /** No renderer of the page threw. */
  predicate NothingThrew(p: Page) {
    && !Threw(p.formulation) && !Threw(p.performance) && !Threw(p.stability)
    && !Threw(p.equipment) && !Threw(p.process) && !Threw(p.qc)
  }

  /** On the full page, no renderer of `renderAll` throws exactly when every
      section draws. */
  lemma PageDrawsSpec(d: Doc)
    ensures PageDraws(d) <==> NothingThrew(PageOf(AllContainers, d))
  {
    PageDrawsSix(d);
    NothingThrewSix(d);
  }

  /** No renderer of the full page throws exactly when each of the six
      sections draws. */
  lemma NothingThrewSix(d: Doc)
    ensures NothingThrew(PageOf(AllContainers, d)) <==>
      && SectionDraws(d, Ingredients) && SectionDraws(d, PerformanceData) && SectionDraws(d, StabilityData)
      && SectionDraws(d, Equipment) && SectionDraws(d, ProcessSteps) && SectionDraws(d, QualityControl)
  {
    if NothingThrew(PageOf(AllContainers, d)) {
      NothingThrewSections(d);
    }
    if && SectionDraws(d, Ingredients) && SectionDraws(d, PerformanceData) && SectionDraws(d, StabilityData)
       && SectionDraws(d, Equipment) && SectionDraws(d, ProcessSteps) && SectionDraws(d, QualityControl) {
      SectionsNothingThrew(d);
    }
  }

  /** When no renderer of the full page threw, each section drew. */
  lemma NothingThrewSections(d: Doc)
    requires NothingThrew(PageOf(AllContainers, d))
    ensures && SectionDraws(d, Ingredients) && SectionDraws(d, PerformanceData) && SectionDraws(d, StabilityData)
      && SectionDraws(d, Equipment) && SectionDraws(d, ProcessSteps) && SectionDraws(d, QualityControl)
  {
    PageOfFull(d);
    PageOfLater(d);
  }

  /** When each section draws, no renderer of the full page throws. */
  lemma SectionsNothingThrew(d: Doc)
    requires && SectionDraws(d, Ingredients) && SectionDraws(d, PerformanceData) && SectionDraws(d, StabilityData)
      && SectionDraws(d, Equipment) && SectionDraws(d, ProcessSteps) && SectionDraws(d, QualityControl)
    ensures NothingThrew(PageOf(AllContainers, d))
  {
    PageOfFull(d);
    PageOfLater(d);
  }

  /** On the full page each section is drawn once every section before it
      drew without a TypeError. */
  lemma PageOfFull(d: Doc)
    ensures var p := PageOf(AllContainers, d);
      && p.formulation == Some(IngredientLines(d.ingredients, BatchSizeOf(d.meta)))
      && (!SectionDraws(d, Ingredients) || p.performance == Some(TableRows(d.performanceData, PerformanceKeys)))
      && (!SectionDraws(d, Ingredients) || !SectionDraws(d, PerformanceData)
          || p.stability == Some(TableRows(d.stabilityData, StabilityKeys)))
      && (!SectionDraws(d, Ingredients) || !SectionDraws(d, PerformanceData) || !SectionDraws(d, StabilityData)
          || p.equipment == Some(TableRows(d.equipment, EquipmentKeys)))
  {
  }

  /** The same for the process table and the QC blocks. */
  lemma PageOfLater(d: Doc)
    requires SectionDraws(d, Ingredients) && SectionDraws(d, PerformanceData)
    requires SectionDraws(d, StabilityData) && SectionDraws(d, Equipment)
    ensures var p := PageOf(AllContainers, d);
      && p.process == Some(ProcessRows(d.processSteps, TemplateLayout))
      && (SectionDraws(d, ProcessSteps) ==> p.qc == Some(QcBlocks(d.qualityControl)))
  {
  }

  /** The page draws exactly when each of its six sections does. */
  lemma PageDrawsSix(d: Doc)
    ensures PageDraws(d) <==>
      && SectionDraws(d, Ingredients) && SectionDraws(d, PerformanceData) && SectionDraws(d, StabilityData)
      && SectionDraws(d, Equipment) && SectionDraws(d, ProcessSteps) && SectionDraws(d, QualityControl)
  {
    if && SectionDraws(d, Ingredients) && SectionDraws(d, PerformanceData) && SectionDraws(d, StabilityData)
       && SectionDraws(d, Equipment) && SectionDraws(d, ProcessSteps) && SectionDraws(d, QualityControl) {
      forall c ensures SectionDraws(d, c) {
        match c
        case Ingredients =>
        case PerformanceData =>
        case StabilityData =>
        case Equipment =>
        case ProcessSteps =>
        case QualityControl =>
      }
    }
  }

  /** A section draws exactly when each of its entries does. */
  lemma SectionDrawsEach(d: Doc, c: Collection)
    ensures SectionDraws(d, c) <==> forall i :: 0 <= i < |Items(d, c)| ==> EntryDraws(c, Items(d, c)[i])
  {
    match c
    case Ingredients =>
      IngredientLinesComplete(d.ingredients, BatchSizeOf(d.meta));
      assert SectionDraws(d, c) == IngredientLines(d.ingredients, BatchSizeOf(d.meta)).complete;
      assert Items(d, c) == d.ingredients;
      assert forall x :: EntryDraws(c, x) == PhaseText(x).Some?;
    case ProcessSteps =>
      ProcessRowsComplete(d.processSteps, TemplateLayout);
      assert SectionDraws(d, c) == ProcessRows(d.processSteps, TemplateLayout).complete;
      assert Items(d, c) == d.processSteps;
      assert forall x :: EntryDraws(c, x) == Renders(x, TemplateLayout);
    case QualityControl =>
      QcBlocksSpec(d.qualityControl);
      assert SectionDraws(d, c) == QcBlocks(d.qualityControl).complete;
      assert Items(d, c) == d.qualityControl;
      assert forall x :: EntryDraws(c, x) == BlockRenders(x);
    case PerformanceData =>
      NoNullEach(d.performanceData);
      assert SectionDraws(d, c) == TableRows(d.performanceData, PerformanceKeys).complete;
      assert Items(d, c) == d.performanceData;
      assert forall x :: EntryDraws(c, x) == (x != JNull);
    case StabilityData =>
      NoNullEach(d.stabilityData);
      assert SectionDraws(d, c) == TableRows(d.stabilityData, StabilityKeys).complete;
      assert Items(d, c) == d.stabilityData;
      assert forall x :: EntryDraws(c, x) == (x != JNull);
    case Equipment =>
      NoNullEach(d.equipment);
      assert SectionDraws(d, c) == TableRows(d.equipment, EquipmentKeys).complete;
      assert Items(d, c) == d.equipment;
      assert forall x :: EntryDraws(c, x) == (x != JNull);
  }

  lemma NoNullEach(xs: seq<Json>)
    ensures JNull !in xs <==> forall i :: 0 <= i < |xs| ==> xs[i] != JNull
  {
  }

  /** A freshly added entity can be drawn, so on a page that draws, an "add"
      button's redraw does not throw and the save is always scheduled. */
  lemma AddKeepsDrawing(d: Doc, c: Collection, id: string)
    requires PageDraws(d)
    ensures PageDraws(Edits.Appended(d, c, Edits.NewEntity(c, id)))
  {
    var d' := Edits.Appended(d, c, Edits.NewEntity(c, id));
    Edits.NewEntityShape(c, id);
    forall c' ensures SectionDraws(d', c') {
      SectionDrawsEach(d, c');
      SectionDrawsEach(d', c');
      if c' == c {
        var xs := Items(d, c);
        assert Items(d', c) == xs + [Edits.NewEntity(c, id)];
        assert EntryDraws(c, Edits.NewEntity(c, id));
        forall i | 0 <= i < |Items(d', c)| ensures EntryDraws(c, Items(d', c)[i]) {
          if i < |xs| {
            assert Items(d', c)[i] == xs[i];
          }
        }
      }
    }
  }

  /** Deleting entities keeps a drawable page drawable: on a page that draws,
      a delete's redraw does not throw and the save is always scheduled. */
  lemma DeleteKeepsDrawing(d: Doc, c: Collection, id: string, eq: Edits.Equality)
    requires PageDraws(d) && Edits.Without(Items(d, c), id, eq).Some?
    ensures PageDraws(WithItems(d, c, Edits.Without(Items(d, c), id, eq).value))
  {
    var kept := Edits.Without(Items(d, c), id, eq).value;
    var d' := WithItems(d, c, kept);
    forall c' ensures SectionDraws(d', c') {
      SectionDrawsEach(d, c');
      SectionDrawsEach(d', c');
      if c' == c {
        forall i | 0 <= i < |kept| ensures EntryDraws(c, kept[i]) {
          assert kept[i] in kept;
          var j :| 0 <= j < |Items(d, c)| && Items(d, c)[j] == kept[i];
        }
      }
    }
  }
}
