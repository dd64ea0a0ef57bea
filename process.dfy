/** The technological process table, as rows: one step row per step, which
    also holds the step's first parameter, then one row per further parameter.
    js/ui.js and app.js keep the template's delete button on the first
    parameter; js/renderers.js clears that cell to the add and delete-step
    buttons and shows the step's equipment as chips with a picker of the
    equipment not yet chosen. */
module ProcessView {
  import opened JsonValues
  import opened Text
  import opened Views
  import opened Numbers

  /** A parameter's inputs: `data-param-id`, name and norm. */
  datatype ParamCells = ParamCells(paramId: Option<Json>, name: Json, norm: Json)

  /** A button in a row's action cell. */
  datatype Action = AddParamButton | DeleteStepButton | DeleteParamButton(paramId: Option<Json>)

  /** A chip for a chosen equipment name, with the equipment entry of that
      short name when there is one (its title is then "short - full name"). */
  datatype Chip = Chip(name: string, entry: Option<Json>)

  /** The equipment cell: the text of `step.equipment || ''`, or, in chip
      form, that text, its chips and the picker's options. */
  datatype EquipmentCell =
    | EquipmentText(text: Json)
    | EquipmentChips(chosen: string, chips: seq<Chip>, options: seq<Json>)

  datatype ProcessRow =
    | StepRow(id: Option<Json>, number: Json, description: Json, equipment: EquipmentCell,
              rowspan: nat, first: Option<ParamCells>, actions: seq<Action>)
    | ParamRow(stepId: Option<Json>, param: ParamCells, actions: seq<Action>)

  /** Which renderer lays the table out: the template one, or the chip one
      with the equipment list and the short-name index built from it. */
  datatype Layout = TemplateLayout | ChipLayout(equipment: seq<Json>, index: map<string, Json>)

  /** `step.parameters`, indexed as the loop indexes it: an array's entries, a
      string's characters, nothing otherwise (`parameters?.length || 0`). */
  function ParamList(step: Json): (ps: seq<Json>)
    ensures Prop(step, "parameters").Some? && Prop(step, "parameters").value.JArr? ==> ps == Prop(step, "parameters").value.items
  {
    match Prop(step, "parameters")
    case Some(JArr(xs)) => xs
    case Some(JStr(s)) => seq(|s|, i requires 0 <= i < |s| => JStr([s[i]]))
    case _ => []
  }

  function ParamCellsOf(p: Json): ParamCells {
    ParamCells(Prop(p, "id"), Shown(p, "name"), Shown(p, "norm"))
  }

  /** The buttons beside the first parameter. */
  function FirstActions(layout: Layout, first: Json): seq<Action> {
    if layout.TemplateLayout? then [DeleteParamButton(Prop(first, "id")), AddParamButton, DeleteStepButton]
    else [AddParamButton, DeleteStepButton]
  }

  /** The rows of the parameters after the first, each carrying the step's id
      and its own delete button, up to the first null parameter. */
  function ParamRows(stepId: Option<Json>, ps: seq<Json>): (r: Rendered<ProcessRow>)
    ensures r.complete <==> JNull !in ps
    ensures r.complete ==> |r.rows| == |ps|
    ensures !r.complete ==> |r.rows| < |ps| && ps[|r.rows|] == JNull
    ensures forall i :: 0 <= i < |r.rows| ==>
      ps[i] != JNull && r.rows[i] == ParamRow(stepId, ParamCellsOf(ps[i]), [DeleteParamButton(Prop(ps[i], "id"))])
  {
    if |ps| == 0 then Rendered([], true)
    else
      var prev := ParamRows(stepId, ps[..|ps| - 1]);
      var p := ps[|ps| - 1];
      if !prev.complete || p == JNull then Rendered(prev.rows, false)
      else Rendered(prev.rows + [ParamRow(stepId, ParamCellsOf(p), [DeleteParamButton(Prop(p, "id"))])], true)
  }

  /** The rows of one step: the step row with the first parameter, or with
      empty cells when there is none; a null first parameter throws before the
      step row is appended. */
  function StepRows(step: Json, cell: EquipmentCell, layout: Layout): Rendered<ProcessRow> {
    var ps := ParamList(step);
    var id := Prop(step, "id");
    if |ps| == 0 then
      Rendered([StepRow(id, Shown(step, "number"), Shown(step, "description"), cell, 1, None, [AddParamButton, DeleteStepButton])], true)
    else if ps[0] == JNull then Rendered([], false)
    else
      var tail := ParamRows(id, ps[1..]);
      Rendered([StepRow(id, Shown(step, "number"), Shown(step, "description"), cell, |ps|,
                        Some(ParamCellsOf(ps[0])), FirstActions(layout, ps[0]))] + tail.rows, tail.complete)
  }

  // ---------------------------------------------------------------- equipment chips

  /** `selectedIds`: the comma-separated pieces, trimmed, empty ones dropped. */
  function Tokens(s: string): seq<string> {
    CleanTokens(Split(s, ','))
  }

  function CleanTokens(parts: seq<string>): (ts: seq<string>)
    ensures |ts| <= |parts|
  {
    if |parts| == 0 then []
    else CleanTokens(parts[..|parts| - 1]) + (if Trim(parts[|parts| - 1]) != "" then [Trim(parts[|parts| - 1])] else [])
  }

  /** A name that the chips show unchanged: non-empty, trimmed, comma-free. */
  predicate CleanToken(t: string) {
    t != "" && Trim(t) == t && ',' !in t
  }

  lemma {:induction false} CleanTokensAreClean(parts: seq<string>)
    requires forall i :: 0 <= i < |parts| ==> ',' !in parts[i]
    ensures forall i :: 0 <= i < |CleanTokens(parts)| ==> CleanToken(CleanTokens(parts)[i])
  {
    if |parts| > 0 {
      var init := parts[..|parts| - 1];
      var last := parts[|parts| - 1];
      assert forall i :: 0 <= i < |init| ==> init[i] == parts[i];
      CleanTokensAreClean(init);
      var prev := CleanTokens(init);
      var t := Trim(last);
      if t != "" {
        TrimIdempotent(last);
        TrimKeeps(last);
        assert ',' !in last;
        assert CleanToken(t);
        assert CleanTokens(parts) == prev + [t];
      } else {
        assert CleanTokens(parts) == prev;
      }
    }
  }

  /** Every chip name is non-empty, trimmed and free of commas. */
  lemma TokensAreClean(s: string)
    ensures forall i :: 0 <= i < |Tokens(s)| ==> CleanToken(Tokens(s)[i])
  {
    CleanTokensAreClean(Split(s, ','));
  }

  lemma {:induction false} CleanTokensKeepClean(ts: seq<string>)
    requires forall i :: 0 <= i < |ts| ==> CleanToken(ts[i])
    ensures CleanTokens(ts) == ts
  {
    if |ts| > 0 {
      var init := ts[..|ts| - 1];
      var last := ts[|ts| - 1];
      assert forall i :: 0 <= i < |init| ==> CleanToken(init[i]) by {
        forall i | 0 <= i < |init| ensures CleanToken(init[i]) {
          assert init[i] == ts[i];
        }
      }
      CleanTokensKeepClean(init);
      assert Trim(last) == last && last != "";
      calc {
        CleanTokens(ts);
        CleanTokens(init) + [Trim(last)];
        init + [last];
        { SplitLast(ts); }
        ts;
      }
    }
  }

  /** The chips of a comma-joined list of clean names are those names, in
      order: the equipment text stores the chosen list without loss. */
  lemma TokensOfJoin(ts: seq<string>)
    requires |ts| >= 1 && forall i :: 0 <= i < |ts| ==> CleanToken(ts[i])
    ensures Tokens(Join(ts, ',')) == ts
  {
    SplitJoin(ts, ',');
    CleanTokensKeepClean(ts);
  }

  /** The string short name of an equipment entry, if it has one. */
  function ShortName(eq: Json): Option<string> {
    match Prop(eq, "shortName")
    case Some(JStr(s)) => Some(s)
    case _ => None
  }

  /** The property key `equipmentMap[eq.shortName]` files an entry under: the
      short name converted to a string, so a missing one files under
      "undefined" and the number 5 under "5". None for the short names whose
      string form is not modelled. */
  function NameKey(eq: Json): Option<string> {
    KeyString(Prop(eq, "shortName"))
  }

  /** `equipmentMap`: each entry under the key of its short name, a later entry
      replacing an earlier one; None when an entry is null. */
  function EquipmentIndex(eqs: seq<Json>): Option<map<string, Json>> {
    if |eqs| == 0 then Some(map[])
    else
      var prev := EquipmentIndex(eqs[..|eqs| - 1]);
      var eq := eqs[|eqs| - 1];
      if prev.None? || eq == JNull then None
      else if NameKey(eq).Some? then Some(prev.value[NameKey(eq).value := eq])
      else prev
  }

  /** Building the index throws exactly when an entry is null. */
  lemma {:induction false} IndexFailsOnNull(eqs: seq<Json>)
    ensures EquipmentIndex(eqs).None? <==> JNull in eqs
  {
    if |eqs| > 0 {
      var init := eqs[..|eqs| - 1];
      IndexFailsOnNull(init);
      assert eqs == init + [eqs[|eqs| - 1]];
    }
  }

  /** The index has a key for every short name in the list, and no other. */
  lemma {:induction false} IndexKeys(eqs: seq<Json>)
    requires EquipmentIndex(eqs).Some?
    ensures forall k :: k in EquipmentIndex(eqs).value <==> exists i :: 0 <= i < |eqs| && NameKey(eqs[i]) == Some(k)
  {
    if |eqs| > 0 {
      var init := eqs[..|eqs| - 1];
      var n := |eqs| - 1;
      IndexKeys(init);
      var m := EquipmentIndex(eqs).value;
      var pm := EquipmentIndex(init).value;
      forall k ensures k in m <==> exists i :: 0 <= i < |eqs| && NameKey(eqs[i]) == Some(k) {
        if k in m && NameKey(eqs[n]) != Some(k) {
          assert k in pm;
          var i :| 0 <= i < n && NameKey(init[i]) == Some(k);
          assert NameKey(eqs[i]) == Some(k);
        }
        if k !in m {
          forall i | 0 <= i < |eqs| ensures NameKey(eqs[i]) != Some(k) {
            if i < n {
              assert eqs[i] == init[i];
            }
          }
        }
      }
    }
  }

  /** Entry `i` is the last one with short name `k`. */
  predicate LastNamed(eqs: seq<Json>, k: string, i: int) {
    0 <= i < |eqs| && NameKey(eqs[i]) == Some(k) && forall j :: i < j < |eqs| ==> NameKey(eqs[j]) != Some(k)
  }

  /** Under each short name the index holds the last entry with that name. */
  lemma {:induction false} IndexLastWins(eqs: seq<Json>, k: string)
    requires EquipmentIndex(eqs).Some? && k in EquipmentIndex(eqs).value
    ensures exists i :: LastNamed(eqs, k, i) && EquipmentIndex(eqs).value[k] == eqs[i]
  {
    var init := eqs[..|eqs| - 1];
    var n := |eqs| - 1;
    var m := EquipmentIndex(eqs).value;
    if NameKey(eqs[n]) == Some(k) {
      assert m[k] == eqs[n] && LastNamed(eqs, k, n);
    } else {
      IndexLastWins(init, k);
      var i :| LastNamed(init, k, i) && EquipmentIndex(init).value[k] == init[i];
      assert m[k] == eqs[i];
      forall j | i < j < |eqs| ensures NameKey(eqs[j]) != Some(k) {
        if j < n {
          assert eqs[j] == init[j];
        }
      }
      assert LastNamed(eqs, k, i);
    }
  }

  /** The chips of the chosen names, in order: each shows its name, and has
      an entry exactly when the index knows the name, the one indexed. */
  function ChipsFor(tokens: seq<string>, index: map<string, Json>): (chips: seq<Chip>)
    ensures |chips| == |tokens|
    ensures forall i :: 0 <= i < |tokens| ==>
      && chips[i].name == tokens[i] && (chips[i].entry.Some? <==> tokens[i] in index)
      && (tokens[i] in index ==> chips[i].entry.value == index[tokens[i]])
  {
    seq(|tokens|, i requires 0 <= i < |tokens| => Chip(tokens[i], if tokens[i] in index then Some(index[tokens[i]]) else None))
  }

  /** An entry already chosen: its short name is among the chosen names. */
  predicate Chosen(eq: Json, tokens: seq<string>) {
    ShortName(eq).Some? && ShortName(eq).value in tokens
  }

  /** The picker's options: the equipment entries not chosen, in list order.
      The picker and the chips split the equipment list: an entry is offered
      exactly when it is not chosen. */
  function PickerOptions(eqs: seq<Json>, tokens: seq<string>): (options: seq<Json>)
    ensures |options| <= |eqs|
    ensures forall e :: e in options <==> e in eqs && !Chosen(e, tokens)
  {
    if |eqs| == 0 then []
    else
      var init := eqs[..|eqs| - 1];
      assert eqs == init + [eqs[|eqs| - 1]];
      PickerOptions(init, tokens) + (if Chosen(eqs[|eqs| - 1], tokens) then [] else [eqs[|eqs| - 1]])
  }

  /** The equipment cell of a step; None when the chip renderer meets a truthy
      `step.equipment` that is not a string, which has no `split`. */
  function EquipmentCellOf(step: Json, layout: Layout): (r: Option<EquipmentCell>)
    ensures layout.TemplateLayout? ==> r.Some?
    ensures layout.ChipLayout? ==> (r.None? <==> !Shown(step, "equipment").JStr?)
    ensures r.Some? <==> HasCell(step, layout)
  {
    match layout
    case TemplateLayout => Some(EquipmentText(Shown(step, "equipment")))
    case ChipLayout(eqs, index) =>
      match Shown(step, "equipment")
      case JStr(s) => Some(EquipmentChips(s, ChipsFor(Tokens(s), index), PickerOptions(eqs, Tokens(s))))
      case _ => None
  }

  /** The equipment cell can be built: the chip layout splits a string. */
  predicate HasCell(step: Json, layout: Layout) {
    layout.ChipLayout? ==> Shown(step, "equipment").JStr?
  }

  /** The `forEach` over the steps. */
  function ProcessRows(steps: seq<Json>, layout: Layout): Rendered<ProcessRow> {
    if |steps| == 0 then Rendered([], true)
    else
      var prev := ProcessRows(steps[..|steps| - 1], layout);
      var step := steps[|steps| - 1];
      if !prev.complete || step == JNull || !HasCell(step, layout) then Rendered(prev.rows, false)
      else
        var sr := StepRows(step, EquipmentCellOf(step, layout).value, layout);
        Rendered(prev.rows + sr.rows, sr.complete)
  }

  // ---------------------------------------------------------------- loops

  /** The chip loop over `selectedIds`. */
  method BuildChips(tokens: seq<string>, index: map<string, Json>) returns (chips: seq<Chip>)
    ensures chips == ChipsFor(tokens, index)
  {
    chips := [];
    var i := 0;
    while i < |tokens|
      invariant 0 <= i <= |tokens|
      invariant chips == ChipsFor(tokens[..i], index)
    {
      var t := tokens[i];
      chips := chips + [Chip(t, if t in index then Some(index[t]) else None)];
      i := i + 1;
    }
    assert tokens[..i] == tokens;
  }

  /** The loop that fills the picker. */
  method BuildPicker(eqs: seq<Json>, tokens: seq<string>) returns (options: seq<Json>)
    ensures options == PickerOptions(eqs, tokens)
  {
    options := [];
    var i := 0;
    while i < |eqs|
      invariant 0 <= i <= |eqs|
      invariant options == PickerOptions(eqs[..i], tokens)
    {
      PrefixStep(eqs, i);
      if !Chosen(eqs[i], tokens) {
        options := options + [eqs[i]];
      }
      i := i + 1;
    }
    assert eqs[..i] == eqs;
  }

  /** The loop that fills `equipmentMap`. */
  method IndexEquipment(eqs: seq<Json>) returns (index: Option<map<string, Json>>)
    ensures index == EquipmentIndex(eqs)
  {
    var m: map<string, Json> := map[];
    var i := 0;
    while i < |eqs|
      invariant 0 <= i <= |eqs|
      invariant EquipmentIndex(eqs[..i]) == Some(m)
    {
      IndexNext(eqs, i, m);
      if eqs[i] == JNull {
        return None;
      }
      var name := NameKey(eqs[i]);
      if name.Some? {
        m := m[name.value := eqs[i]];
      }
      i := i + 1;
    }
    assert eqs[..i] == eqs;
    return Some(m);
  }

  /** The index after one more entry, once the prefix before it is indexed. */
  lemma IndexNext(eqs: seq<Json>, i: nat, m: map<string, Json>)
    requires i < |eqs| && EquipmentIndex(eqs[..i]) == Some(m)
    ensures eqs[i] == JNull ==> EquipmentIndex(eqs).None?
    ensures eqs[i] != JNull ==>
      EquipmentIndex(eqs[..i + 1]) == Some(if NameKey(eqs[i]).Some? then m[NameKey(eqs[i]).value := eqs[i]] else m)
  {
    PrefixStep(eqs, i);
    if eqs[i] == JNull {
      IndexStop(eqs, i + 1);
    }
  }

  lemma {:induction false} IndexStop(eqs: seq<Json>, k: nat)
    requires k <= |eqs| && EquipmentIndex(eqs[..k]).None?
    ensures EquipmentIndex(eqs).None?
    decreases |eqs| - k
  {
    if k < |eqs| {
      PrefixStep(eqs, k);
      IndexStop(eqs, k + 1);
    } else {
      assert eqs[..k] == eqs;
    }
  }

  /** The equipment cell as the renderer fills it. */
  method RenderEquipmentCell(step: Json, layout: Layout) returns (cell: Option<EquipmentCell>)
    ensures cell == EquipmentCellOf(step, layout)
  {
    var text := Shown(step, "equipment");
    if layout.TemplateLayout? {
      return Some(EquipmentText(text));
    }
    if !text.JStr? {
      return None;
    }
    var tokens := Tokens(text.s);
    var chips := BuildChips(tokens, layout.index);
    var options := BuildPicker(layout.equipment, tokens);
    return Some(EquipmentChips(text.s, chips, options));
  }

  /** One step: the step row, then the rows of the further parameters. */
  method RenderStepRows(step: Json, cell: EquipmentCell, layout: Layout) returns (r: Rendered<ProcessRow>)
    ensures r == StepRows(step, cell, layout)
  {
    var ps := ParamList(step);
    var id := Prop(step, "id");
    if |ps| == 0 {
      return Rendered([StepRow(id, Shown(step, "number"), Shown(step, "description"), cell, 1, None, [AddParamButton, DeleteStepButton])], true);
    }
    if ps[0] == JNull {
      return Rendered([], false);
    }
    var head := StepRow(id, Shown(step, "number"), Shown(step, "description"), cell, |ps|,
                        Some(ParamCellsOf(ps[0])), FirstActions(layout, ps[0]));
    var tail := RenderParamRows(id, ps[1..]);
    return Rendered([head] + tail.rows, tail.complete);
  }

  /** The `for` loop over the parameters after the first. */
  method RenderParamRows(stepId: Option<Json>, ps: seq<Json>) returns (r: Rendered<ProcessRow>)
    ensures r == ParamRows(stepId, ps)
  {
    var rows: seq<ProcessRow> := [];
    var i := 0;
    while i < |ps|
      invariant 0 <= i <= |ps|
      invariant ParamRows(stepId, ps[..i]) == Rendered(rows, true)
    {
      ParamRowsNext(stepId, ps, i);
      if ps[i] == JNull {
        ParamRowsStop(stepId, ps, i + 1);
        return Rendered(rows, false);
      }
      rows := rows + [ParamRow(stepId, ParamCellsOf(ps[i]), [DeleteParamButton(Prop(ps[i], "id"))])];
      i := i + 1;
    }
    assert ps[..i] == ps;
    return Rendered(rows, true);
  }

  /** `ParamRows` on one more parameter. */
  lemma ParamRowsNext(stepId: Option<Json>, ps: seq<Json>, i: nat)
    requires i < |ps|
    ensures var prev := ParamRows(stepId, ps[..i]);
      ParamRows(stepId, ps[..i + 1])
        == if !prev.complete || ps[i] == JNull then Rendered(prev.rows, false)
           else Rendered(prev.rows + [ParamRow(stepId, ParamCellsOf(ps[i]), [DeleteParamButton(Prop(ps[i], "id"))])], true)
  {
    PrefixStep(ps, i);
  }

  lemma {:induction false} ParamRowsStop(stepId: Option<Json>, ps: seq<Json>, k: nat)
    requires k <= |ps| && !ParamRows(stepId, ps[..k]).complete
    ensures ParamRows(stepId, ps) == ParamRows(stepId, ps[..k])
    decreases |ps| - k
  {
    if k < |ps| {
      PrefixStep(ps, k);
      ParamRowsStop(stepId, ps, k + 1);
    } else {
      assert ps[..k] == ps;
    }
  }

  /** The body of the `forEach` for one step: None when the step is null or
      its equipment cell cannot be built. */
  method RenderStep(step: Json, layout: Layout) returns (sr: Option<Rendered<ProcessRow>>)
    ensures step == JNull || !HasCell(step, layout) ==> sr.None?
    ensures step != JNull && HasCell(step, layout) ==> sr == Some(StepRows(step, EquipmentCellOf(step, layout).value, layout))
  {
    if step == JNull {
      return None;
    }
    var cell := RenderEquipmentCell(step, layout);
    if cell.None? {
      return None;
    }
    var rows := RenderStepRows(step, cell.value, layout);
    return Some(rows);
  }

  /** The `forEach` over the steps, for either layout. */
  method RenderProcessRows(steps: seq<Json>, layout: Layout) returns (r: Rendered<ProcessRow>)
    ensures r == ProcessRows(steps, layout)
  {
    var rows: seq<ProcessRow> := [];
    var i := 0;
    while i < |steps|
      invariant 0 <= i <= |steps|
      invariant ProcessRows(steps[..i], layout) == Rendered(rows, true)
    {
      ProcessRowsNext(steps, layout, i, rows);
      var sr := RenderStep(steps[i], layout);
      if sr.None? {
        return Rendered(rows, false);
      }
      rows := rows + sr.value.rows;
      if !sr.value.complete {
        return Rendered(rows, false);
      }
      i := i + 1;
    }
    assert steps[..i] == steps;
    return Rendered(rows, true);
  }

  /** `ProcessRows` on one more step, after a prefix drawn in full: a step
      that is null or has no equipment cell ends the table, as does one whose
      own rows stop part-way. */
  lemma ProcessRowsNext(steps: seq<Json>, layout: Layout, i: nat, rows: seq<ProcessRow>)
    requires i < |steps| && ProcessRows(steps[..i], layout) == Rendered(rows, true)
    ensures steps[i] == JNull || !HasCell(steps[i], layout) ==> ProcessRows(steps, layout) == Rendered(rows, false)
    ensures steps[i] != JNull && HasCell(steps[i], layout) ==>
      var sr := StepRows(steps[i], EquipmentCellOf(steps[i], layout).value, layout);
      && ProcessRows(steps[..i + 1], layout) == Rendered(rows + sr.rows, sr.complete)
      && (!sr.complete ==> ProcessRows(steps, layout) == Rendered(rows + sr.rows, false))
  {
    PrefixStep(steps, i);
    if steps[i] == JNull || !HasCell(steps[i], layout) || !ProcessRows(steps[..i + 1], layout).complete {
      ProcessRowsStop(steps, layout, i + 1);
    }
  }

  lemma {:induction false} ProcessRowsStop(steps: seq<Json>, layout: Layout, k: nat)
    requires k <= |steps| && !ProcessRows(steps[..k], layout).complete
    ensures ProcessRows(steps, layout) == ProcessRows(steps[..k], layout)
    decreases |steps| - k
  {
    if k < |steps| {
      PrefixStep(steps, k);
      ProcessRowsStop(steps, layout, k + 1);
    } else {
      assert steps[..k] == steps;
    }
  }

  // ---------------------------------------------------------------- properties

  /** The step id a row carries (`data-id`), which the parameter buttons and
      cell edits look the step up by. */
  function RowStepId(row: ProcessRow): Option<Json> {
    if row.StepRow? then row.id else row.stepId
  }

  /** The rows a step takes when it renders in full. */
  function RowBudget(step: Json): nat {
    if |ParamList(step)| == 0 then 1 else |ParamList(step)|
  }

  /** A step renders in full: its first parameter is not null, nor any other. */
  predicate StepRenders(step: Json) {
    JNull !in ParamList(step)
  }

  /** A step's rows: complete exactly when no parameter is null; then as many
      as its rowspan, `max(1, parameters.length)`, every row carrying the
      step's id. */
  lemma StepRowsComplete(step: Json, cell: EquipmentCell, layout: Layout)
    ensures StepRows(step, cell, layout).complete <==> StepRenders(step)
  {
    var ps := ParamList(step);
    if |ps| > 0 && ps[0] != JNull {
      assert ps == [ps[0]] + ps[1..];
      assert JNull in ps <==> JNull in ps[1..];
    }
  }

  lemma StepRowsShape(step: Json, cell: EquipmentCell, layout: Layout)
    ensures var r := StepRows(step, cell, layout);
      && (r.complete <==> StepRenders(step))
      && (r.complete ==> |r.rows| == RowBudget(step) && r.rows[0].StepRow? && r.rows[0].rowspan == RowBudget(step))
      && (forall i :: 0 <= i < |r.rows| ==> RowStepId(r.rows[i]) == Prop(step, "id"))
      && (|ParamList(step)| == 0 ==>
            r.complete && r.rows[0].StepRow? && r.rows[0].first.None? && r.rows[0].actions == [AddParamButton, DeleteStepButton])
  {
    var ps := ParamList(step);
    if |ps| > 0 && ps[0] != JNull {
      assert ps == [ps[0]] + ps[1..];
      assert JNull in ps <==> JNull in ps[1..];
    }
  }

  /** The parameter ids that have a delete button, row by row. */
  function DeleteParamIds(rows: seq<ProcessRow>): seq<Option<Json>> {
    if |rows| == 0 then []
    else DeleteParamIds(rows[..|rows| - 1]) + ActionParamIds(rows[|rows| - 1].actions)
  }

  function ActionParamIds(actions: seq<Action>): seq<Option<Json>> {
    if |actions| == 0 then []
    else ActionParamIds(actions[..|actions| - 1])
         + (if actions[|actions| - 1].DeleteParamButton? then [actions[|actions| - 1].paramId] else [])
  }

  lemma {:induction false} DeleteParamIdsAppend(a: seq<ProcessRow>, b: seq<ProcessRow>)
    ensures DeleteParamIds(a + b) == DeleteParamIds(a) + DeleteParamIds(b)
    decreases |b|
  {
    if |b| == 0 {
      assert a + b == a;
    } else {
      var init, last := b[..|b| - 1], b[|b| - 1];
      calc {
        DeleteParamIds(a + b);
        { AppendInit(a, b); }
        DeleteParamIds(a + init) + ActionParamIds(last.actions);
        { DeleteParamIdsAppend(a, init); }
        DeleteParamIds(a) + DeleteParamIds(init) + ActionParamIds(last.actions);
        DeleteParamIds(a) + DeleteParamIds(b);
      }
    }
  }

  /** The ids of some parameters. */
  function Ids(ps: seq<Json>): (ids: seq<Option<Json>>)
    ensures |ids| == |ps| && forall i :: 0 <= i < |ps| ==> ids[i] == Prop(ps[i], "id")
  {
    seq(|ps|, i requires 0 <= i < |ps| => Prop(ps[i], "id"))
  }

  lemma {:induction false} ParamRowsDeleteIds(stepId: Option<Json>, ps: seq<Json>)
    requires ParamRows(stepId, ps).complete
    ensures DeleteParamIds(ParamRows(stepId, ps).rows) == Ids(ps)
  {
    if |ps| > 0 {
      var init := ps[..|ps| - 1];
      var p := ps[|ps| - 1];
      ParamRowsDeleteIds(stepId, init);
      var row := ParamRow(stepId, ParamCellsOf(p), [DeleteParamButton(Prop(p, "id"))]);
      assert ActionParamIds(row.actions) == [Prop(p, "id")] by {
        assert row.actions[..0] == [];
      }
      DeleteParamIdsAppend(ParamRows(stepId, init).rows, [row]);
      assert [row][..0] == [];
      assert Ids(ps) == Ids(init) + [Prop(p, "id")];
    }
  }

  /** Which parameters can be deleted from the page: with the template
      layout every parameter of a fully rendered step has a delete button,
      in order; with the chip layout all but the first. */
  lemma StepDeleteButtons(step: Json, cell: EquipmentCell, layout: Layout)
    requires StepRows(step, cell, layout).complete && |ParamList(step)| > 0
    ensures var ps := ParamList(step);
      DeleteParamIds(StepRows(step, cell, layout).rows) == (if layout.TemplateLayout? then Ids(ps) else Ids(ps[1..]))
  {
    var ps := ParamList(step);
    var r := StepRows(step, cell, layout).rows;
    StepRowsSplit(step, cell, layout);
    var head, tail := r[0], r[1..];
    var first := if layout.TemplateLayout? then [Prop(ps[0], "id")] else [];
    calc {
      DeleteParamIds(r);
      { assert r == [head] + tail; }
      DeleteParamIds([head] + tail);
      { DeleteParamIdsAppend([head], tail); }
      DeleteParamIds([head]) + DeleteParamIds(tail);
      { DeleteParamIdsOne(head); }
      ActionParamIds(head.actions) + DeleteParamIds(tail);
      { FirstActionIds(layout, ps[0]); ParamRowsDeleteIds(Prop(step, "id"), ps[1..]); }
      first + Ids(ps[1..]);
    }
    if layout.TemplateLayout? {
      IdsCons(ps);
    }
  }

  /** A step with parameters: the step row carries the first parameter's
      actions, and the rows of the further parameters follow. */
  lemma StepRowsSplit(step: Json, cell: EquipmentCell, layout: Layout)
    requires StepRows(step, cell, layout).complete && |ParamList(step)| > 0
    ensures var ps := ParamList(step);
      var r := StepRows(step, cell, layout).rows;
      && |r| > 0 && ps[0] != JNull
      && r[0].actions == FirstActions(layout, ps[0])
      && r[1..] == ParamRows(Prop(step, "id"), ps[1..]).rows
  {
    var ps := ParamList(step);
    var r := StepRows(step, cell, layout).rows;
    assert ps[0] != JNull;
    var tail := ParamRows(Prop(step, "id"), ps[1..]).rows;
    assert r[1..] == tail;
  }

  lemma DeleteParamIdsOne(row: ProcessRow)
    ensures DeleteParamIds([row]) == ActionParamIds(row.actions)
  {
    assert [row][..0] == [];
  }

  lemma FirstActionIds(layout: Layout, first: Json)
    ensures ActionParamIds(FirstActions(layout, first)) == (if layout.TemplateLayout? then [Prop(first, "id")] else [])
  {
    var acts := FirstActions(layout, first);
    var e: seq<Action> := [];
    if layout.TemplateLayout? {
      var d := DeleteParamButton(Prop(first, "id"));
      assert acts[..2] == [d, AddParamButton];
      assert [d, AddParamButton][..1] == [d];
      assert [d][..0] == e;
      assert ActionParamIds([d]) == [Prop(first, "id")];
      assert ActionParamIds([d, AddParamButton]) == [Prop(first, "id")];
    } else {
      assert acts[..1] == [AddParamButton];
      assert [AddParamButton][..0] == e;
      assert ActionParamIds([AddParamButton]) == [];
    }
  }

  lemma IdsCons(ps: seq<Json>)
    requires |ps| > 0
    ensures Ids(ps) == [Prop(ps[0], "id")] + Ids(ps[1..])
  {
    var r := [Prop(ps[0], "id")] + Ids(ps[1..]);
    assert |r| == |ps|;
    forall i | 0 <= i < |ps| ensures r[i] == Ids(ps)[i] {
      if i > 0 {
        assert r[i] == Ids(ps[1..])[i - 1];
      }
    }
  }

  /** The rows the steps take when every step renders. */
  function TotalBudget(steps: seq<Json>): nat {
    if |steps| == 0 then 0 else TotalBudget(steps[..|steps| - 1]) + RowBudget(steps[|steps| - 1])
  }

  /** A step renders in full under a layout. */
  predicate Renders(step: Json, layout: Layout) {
    step != JNull && HasCell(step, layout) && StepRenders(step)
  }

  /** The process table is complete exactly when every step renders. */
  lemma {:induction false} ProcessRowsComplete(steps: seq<Json>, layout: Layout)
    ensures ProcessRows(steps, layout).complete <==> forall i :: 0 <= i < |steps| ==> Renders(steps[i], layout)
  {
    if |steps| > 0 {
      ProcessRowsComplete(steps[..|steps| - 1], layout);
      ProcessRowsStep(steps, layout);
      RendersSnoc(steps, layout);
    }
  }

  lemma ProcessRowsStep(steps: seq<Json>, layout: Layout)
    requires |steps| > 0
    ensures ProcessRows(steps, layout).complete <==>
      ProcessRows(steps[..|steps| - 1], layout).complete && Renders(steps[|steps| - 1], layout)
  {
    var step := steps[|steps| - 1];
    if ProcessRows(steps[..|steps| - 1], layout).complete && step != JNull && HasCell(step, layout) {
      StepRowsComplete(step, EquipmentCellOf(step, layout).value, layout);
    }
  }

  lemma RendersSnoc(steps: seq<Json>, layout: Layout)
    requires |steps| > 0
    ensures var init := steps[..|steps| - 1];
      (forall i :: 0 <= i < |steps| ==> Renders(steps[i], layout)) <==>
      (forall i :: 0 <= i < |init| ==> Renders(init[i], layout)) && Renders(steps[|steps| - 1], layout)
  {
    var init := steps[..|steps| - 1];
    assert forall i :: 0 <= i < |init| ==> init[i] == steps[i];
  }

  /** A complete process table has `max(1, parameters.length)` rows per step. */
  lemma {:induction false} ProcessRowsCount(steps: seq<Json>, layout: Layout)
    requires ProcessRows(steps, layout).complete
    ensures |ProcessRows(steps, layout).rows| == TotalBudget(steps)
  {
    if |steps| > 0 {
      var init := steps[..|steps| - 1];
      var step := steps[|steps| - 1];
      ProcessRowsCount(init, layout);
      StepRowsShape(step, EquipmentCellOf(step, layout).value, layout);
    }
  }
}
