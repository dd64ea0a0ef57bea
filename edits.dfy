/** The document edits the editor's event handlers perform (js/main.js and
    app.js, with the `Store` actions of js/store.js): looking entities up by
    their row id, adding fresh entities, deleting by id, editing one cell, the
    nested parameter and check lists, and copying the meta inputs into the
    document. Each edit is a function from the document before to the document
    after; a handler that throws part-way is modelled by its outcome. */
module Edits {
  import opened JsonValues
  import opened Text
  import opened Numbers
  import opened Document
  import opened PhaseSort

  /** The two id comparisons of the handlers: `item.id === id` and `item.id == id`. */
  datatype Equality = Strict | Loose

  /** An entity's id equals a row's string id under the given comparison. */
  predicate IdIs(item: Json, id: string, eq: Equality) {
    match eq
    case Strict => StrictEqualsText(Prop(item, "id"), id)
    case Loose => LooseEqualsText(Prop(item, "id"), id)
  }

  // ---------------------------------------------------------------- finding

  /** What `items.find(i => i.id == id)` yields: the index of the first match,
      no match, or a TypeError from reading the id of a null entry before any
      match. */
  datatype Found = At(index: nat) | Absent | Threw

  function FindLoose(items: seq<Json>, id: string): (r: Found)
    ensures r.At? ==> r.index < |items| && Readable(items[r.index]) && IdIs(items[r.index], id, Loose)
    ensures r.At? || r.Threw? ==> forall j :: 0 <= j < |items| && (r.At? ==> j < r.index) && (r.Threw? ==> j < FirstNull(items)) ==> !IdIs(items[j], id, Loose)
    ensures r.Absent? <==> forall j :: 0 <= j < |items| ==> Readable(items[j]) && !IdIs(items[j], id, Loose)
    ensures r.Threw? ==> FirstNull(items) < |items| && forall j :: 0 <= j < FirstNull(items) ==> !IdIs(items[j], id, Loose)
    ensures r.At? ==> forall j :: 0 <= j < r.index ==> Readable(items[j])
  {
    if |items| == 0 then Absent
    else if items[0] == JNull then Threw
    else if IdIs(items[0], id, Loose) then At(0)
    else match FindLoose(items[1..], id)
      case At(i) => At(i + 1)
      case Absent => Absent
      case Threw => Threw
  }

  /** The index of the first null entry, or |items| when there is none. */
  function FirstNull(items: seq<Json>): (n: nat)
    ensures n <= |items| && (n < |items| ==> items[n] == JNull)
    ensures forall j :: 0 <= j < n ==> Readable(items[j])
  {
    if |items| == 0 then 0
    else if items[0] == JNull then 0
    else 1 + FirstNull(items[1..])
  }

  // ---------------------------------------------------------------- deleting

  /** `items.filter(i => i.id !== id)` (or `!=`) when no entry is null: the
      entries whose id does not equal `id`, in their order. */
  function Kept(items: seq<Json>, id: string, eq: Equality): (r: seq<Json>)
    ensures |r| + Matches(items, id, eq) == |items|
    ensures forall x :: x in r <==> x in items && !IdIs(x, id, eq)
  {
    if |items| == 0 then []
    else
      var last := items[|items| - 1];
      Kept(items[..|items| - 1], id, eq) + (if IdIs(last, id, eq) then [] else [last])
  }

  /** How many entries have the id. */
  function Matches(items: seq<Json>, id: string, eq: Equality): nat {
    if |items| == 0 then 0
    else Matches(items[..|items| - 1], id, eq) + (if IdIs(items[|items| - 1], id, eq) then 1 else 0)
  }

  /** The delete of a handler: the filter throws (None) on a null entry, whose
      id it reads. */
  function Without(items: seq<Json>, id: string, eq: Equality): (r: Option<seq<Json>>)
    ensures r.None? <==> JNull in items
  {
    if JNull in items then None else Some(Kept(items, id, eq))
  }

  /** Deleting distributes over concatenation, so it keeps the survivors' order. */
  lemma {:induction false} KeptAppend(a: seq<Json>, b: seq<Json>, id: string, eq: Equality)
    ensures Kept(a + b, id, eq) == Kept(a, id, eq) + Kept(b, id, eq)
    decreases |b|
  {
    if |b| == 0 {
      assert a + b == a;
    } else {
      var init, last := b[..|b| - 1], b[|b| - 1];
      var tail := if IdIs(last, id, eq) then [] else [last];
      calc {
        Kept(a + b, id, eq);
        { assert (a + b)[..|a + b| - 1] == a + init && (a + b)[|a + b| - 1] == last; }
        Kept(a + init, id, eq) + tail;
        { KeptAppend(a, init, id, eq); }
        Kept(a, id, eq) + Kept(init, id, eq) + tail;
        Kept(a, id, eq) + Kept(b, id, eq);
      }
    }
  }

  /** Deleting an id no entry has changes nothing; deleting twice is deleting once. */
  lemma {:induction false} KeptNoMatch(items: seq<Json>, id: string, eq: Equality)
    requires forall i :: 0 <= i < |items| ==> !IdIs(items[i], id, eq)
    ensures Kept(items, id, eq) == items
  {
    if |items| > 0 {
      var init, last := items[..|items| - 1], items[|items| - 1];
      forall i | 0 <= i < |init| ensures !IdIs(init[i], id, eq) {
        assert init[i] == items[i];
      }
      KeptNoMatch(init, id, eq);
      assert !IdIs(last, id, eq);
      calc {
        Kept(items, id, eq);
        Kept(init, id, eq) + [last];
        init + [last];
        { SplitLast(items); }
        items;
      }
    }
  }

  lemma KeptIdempotent(items: seq<Json>, id: string, eq: Equality)
    ensures Kept(Kept(items, id, eq), id, eq) == Kept(items, id, eq)
  {
    var k := Kept(items, id, eq);
    forall i | 0 <= i < |k| ensures !IdIs(k[i], id, eq) {
      assert k[i] in k;
    }
    KeptNoMatch(k, id, eq);
  }

  /** The two comparisons part ways on numeric ids: an entity whose id is the
      number 1 survives a strict delete of row "1" but not a loose one. */
  lemma NumericIdDelete()
    ensures var item := JObj(map["id" := JNum(1.0)]);
      && Without([item], "1", Strict) == Some([item])
      && Without([item], "1", Loose) == Some([])
  {
    var item := JObj(map["id" := JNum(1.0)]);
    assert Prop(item, "id") == Some(JNum(1.0));
    assert !IdIs(item, "1", Strict) && IdIs(item, "1", Loose) by {
      StrictIsLooser(Some(JNum(1.0)), "1");
    }
    assert [item][..0] == [];
    assert Kept([item], "1", Strict) == [item];
    assert Kept([item], "1", Loose) == [];
  }

  /** Ids are pairwise distinct. */
  predicate UniqueIds(items: seq<Json>) {
    forall i, j :: 0 <= i < j < |items| ==> Prop(items[i], "id") != Prop(items[j], "id")
  }

  lemma {:induction false} NoMatchesNone(items: seq<Json>, id: string, eq: Equality)
    requires Matches(items, id, eq) == 0
    ensures forall i :: 0 <= i < |items| ==> !IdIs(items[i], id, eq)
  {
    if |items| > 0 {
      NoMatchesNone(items[..|items| - 1], id, eq);
      forall i | 0 <= i < |items| - 1 ensures !IdIs(items[i], id, eq) {
        assert items[..|items| - 1][i] == items[i];
      }
    }
  }

  /** With distinct ids, a strict delete removes at most one entity. */
  lemma {:induction false} StrictDeleteRemovesAtMostOne(items: seq<Json>, id: string)
    requires UniqueIds(items)
    ensures Matches(items, id, Strict) <= 1
    ensures |Kept(items, id, Strict)| >= |items| - 1
  {
    if |items| > 0 {
      var init := items[..|items| - 1];
      assert UniqueIds(init) by {
        forall i, j | 0 <= i < j < |init| ensures Prop(init[i], "id") != Prop(init[j], "id") {
          assert init[i] == items[i] && init[j] == items[j];
        }
      }
      StrictDeleteRemovesAtMostOne(init, id);
      if IdIs(items[|items| - 1], id, Strict) && Matches(init, id, Strict) == 1 {
        var k := MatchIndex(init, id, Strict);
        assert false;
      }
    }
  }

  /** The position of some entity with the id, when one exists. */
  lemma {:induction false} MatchIndex(items: seq<Json>, id: string, eq: Equality) returns (k: nat)
    requires Matches(items, id, eq) > 0
    ensures k < |items| && IdIs(items[k], id, eq)
  {
    var init := items[..|items| - 1];
    if IdIs(items[|items| - 1], id, eq) {
      k := |items| - 1;
    } else {
      k := MatchIndex(init, id, eq);
      assert init[k] == items[k];
    }
  }

  // ---------------------------------------------------------------- new entities

  /** The fresh entity each "add" button appends; `id` comes from `generateId()`. */
  function NewEntity(c: Collection, id: string): Json {
    match c
    case Ingredients =>
      JObj(map["id" := JStr(id), "phase" := JStr(""), "tradeName" := JStr(""), "inciName" := JStr(""),
               "func" := JStr(""), "supplier" := JStr(""), "notes" := JStr(""), "percent" := JNum(0.0)])
    case PerformanceData => JObj(map["id" := JStr(id), "parameter" := JStr(""), "value" := JStr("")])
    case StabilityData => JObj(map["id" := JStr(id), "condition" := JStr(""), "result" := JStr("")])
    case Equipment => JObj(map["id" := JStr(id), "shortName" := JStr(""), "fullName" := JStr(""), "notes" := JStr("")])
    case ProcessSteps =>
      JObj(map["id" := JStr(id), "number" := JStr(""), "description" := JStr(""), "equipment" := JStr(""),
               "parameters" := JArr([])])
    case QualityControl => JObj(map["id" := JStr(id), "name" := JStr(""), "checks" := JArr([])])
  }

  /** A fresh process parameter `{ id, name: '', norm: '' }`. */
  function NewParam(id: string): Json {
    JObj(map["id" := JStr(id), "name" := JStr(""), "norm" := JStr("")])
  }

  /** A fresh quality-control check `{ id, parameter: '', standard: '' }`. */
  function NewCheck(id: string): Json {
    JObj(map["id" := JStr(id), "parameter" := JStr(""), "standard" := JStr("")])
  }

  /** A fresh entity carries the new id under both comparisons, and its nested
      list, where it has one, starts empty; a fresh ingredient is 0 percent and
      needs no migration. */
  lemma NewEntityId(c: Collection, id: string)
    ensures Prop(NewEntity(c, id), "id") == Some(JStr(id))
    ensures Prop(NewParam(id), "id") == Some(JStr(id)) && Prop(NewCheck(id), "id") == Some(JStr(id))
  {
    match c
    case Ingredients =>
    case PerformanceData =>
    case StabilityData =>
    case Equipment =>
    case ProcessSteps =>
    case QualityControl =>
  }

  lemma NewEntityShape(c: Collection, id: string)
    ensures IdIs(NewEntity(c, id), id, Strict) && IdIs(NewEntity(c, id), id, Loose)
    ensures IdIs(NewParam(id), id, Loose) && IdIs(NewCheck(id), id, Loose)
    ensures c == ProcessSteps ==> Prop(NewEntity(c, id), "parameters") == Some(JArr([]))
    ensures c == QualityControl ==> Prop(NewEntity(c, id), "checks") == Some(JArr([]))
    ensures c == Ingredients ==> NumberOrZero(Prop(NewEntity(c, id), "percent")) == 0.0 && PhaseText(NewEntity(c, id)) == Some("")
    ensures !Migratable(NewEntity(c, id))
  {
    NewEntityId(c, id);
    var e := NewEntity(c, id);
    match c
    case Ingredients =>
      assert Prop(e, "phase") == Some(JStr(""));
      assert Prop(e, "percent") == Some(JNum(0.0));
      assert Prop(e, "name") == None;
    case PerformanceData =>
      assert Prop(e, "name") == None;
    case StabilityData =>
      assert Prop(e, "name") == None;
    case Equipment =>
      assert Prop(e, "name") == None;
    case ProcessSteps =>
      assert Prop(e, "name") == None;
    case QualityControl =>
      assert Prop(e, "name") == Some(JStr(""));
  }

  /** `state[c].push(x)`. */
  function Appended(d: Doc, c: Collection, x: Json): (r: Doc)
    ensures Items(r, c) == Items(d, c) + [x] && r.meta == d.meta
    ensures forall c' :: c' != c ==> Items(r, c') == Items(d, c')
  {
    WithItems(d, c, Items(d, c) + [x])
  }

  /** Deleting a freshly added entity by its id gives the collection back, under
      either comparison, when no older entity has that id. */
  lemma AddThenDelete(d: Doc, c: Collection, id: string, eq: Equality)
    requires JNull !in Items(d, c)
    requires forall i :: 0 <= i < |Items(d, c)| ==> !IdIs(Items(d, c)[i], id, eq)
    ensures Without(Items(Appended(d, c, NewEntity(c, id)), c), id, eq) == Some(Items(d, c))
  {
    var e := NewEntity(c, id);
    assert IdIs(e, id, eq) by { NewEntityId(c, id); }
    DeleteAppended(Items(d, c), e, id, eq);
  }

  /** Deleting the id of the last entry, which no other entry has, removes just
      that entry. */
  lemma DeleteAppended(xs: seq<Json>, x: Json, id: string, eq: Equality)
    requires JNull !in xs && x.JObj? && IdIs(x, id, eq)
    requires forall i :: 0 <= i < |xs| ==> !IdIs(xs[i], id, eq)
    ensures Without(xs + [x], id, eq) == Some(xs)
  {
    KeptAppend(xs, [x], id, eq);
    KeptNoMatch(xs, id, eq);
    assert Kept([x], id, eq) == [] by { assert [x][..0] == []; }
    assert Kept(xs + [x], id, eq) == xs;
    assert !(JNull in xs + [x]);
  }

  /** Appending an entity with a fresh id keeps ids distinct. */
  lemma AppendKeepsIdsUnique(items: seq<Json>, x: Json)
    requires UniqueIds(items)
    requires forall i :: 0 <= i < |items| ==> Prop(items[i], "id") != Prop(x, "id")
    ensures UniqueIds(items + [x])
  {
  }

  // ---------------------------------------------------------------- nested lists

  /** The two operations on a step's `parameters` or a block's `checks`. */
  datatype NestedOp = AddEntry(entry: Json) | RemoveEntry(id: string)

  /** `if (!o[k]) o[k] = []; o[k].push(entry)` and `o[k] = o[k].filter(x => x.id != id)`
      on the owner `o`. None is the TypeError of pushing to or filtering a value
      that is not an array, or of reading the id of a null entry; an owner that
      is not an object has no such list. */
  function ApplyNested(owner: Json, key: string, op: NestedOp): (r: Option<Json>)
    ensures r.Some? ==> owner.JObj? && r.value.JObj?
    ensures r.Some? ==> forall k :: k != key ==> Prop(r.value, k) == Prop(owner, k)
  {
    if !owner.JObj? then None
    else match op
      case AddEntry(entry) =>
        (match Prop(owner, key)
         case Some(JArr(xs)) => Some(Set(owner, key, JArr(xs + [entry])))
         case p => if TruthyOpt(p) then None else Some(Set(owner, key, JArr([entry]))))
      case RemoveEntry(id) =>
        (match Prop(owner, key)
         case Some(JArr(xs)) =>
           (match Without(xs, id, Loose)
            case Some(ys) => Some(Set(owner, key, JArr(ys)))
            case None => None)
         case _ => None)
  }

  /** An add appends to the nested list (an absent or falsy list counts as
      empty) and throws on a truthy value that is not an array. */
  lemma ApplyNestedAdd(owner: Json, key: string, entry: Json)
    requires owner.JObj?
    ensures ApplyNested(owner, key, AddEntry(entry)).None? <==> TruthyOpt(Prop(owner, key)) && !Prop(owner, key).value.JArr?
    ensures ApplyNested(owner, key, AddEntry(entry)).Some? ==>
      Prop(ApplyNested(owner, key, AddEntry(entry)).value, key) ==
        Some(JArr((if TruthyOpt(Prop(owner, key)) then Prop(owner, key).value.items else []) + [entry]))
  {
    var e: seq<Json> := [];
    assert e + [entry] == [entry];
  }

  /** A remove keeps exactly the nested entries without the id, and throws
      unless the list is an array without null entries. */
  lemma ApplyNestedRemove(owner: Json, key: string, id: string)
    requires owner.JObj?
    ensures ApplyNested(owner, key, RemoveEntry(id)).Some? <==>
      Prop(owner, key).Some? && Prop(owner, key).value.JArr? && JNull !in Prop(owner, key).value.items
    ensures ApplyNested(owner, key, RemoveEntry(id)).Some? ==>
      Prop(ApplyNested(owner, key, RemoveEntry(id)).value, key) == Some(JArr(Kept(Prop(owner, key).value.items, id, Loose)))
  {
  }

  /** Adding a parameter (or check) with a fresh id and removing it again gives
      the owner's list back. */
  lemma AddThenRemoveNested(owner: Json, key: string, id: string, xs: seq<Json>)
    requires owner.JObj? && Prop(owner, key) == Some(JArr(xs)) && JNull !in xs
    requires forall i :: 0 <= i < |xs| ==> !IdIs(xs[i], id, Loose)
    ensures ApplyNested(owner, key, AddEntry(NewParam(id))).Some?
    ensures ApplyNested(ApplyNested(owner, key, AddEntry(NewParam(id))).value, key, RemoveEntry(id)) == Some(owner)
  {
    assert IdIs(NewParam(id), id, Loose) by { NewEntityId(Ingredients, id); }
    AddThenRemoveEntry(owner, key, id, xs, NewParam(id));
  }

  lemma AddThenRemoveEntry(owner: Json, key: string, id: string, xs: seq<Json>, p: Json)
    requires owner.JObj? && Prop(owner, key) == Some(JArr(xs)) && JNull !in xs
    requires forall i :: 0 <= i < |xs| ==> !IdIs(xs[i], id, Loose)
    requires p.JObj? && IdIs(p, id, Loose)
    ensures ApplyNested(owner, key, AddEntry(p)) == Some(Set(owner, key, JArr(xs + [p])))
    ensures ApplyNested(Set(owner, key, JArr(xs + [p])), key, RemoveEntry(id)) == Some(owner)
  {
    DeleteAppended(xs, p, id, Loose);
    RemoveFromArray(Set(owner, key, JArr(xs + [p])), key, id, xs + [p]);
    SetBack(owner, key, JArr(xs + [p]), JArr(xs));
  }

  /** A remove on an array without nulls stores what `Without` keeps. */
  lemma RemoveFromArray(owner: Json, key: string, id: string, xs: seq<Json>)
    requires owner.JObj? && Prop(owner, key) == Some(JArr(xs)) && Without(xs, id, Loose).Some?
    ensures ApplyNested(owner, key, RemoveEntry(id)) == Some(Set(owner, key, JArr(Without(xs, id, Loose).value)))
  {
  }

  /** Overwriting a property and then restoring its old value gives the
      object back. */
  lemma SetBack(owner: Json, key: string, x: Json, y: Json)
    requires owner.JObj? && Prop(owner, key) == Some(y)
    ensures Set(Set(owner, key, x), key, y) == owner
  {
    assert owner.fields[key := x][key := y] == owner.fields;
  }

  /** The outcome of a handler that looks up an owner entity by id and changes
      it: the new document, no owner with that id (nothing happens), or a
      TypeError (nothing is changed). */
  datatype Outcome = Done(doc: Doc) | NotFound | Failed

  /** Adding or removing a nested entry of the entity with id `ownerId` in
      collection `c` (`parameters` of a process step, `checks` of a block). */
  function OnOwner(d: Doc, c: Collection, key: string, ownerId: string, op: NestedOp): (r: Outcome)
    ensures r.Done? ==> r.doc.meta == d.meta && forall c' :: c' != c ==> Items(r.doc, c') == Items(d, c')
    ensures r.Done? ==> |Items(r.doc, c)| == |Items(d, c)|
  {
    match FindLoose(Items(d, c), ownerId)
    case Threw => Failed
    case Absent => NotFound
    case At(i) =>
      match ApplyNested(Items(d, c)[i], key, op)
      case None => Failed
      case Some(o) => Done(WithItems(d, c, Items(d, c)[i := o]))
  }

  /** Only the first entity with the owner id changes, and only in its nested list. */
  lemma OnOwnerFrame(d: Doc, c: Collection, key: string, ownerId: string, op: NestedOp)
    requires OnOwner(d, c, key, ownerId, op).Done?
    ensures var i := FindLoose(Items(d, c), ownerId).index;
      var after := Items(OnOwner(d, c, key, ownerId, op).doc, c);
      && (forall j :: 0 <= j < |after| && j != i ==> after[j] == Items(d, c)[j])
      && after[i] == ApplyNested(Items(d, c)[i], key, op).value
  {
  }

  /** The buttons that change a nested list: `.addParamBtn` and `.delParamBtn`
      on a process step's row, `.addQcCheckBtn` and `.delQcCheckBtn` in a
      quality-control block. */
  datatype NestedButton =
    | AddParam(stepId: string, newId: string)
    | DelParam(stepId: string, paramId: string)
    | AddQcCheck(blockId: string, newId: string)
    | DelQcCheck(blockId: string, checkId: string)

  /** The section a nested-list button redraws: the process table for the
      parameter buttons, the QC blocks for the check buttons. */
  function NestedSection(b: NestedButton): Collection {
    if b.AddParam? || b.DelParam? then ProcessSteps else QualityControl
  }

  /** What a nested-list button does to the document. */
  function Pressed(d: Doc, b: NestedButton): Outcome {
    match b
    case AddParam(stepId, newId) => OnOwner(d, ProcessSteps, "parameters", stepId, AddEntry(NewParam(newId)))
    case DelParam(stepId, paramId) => OnOwner(d, ProcessSteps, "parameters", stepId, RemoveEntry(paramId))
    case AddQcCheck(blockId, newId) => OnOwner(d, QualityControl, "checks", blockId, AddEntry(NewCheck(newId)))
    case DelQcCheck(blockId, checkId) => OnOwner(d, QualityControl, "checks", blockId, RemoveEntry(checkId))
  }

  /** Replacing the found entity by one with the same id does not move the match. */
  lemma {:induction false} FindLooseKeepsIndex(items: seq<Json>, id: string, i: nat, x: Json)
    requires FindLoose(items, id) == At(i)
    requires x.JObj? && Prop(x, "id") == Prop(items[i], "id")
    ensures FindLoose(items[i := x], id) == At(i)
  {
    if i > 0 {
      assert FindLoose(items[1..], id) == At(i - 1);
      FindLooseKeepsIndex(items[1..], id, i - 1, x);
      assert items[i := x][1..] == items[1..][i - 1 := x];
    }
  }

  /** Adding a parameter to a step and deleting it with its own button gives
      the document back, when no parameter of the step had that id. */
  lemma AddThenDeleteParam(d: Doc, stepId: string, id: string, xs: seq<Json>)
    requires FindLoose(d.processSteps, stepId).At?
    requires d.processSteps[FindLoose(d.processSteps, stepId).index].JObj?
    requires Prop(d.processSteps[FindLoose(d.processSteps, stepId).index], "parameters") == Some(JArr(xs))
    requires JNull !in xs && forall i :: 0 <= i < |xs| ==> !IdIs(xs[i], id, Loose)
    ensures Pressed(d, AddParam(stepId, id)).Done?
    ensures Pressed(Pressed(d, AddParam(stepId, id)).doc, DelParam(stepId, id)) == Done(d)
  {
    var steps := d.processSteps;
    var i := FindLoose(steps, stepId).index;
    var s := steps[i];
    AddThenRemoveNested(s, "parameters", id, xs);
    var o := ApplyNested(s, "parameters", AddEntry(NewParam(id))).value;
    var d1 := WithItems(d, ProcessSteps, steps[i := o]);
    assert Pressed(d, AddParam(stepId, id)) == Done(d1);
    FindLooseKeepsIndex(steps, stepId, i, o);
    assert steps[i := o][i := s] == steps;
  }

  // ---------------------------------------------------------------- cell edits

  /** `item[key] = value` on an entity; entities that are not objects are left
      as they are. */
  function SetField(item: Json, key: string, value: string): (r: Json)
    ensures item.JObj? ==> Prop(r, key) == Some(JStr(value)) && forall k :: k != key ==> Prop(r, k) == Prop(item, k)
    ensures !item.JObj? ==> r == item
  {
    if item.JObj? then Set(item, key, JStr(value)) else item
  }

  /** The three key/value tables that share `findAndSet`. */
  datatype SimpleTable = PerformanceTable | StabilityTable | EquipmentTable

  function TableCollection(t: SimpleTable): Collection {
    match t
    case PerformanceTable => PerformanceData
    case StabilityTable => StabilityData
    case EquipmentTable => Equipment
  }

  /** The table cell an `input` event comes from: its row's `data-id`, the
      nested entry's id where the cell belongs to one (`data-param-id`, "" when
      absent, or the QC row's `data-check-id`), and the `data-key`. */
  datatype Cell =
    | IngredientCell(rowId: string, key: string)
    | TableCell(table: SimpleTable, rowId: string, key: string)
    | StepCell(stepId: string, paramId: string, key: string)
    | QcCell(blockId: string, checkId: Option<string>, key: string)

  function CellCollection(cell: Cell): Collection {
    match cell
    case IngredientCell(_, _) => Ingredients
    case TableCell(t, _, _) => TableCollection(t)
    case StepCell(_, _, _) => ProcessSteps
    case QcCell(_, _, _) => QualityControl
  }

  function CellRowId(cell: Cell): string {
    match cell
    case IngredientCell(r, _) => r
    case TableCell(_, r, _) => r
    case StepCell(r, _, _) => r
    case QcCell(r, _, _) => r
  }

  /** The cell writes straight into the row's entity, not into a nested entry,
      and does not re-sort. */
  predicate DirectCell(cell: Cell) {
    match cell
    case IngredientCell(_, key) => key != "phase"
    case TableCell(_, _, _) => true
    case StepCell(_, paramId, _) => paramId == ""
    case QcCell(_, checkId, _) => checkId.None?
  }

  function CellKey(cell: Cell): string {
    match cell
    case IngredientCell(_, k) => k
    case TableCell(_, _, k) => k
    case StepCell(_, _, k) => k
    case QcCell(_, _, k) => k
  }

  /** What an edit leaves behind: the document, and whether the handler ran to
      its end (false: it threw after the changes already in `doc`). */
  datatype Effect = Effect(doc: Doc, completed: bool)

  /** `item = list.find(x => x.id == entryId); if (item) item[key] = value` on
      the nested list `owner[listKey]`; None when that throws. */
  function SetNested(owner: Json, listKey: string, entryId: string, key: string, value: string): Option<Json> {
    match Prop(owner, listKey)
    case Some(JArr(xs)) =>
      (match FindLoose(xs, entryId)
       case Threw => None
       case Absent => Some(owner)
       case At(j) => Some(Set(owner, listKey, JArr(xs[j := SetField(xs[j], key, value)]))))
    case _ => None
  }

  /** The table part of the input handler (`handleTableUpdate` / `handleUpdate`):
      find the row's entity by loose id and set the edited key; in the nested
      lists, find the entry; after a phase edit, re-sort the ingredients. */
  function EditCell(d: Doc, cell: Cell, value: string, leq: (string, string) -> bool): Effect {
    match FindLoose(Items(d, CellCollection(cell)), CellRowId(cell))
    case Threw => Effect(d, false)
    case Absent => Effect(d, true)
    case At(i) => EditAt(d, cell, i, value, leq)
  }

  /** The edit once the row's entity is found at index `i`. */
  function EditAt(d: Doc, cell: Cell, i: nat, value: string, leq: (string, string) -> bool): Effect
    requires i < |Items(d, CellCollection(cell))|
  {
    var c := CellCollection(cell);
    var items := Items(d, c);
    match cell
    case IngredientCell(_, key) =>
      var d1 := WithItems(d, c, items[i := SetField(items[i], key, value)]);
      if key != "phase" then Effect(d1, true)
      else
        (match SortByPhase(d1.ingredients, leq)
         case None => Effect(d1, false)
         case Some(sorted) => Effect(d1.(ingredients := sorted), true))
    case TableCell(_, _, key) => Effect(WithItems(d, c, items[i := SetField(items[i], key, value)]), true)
    case StepCell(_, paramId, key) =>
      if paramId == "" then Effect(WithItems(d, c, items[i := SetField(items[i], key, value)]), true)
      else
        (match SetNested(items[i], "parameters", paramId, key, value)
         case None => Effect(d, false)
         case Some(o) => Effect(WithItems(d, c, items[i := o]), true))
    case QcCell(_, checkId, key) =>
      if checkId.None? then Effect(WithItems(d, c, items[i := SetField(items[i], key, value)]), true)
      else
        (match SetNested(items[i], "checks", checkId.value, key, value)
         case None => Effect(d, false)
         case Some(o) => Effect(WithItems(d, c, items[i := o]), true))
  }

  /** The edit sets an ingredient's `percent` or `phase` on a row whose entity
      was found: both editions then redraw part of the formulation. */
  predicate RedrawsFormulation(d: Doc, cell: Cell) {
    && cell.IngredientCell? && (cell.key == "percent" || cell.key == "phase")
    && FindLoose(d.ingredients, cell.rowId).At?
  }

  /** A cell edit never touches the meta record or another collection. */
  lemma EditCellStaysInTable(d: Doc, cell: Cell, value: string, leq: (string, string) -> bool)
    ensures EditCell(d, cell, value, leq).doc.meta == d.meta
    ensures forall c :: c != CellCollection(cell) ==> Items(EditCell(d, cell, value, leq).doc, c) == Items(d, c)
  {
    match FindLoose(Items(d, CellCollection(cell)), CellRowId(cell))
    case Threw =>
    case Absent =>
    case At(i) => EditAtStaysInTable(d, cell, i, value, leq);
  }

  lemma EditAtStaysInTable(d: Doc, cell: Cell, i: nat, value: string, leq: (string, string) -> bool)
    requires i < |Items(d, CellCollection(cell))|
    ensures EditAt(d, cell, i, value, leq).doc.meta == d.meta
    ensures forall c :: c != CellCollection(cell) ==> Items(EditAt(d, cell, i, value, leq).doc, c) == Items(d, c)
  {
    var c := CellCollection(cell);
    var e := EditAt(d, cell, i, value, leq);
    if cell.IngredientCell? {
      var d1 := WithItems(d, c, Items(d, c)[i := SetField(Items(d, c)[i], cell.key, value)]);
      assert e.doc == d1 || e.doc == d1.(ingredients := e.doc.ingredients);
    } else {
      assert e.doc == d || e.doc == WithItems(d, c, Items(e.doc, c));
    }
  }

  /** A direct cell edit sets the key on the first entity whose id loosely equals
      the row id and changes nothing else; when no entity has the id, or a null
      entry comes first, nothing changes, and only the null entry makes it throw. */
  lemma DirectEdit(d: Doc, cell: Cell, value: string, leq: (string, string) -> bool)
    requires DirectCell(cell)
    ensures var c := CellCollection(cell);
      var e := EditCell(d, cell, value, leq);
      match FindLoose(Items(d, c), CellRowId(cell))
      case At(i) =>
        && e.completed
        && |Items(e.doc, c)| == |Items(d, c)|
        && (forall j :: 0 <= j < |Items(d, c)| && j != i ==> Items(e.doc, c)[j] == Items(d, c)[j])
        && Items(e.doc, c)[i] == SetField(Items(d, c)[i], CellKey(cell), value)
      case Absent => e == Effect(d, true)
      case Threw => e == Effect(d, false)
  {
  }

  /** A phase edit sets the phase and then re-sorts: the ingredients are a
      stable permutation of the edited list, ordered by phase; when the sort
      throws, the edited phase is already in place but the list is not sorted. */
  lemma PhaseEdit(d: Doc, rowId: string, value: string, leq: (string, string) -> bool)
    requires TotalPreorder(leq)
    requires FindLoose(d.ingredients, rowId).At?
    ensures var i := FindLoose(d.ingredients, rowId).index;
      var edited := d.ingredients[i := SetField(d.ingredients[i], "phase", value)];
      var e := EditCell(d, IngredientCell(rowId, "phase"), value, leq);
      && (e.completed ==> multiset(e.doc.ingredients) == multiset(edited) && Sorted(e.doc.ingredients, leq)
                          && forall k :: Group(e.doc.ingredients, k, leq) == Group(edited, k, leq))
      && (!e.completed <==> |edited| >= 2 && exists j :: 0 <= j < |edited| && PhaseText(edited[j]).None?)
      && (!e.completed ==> e.doc.ingredients == edited)
  {
    var i := FindLoose(d.ingredients, rowId).index;
    var edited := d.ingredients[i := SetField(d.ingredients[i], "phase", value)];
    SortByPhaseSpec(edited, leq);
  }

  // ---------------------------------------------------------------- meta inputs

  /** `syncMetaToState()`: each meta input, in document order, whose id is a key
      the meta record already has, overwrites that key with its text. Inputs are
      (id, value) pairs. */
  function SyncedMeta(meta: map<string, Json>, inputs: seq<(string, string)>): (r: map<string, Json>)
    ensures r.Keys == meta.Keys
  {
    if |inputs| == 0 then meta
    else
      var m := SyncedMeta(meta, inputs[..|inputs| - 1]);
      var (id, value) := inputs[|inputs| - 1];
      if id != "" && id in m then m[id := JStr(value)] else m
  }

  /** Input `i` is the last one with id `k`. */
  predicate LastInput(inputs: seq<(string, string)>, k: string, i: int) {
    0 <= i < |inputs| && inputs[i].0 == k && forall j :: i < j < |inputs| ==> inputs[j].0 != k
  }

  /** After the sync, a key holds the text of the last input with that id, or
      its old value when no input has it. */
  lemma {:induction false} SyncedMetaValues(meta: map<string, Json>, inputs: seq<(string, string)>, k: string)
    requires k in meta
    ensures (forall i :: 0 <= i < |inputs| ==> inputs[i].0 != k) ==> SyncedMeta(meta, inputs)[k] == meta[k]
    ensures forall i :: LastInput(inputs, k, i) && k != "" ==> SyncedMeta(meta, inputs)[k] == JStr(inputs[i].1)
  {
    if |inputs| > 0 {
      var init := inputs[..|inputs| - 1];
      var last := inputs[|inputs| - 1];
      SyncedMetaValues(meta, init, k);
      var m := SyncedMeta(meta, init);
      if last.0 == k {
        assert k != "" ==> SyncedMeta(meta, inputs)[k] == JStr(last.1);
        forall i | LastInput(inputs, k, i) ensures i == |inputs| - 1 { }
      } else {
        assert SyncedMeta(meta, inputs)[k] == m[k];
        forall i | LastInput(inputs, k, i) ensures LastInput(init, k, i) {
          assert init[i] == inputs[i];
          forall j | i < j < |init| ensures init[j].0 != k {
            assert init[j] == inputs[j];
          }
        }
        assert (forall i :: 0 <= i < |inputs| ==> inputs[i].0 != k) ==> (forall i :: 0 <= i < |init| ==> init[i].0 != k) by {
          forall i | 0 <= i < |init| ensures init[i] == inputs[i] { }
        }
      }
    }
  }

  /** The sync loop itself, over the meta card's inputs in document order. */
  method SyncMeta(meta: map<string, Json>, inputs: seq<(string, string)>) returns (m: map<string, Json>)
    ensures m == SyncedMeta(meta, inputs)
  {
    m := meta;
    var i := 0;
    while i < |inputs|
      invariant 0 <= i <= |inputs|
      invariant m == SyncedMeta(meta, inputs[..i])
    {
      PrefixStep(inputs, i);
      var (id, value) := inputs[i];
      if id != "" && id in m {
        m := m[id := JStr(value)];
      }
      i := i + 1;
    }
    assert inputs[..i] == inputs;
  }

  /** `state.meta.batchSize = value`: the batch size input stores its text. */
  function WithBatchSize(d: Doc, value: string): (r: Doc)
    ensures NumberOrZero(Prop(JObj(r.meta), "batchSize")) == NumberOrZero(Some(JStr(value)))
    ensures r.(meta := d.meta) == d
    ensures forall k :: k != "batchSize" ==> Prop(JObj(r.meta), k) == Prop(JObj(d.meta), k)
  {
    d.(meta := d.meta["batchSize" := JStr(value)])
  }

  /** The base name of the exported file, `meta.productCode || 'techspec'`;
      None when the code is a truthy value that is not a string, whose string
      form is not modelled. */
  function ExportBase(meta: map<string, Json>): (r: Option<string>)
    ensures r.Some? && r.value != "techspec" ==> "productCode" in meta && meta["productCode"] == JStr(r.value)
    ensures "productCode" !in meta || !Truthy(meta["productCode"]) ==> r == Some("techspec")
  {
    var v := if "productCode" in meta then Some(meta["productCode"]) else None;
    match Shown(JObj(meta), "productCode")
    case JStr(s) => if s == "" then Some("techspec") else Some(s)
    case _ => None
  }
}
