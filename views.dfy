/** What the table renderers put on the page, as row values rather than DOM
    nodes: the simple key/value tables, the formulation table with its phase
    headers and masses, the percentage total, and the quality-control blocks.
    js/ui.js, js/renderers.js and app.js build these rows with the same loops;
    each renderer appends row by row, so a TypeError part-way leaves the rows
    appended so far on the page (`complete` false). */
module Views {
  import opened JsonValues
  import opened Text
  import opened Numbers
  import opened PhaseSort

  /** The rows a renderer appended, and whether it ran to the end. */
  datatype Rendered<T> = Rendered(rows: seq<T>, complete: bool)

  /** The values shown for `keys`, each `item[key] || ''`. */
  function CellsOf(item: Json, keys: seq<string>): (cells: seq<Json>)
    ensures |cells| == |keys| && forall i :: 0 <= i < |keys| ==> cells[i] == Shown(item, keys[i])
  {
    seq(|keys|, i requires 0 <= i < |keys| => Shown(item, keys[i]))
  }

  // ---------------------------------------------------------------- simple tables

  /** A row of a key/value table: `data-id` and the cell values. */
  datatype TableRow = TableRow(id: Option<Json>, cells: seq<Json>)

  function TableRowOf(item: Json, keys: seq<string>): TableRow {
    TableRow(Prop(item, "id"), CellsOf(item, keys))
  }

  /** `renderSimpleTable`: a row per item, in order, up to the first null item,
      where reading `item.id` throws. */
  function TableRows(items: seq<Json>, keys: seq<string>): (r: Rendered<TableRow>)
    ensures r.complete <==> JNull !in items
    ensures r.complete ==> |r.rows| == |items|
    ensures !r.complete ==> |r.rows| < |items| && items[|r.rows|] == JNull
    ensures forall i :: 0 <= i < |r.rows| ==> items[i] != JNull && r.rows[i] == TableRowOf(items[i], keys)
  {
    if |items| == 0 then Rendered([], true)
    else
      var prev := TableRows(items[..|items| - 1], keys);
      var last := items[|items| - 1];
      if !prev.complete || last == JNull then Rendered(prev.rows, false)
      else Rendered(prev.rows + [TableRowOf(last, keys)], true)
  }

  /** The `forEach` of `renderSimpleTable`. */
  method RenderTableRows(items: seq<Json>, keys: seq<string>) returns (r: Rendered<TableRow>)
    ensures r == TableRows(items, keys)
  {
    var rows: seq<TableRow> := [];
    var i := 0;
    while i < |items|
      invariant 0 <= i <= |items|
      invariant TableRows(items[..i], keys) == Rendered(rows, true)
    {
      TableRowsNext(items, keys, i, rows);
      if items[i] == JNull {
        return Rendered(rows, false);
      }
      rows := rows + [TableRowOf(items[i], keys)];
      i := i + 1;
    }
    assert items[..i] == items;
    return Rendered(rows, true);
  }

  /** One more item after a prefix drawn in full: a null item ends the table. */
  lemma TableRowsNext(items: seq<Json>, keys: seq<string>, i: nat, rows: seq<TableRow>)
    requires i < |items| && TableRows(items[..i], keys) == Rendered(rows, true)
    ensures items[i] == JNull ==> TableRows(items, keys) == Rendered(rows, false)
    ensures items[i] != JNull ==> TableRows(items[..i + 1], keys) == Rendered(rows + [TableRowOf(items[i], keys)], true)
  {
    PrefixStep(items, i);
    if items[i] == JNull {
      TableRowsStop(items, keys, i + 1);
    }
  }

  /** Once a prefix is incomplete, the whole rendering stops with its rows. */
  lemma {:induction false} TableRowsStop(items: seq<Json>, keys: seq<string>, k: nat)
    requires k <= |items| && !TableRows(items[..k], keys).complete
    ensures TableRows(items, keys) == TableRows(items[..k], keys)
    decreases |items| - k
  {
    if k < |items| {
      PrefixStep(items, k);
      TableRowsStop(items, keys, k + 1);
    } else {
      assert items[..k] == items;
    }
  }

  // ---------------------------------------------------------------- formulation

  /** The ingredient inputs, in column order. */
  const IngredientKeys: seq<string> := ["phase", "tradeName", "inciName", "func", "supplier", "notes", "percent"]

  /** A line of the formulation table: a phase header, or an ingredient's row
      with its `data-id`, its cell values and its mass in the batch. */
  datatype IngredientLine =
    | PhaseHeader(phase: string)
    | IngredientRow(id: Option<Json>, cells: seq<Json>, mass: real)

  /** `batchSize * (parseFloat(ing.percent) || 0) / 100`. */
  function Mass(batchSize: real, ing: Json): real {
    batchSize * NumberOrZero(Prop(ing, "percent")) / 100.0
  }

  function IngredientRowOf(ing: Json, batchSize: real): IngredientLine {
    IngredientRow(Prop(ing, "id"), CellsOf(ing, IngredientKeys), Mass(batchSize, ing))
  }

  /** `(ing.phase || '').toUpperCase()`. */
  function UpperPhase(ing: Json): string {
    Upper(Key(ing))
  }

  /** The renderer's `lastPhase` after some ingredients: the last non-empty
      upper-cased phase, None (null) before any. */
  function LastPhase(ings: seq<Json>): (r: Option<string>)
    ensures r.Some? ==> r.value != ""
  {
    if |ings| == 0 then None
    else if UpperPhase(ings[|ings| - 1]) != "" then Some(UpperPhase(ings[|ings| - 1]))
    else LastPhase(ings[..|ings| - 1])
  }

  /** The lines for one ingredient: a header when its phase is non-empty and
      differs from `lastPhase`, then its row. */
  function LinesFor(ing: Json, lastPhase: Option<string>, batchSize: real): seq<IngredientLine> {
    HeaderFor(ing, lastPhase) + [IngredientRowOf(ing, batchSize)]
  }

  function HeaderFor(ing: Json, lastPhase: Option<string>): seq<IngredientLine> {
    var p := UpperPhase(ing);
    if p != "" && Some(p) != lastPhase then [PhaseHeader(p)] else []
  }

  /** Appending an ingredient's lines: its row comes last, after the header
      when there is one. */
  lemma LinesForLast(rows: seq<IngredientLine>, ing: Json, lastPhase: Option<string>, batchSize: real)
    ensures var r := rows + LinesFor(ing, lastPhase, batchSize);
      |r| > 0 && r[|r| - 1] == IngredientRowOf(ing, batchSize) && r[..|r| - 1] == rows + HeaderFor(ing, lastPhase)
  {
    var h := HeaderFor(ing, lastPhase);
    assert rows + (h + [IngredientRowOf(ing, batchSize)]) == (rows + h) + [IngredientRowOf(ing, batchSize)];
  }

  /** The `forEach` of `renderIngredients`: it throws at an ingredient whose
      phase cannot be upper-cased (a null ingredient, or a truthy phase that is
      not a string). */
  function IngredientLines(ings: seq<Json>, batchSize: real): Rendered<IngredientLine> {
    if |ings| == 0 then Rendered([], true)
    else
      var prev := IngredientLines(ings[..|ings| - 1], batchSize);
      var last := ings[|ings| - 1];
      if !prev.complete || PhaseText(last).None? then Rendered(prev.rows, false)
      else Rendered(prev.rows + LinesFor(last, LastPhase(ings[..|ings| - 1]), batchSize), true)
  }

  /** The `forEach` loop, with `lastPhase` as the loop variable. */
  method RenderIngredientRows(ings: seq<Json>, batchSize: real) returns (r: Rendered<IngredientLine>)
    ensures r == IngredientLines(ings, batchSize)
  {
    var rows: seq<IngredientLine> := [];
    var lastPhase: Option<string> := None;
    var i := 0;
    while i < |ings|
      invariant 0 <= i <= |ings|
      invariant IngredientLines(ings[..i], batchSize) == Rendered(rows, true)
      invariant lastPhase == LastPhase(ings[..i])
    {
      IngredientLinesNext(ings, batchSize, i, rows);
      var ing := ings[i];
      if PhaseText(ing).None? {
        return Rendered(rows, false);
      }
      var current := Upper(PhaseText(ing).value);
      if current != "" && Some(current) != lastPhase {
        rows := rows + [PhaseHeader(current)];
        lastPhase := Some(current);
      }
      rows := rows + [IngredientRowOf(ing, batchSize)];
      i := i + 1;
    }
    assert ings[..i] == ings;
    return Rendered(rows, true);
  }

  /** One more ingredient after a prefix drawn in full: one whose phase
      cannot be upper-cased ends the table. */
  lemma IngredientLinesNext(ings: seq<Json>, batchSize: real, i: nat, rows: seq<IngredientLine>)
    requires i < |ings| && IngredientLines(ings[..i], batchSize) == Rendered(rows, true)
    ensures PhaseText(ings[i]).None? ==> IngredientLines(ings, batchSize) == Rendered(rows, false)
    ensures PhaseText(ings[i]).Some? ==>
      IngredientLines(ings[..i + 1], batchSize) == Rendered(rows + LinesFor(ings[i], LastPhase(ings[..i]), batchSize), true)
    ensures LastPhase(ings[..i + 1]) == if UpperPhase(ings[i]) != "" then Some(UpperPhase(ings[i])) else LastPhase(ings[..i])
  {
    PrefixStep(ings, i);
    if PhaseText(ings[i]).None? {
      IngredientLinesStop(ings, batchSize, i + 1);
    }
  }

  lemma {:induction false} IngredientLinesStop(ings: seq<Json>, batchSize: real, k: nat)
    requires k <= |ings| && !IngredientLines(ings[..k], batchSize).complete
    ensures IngredientLines(ings, batchSize) == IngredientLines(ings[..k], batchSize)
    decreases |ings| - k
  {
    if k < |ings| {
      PrefixStep(ings, k);
      IngredientLinesStop(ings, batchSize, k + 1);
    } else {
      assert ings[..k] == ings;
    }
  }

  /** The ingredient rows among the lines, in order. */
  function DataRows(lines: seq<IngredientLine>): seq<IngredientLine> {
    if |lines| == 0 then []
    else DataRows(lines[..|lines| - 1]) + (if lines[|lines| - 1].IngredientRow? then [lines[|lines| - 1]] else [])
  }

  /** The phase of the nearest header, None when no header has been emitted. */
  function HeaderAbove(lines: seq<IngredientLine>): Option<string> {
    if |lines| == 0 then None
    else if lines[|lines| - 1].PhaseHeader? then Some(lines[|lines| - 1].phase)
    else HeaderAbove(lines[..|lines| - 1])
  }

  lemma {:induction false} DataRowsAppend(a: seq<IngredientLine>, b: seq<IngredientLine>)
    ensures DataRows(a + b) == DataRows(a) + DataRows(b)
    decreases |b|
  {
    if |b| == 0 {
      assert a + b == a;
    } else {
      AppendInit(a, b);
      DataRowsAppend(a, b[..|b| - 1]);
    }
  }

  /** The formulation table is complete exactly when every phase can be
      upper-cased. */
  lemma {:induction false} IngredientLinesComplete(ings: seq<Json>, batchSize: real)
    ensures IngredientLines(ings, batchSize).complete <==> AllComparable(ings)
  {
    if |ings| > 0 {
      var init := ings[..|ings| - 1];
      IngredientLinesComplete(init, batchSize);
      AllComparableSnoc(ings);
      assert IngredientLines(ings, batchSize).complete <==>
        IngredientLines(init, batchSize).complete && PhaseText(ings[|ings| - 1]).Some?;
    }
  }

  /** The table has one row per rendered ingredient, in order, and stops just
      before the first ingredient that throws. */
  lemma {:induction false} IngredientRowsInOrder(ings: seq<Json>, batchSize: real)
    ensures var r := IngredientLines(ings, batchSize);
      && |DataRows(r.rows)| <= |ings|
      && (r.complete ==> |DataRows(r.rows)| == |ings|)
      && (!r.complete ==> |DataRows(r.rows)| < |ings| && PhaseText(ings[|DataRows(r.rows)|]).None?)
      && (forall i :: 0 <= i < |DataRows(r.rows)| ==> DataRows(r.rows)[i] == IngredientRowOf(ings[i], batchSize))
  {
    if |ings| > 0 {
      var init := ings[..|ings| - 1];
      var last := ings[|ings| - 1];
      IngredientRowsInOrder(init, batchSize);
      var prev := IngredientLines(init, batchSize);
      var dp := DataRows(prev.rows);
      var r := IngredientLines(ings, batchSize);
      if prev.complete && PhaseText(last).Some? {
        var lines := LinesFor(last, LastPhase(init), batchSize);
        assert r.rows == prev.rows + lines;
        DataRowsAppend(prev.rows, lines);
        DataRowsOfLines(last, LastPhase(init), batchSize);
        var d := DataRows(r.rows);
        assert d == dp + [IngredientRowOf(last, batchSize)];
        forall i | 0 <= i < |d| ensures d[i] == IngredientRowOf(ings[i], batchSize) {
          if i < |dp| {
            assert d[i] == dp[i] && init[i] == ings[i];
          }
        }
      } else {
        assert r == Rendered(prev.rows, false);
        assert |dp| < |ings| && ings[|dp|] == (if prev.complete then last else init[|dp|]);
        forall i | 0 <= i < |dp| ensures dp[i] == IngredientRowOf(ings[i], batchSize) {
          assert init[i] == ings[i];
        }
        assert DataRows(r.rows) == dp;
      }
    }
  }

  /** The nearest header at the end of a complete table is the last non-empty
      phase met. */
  lemma {:induction false} HeaderTracksLastPhase(ings: seq<Json>, batchSize: real)
    requires IngredientLines(ings, batchSize).complete
    ensures HeaderAbove(IngredientLines(ings, batchSize).rows) == LastPhase(ings)
  {
    if |ings| > 0 {
      var init := ings[..|ings| - 1];
      var last := ings[|ings| - 1];
      HeaderTracksLastPhase(init, batchSize);
      var prev := IngredientLines(init, batchSize).rows;
      LinesForLast(prev, last, LastPhase(init), batchSize);
      var h := HeaderFor(last, LastPhase(init));
      calc {
        HeaderAbove(IngredientLines(ings, batchSize).rows);
        HeaderAbove(prev + h);
        { if h != [] { assert (prev + h)[..|prev + h| - 1] == prev; } else { assert prev + h == prev; } }
        LastPhase(ings);
      }
    }
  }

  /** The lines of one ingredient hold its row once. */
  lemma DataRowsOfLines(ing: Json, lastPhase: Option<string>, batchSize: real)
    ensures DataRows(LinesFor(ing, lastPhase, batchSize)) == [IngredientRowOf(ing, batchSize)]
  {
    var lines := LinesFor(ing, lastPhase, batchSize);
    if |lines| == 2 {
      assert lines[..1][..0] == [];
      assert DataRows(lines[..1]) == [];
    } else {
      assert lines[..0] == [];
    }
  }

  /** A rendering of a prefix of the ingredients is a prefix of the rendering. */
  lemma {:induction false} IngredientLinesPrefix(ings: seq<Json>, batchSize: real, k: nat)
    requires k <= |ings|
    ensures var a := IngredientLines(ings[..k], batchSize).rows;
      var b := IngredientLines(ings, batchSize).rows;
      |a| <= |b| && b[..|a|] == a
    decreases |ings| - k
  {
    if k == |ings| {
      assert ings[..k] == ings;
    } else {
      IngredientLinesPrefix(ings, batchSize, k + 1);
      PrefixStep(ings, k);
      var a := IngredientLines(ings[..k], batchSize).rows;
      var m := IngredientLines(ings[..k + 1], batchSize).rows;
      assert |a| <= |m| && m[..|a|] == a;
    }
  }

  /** Every ingredient with a non-empty phase is grouped under the header of
      its upper-cased phase: in the rendering of the ingredients up to it, its
      row comes last and the nearest header above it carries its phase. */
  lemma Grouped(ings: seq<Json>, batchSize: real)
    requires |ings| > 0 && IngredientLines(ings, batchSize).complete
    requires UpperPhase(ings[|ings| - 1]) != ""
    ensures var rows := IngredientLines(ings, batchSize).rows;
      && |rows| > 0
      && rows[|rows| - 1] == IngredientRowOf(ings[|ings| - 1], batchSize)
      && HeaderAbove(rows[..|rows| - 1]) == Some(UpperPhase(ings[|ings| - 1]))
  {
    var init := ings[..|ings| - 1];
    var last := ings[|ings| - 1];
    var prev := IngredientLines(init, batchSize).rows;
    HeaderTracksLastPhase(init, batchSize);
    LinesForLast(prev, last, LastPhase(init), batchSize);
    var h := HeaderFor(last, LastPhase(init));
    if h != [] {
      assert (prev + h)[..|prev + h| - 1] == prev;
    } else {
      assert prev + h == prev;
    }
  }

  /** A header never repeats the group it follows: each header's phase differs
      from the nearest header above it. */
  lemma {:induction false} HeadersChangePhase(ings: seq<Json>, batchSize: real)
    ensures var rows := IngredientLines(ings, batchSize).rows;
      forall j :: 0 <= j < |rows| && rows[j].PhaseHeader? ==> HeaderAbove(rows[..j]) != Some(rows[j].phase)
  {
    if |ings| > 0 {
      var init := ings[..|ings| - 1];
      var last := ings[|ings| - 1];
      HeadersChangePhase(init, batchSize);
      var prev := IngredientLines(init, batchSize);
      if prev.complete && PhaseText(last).Some? {
        HeaderTracksLastPhase(init, batchSize);
        var rows := IngredientLines(ings, batchSize).rows;
        var lines := LinesFor(last, LastPhase(init), batchSize);
        assert rows == prev.rows + lines;
        forall j | 0 <= j < |rows| && rows[j].PhaseHeader? ensures HeaderAbove(rows[..j]) != Some(rows[j].phase) {
          if j < |prev.rows| {
            assert rows[..j] == prev.rows[..j];
          } else {
            assert j == |prev.rows| && rows[..j] == prev.rows;
          }
        }
      }
    }
  }

  // ---------------------------------------------------------------- totals

  /** The percentage total and its indicator class: "ok" (true) when the total
      is within 0.01 of 100, "bad" otherwise. */
  datatype Totals = Totals(sum: real, ok: bool)

  /** `ingredients.reduce((acc, ing) => acc + (parseFloat(ing.percent) || 0), 0)`
      when no ingredient is null. */
  function PercentSum(ings: seq<Json>): real {
    if |ings| == 0 then 0.0 else PercentSum(ings[..|ings| - 1]) + NumberOrZero(Prop(ings[|ings| - 1], "percent"))
  }

  function Abs(x: real): real {
    if x < 0.0 then -x else x
  }

  /** `parseFloat(meta.batchSize) || 0`. */
  function BatchSizeOf(meta: map<string, Json>): real {
    NumberOrZero(Prop(JObj(meta), "batchSize"))
  }

  /** `updateTotals`: None when the reduce throws on a null ingredient. */
  function TotalsOf(ings: seq<Json>): Option<Totals> {
    if JNull in ings then None
    else Some(Totals(PercentSum(ings), Abs(PercentSum(ings) - 100.0) < 0.01))
  }

  /** The reduce loop of `updateTotals`. */
  method UpdateTotals(ings: seq<Json>) returns (t: Option<Totals>)
    ensures t == TotalsOf(ings)
  {
    var sum := 0.0;
    var i := 0;
    while i < |ings|
      invariant 0 <= i <= |ings|
      invariant sum == PercentSum(ings[..i]) && JNull !in ings[..i]
    {
      PrefixStep(ings, i);
      if ings[i] == JNull {
        assert ings[i] in ings;
        return None;
      }
      sum := sum + NumberOrZero(Prop(ings[i], "percent"));
      i := i + 1;
    }
    assert ings[..i] == ings;
    return Some(Totals(sum, Abs(sum - 100.0) < 0.01));
  }

  lemma {:induction false} PercentSumAppend(a: seq<Json>, b: seq<Json>)
    ensures PercentSum(a + b) == PercentSum(a) + PercentSum(b)
    decreases |b|
  {
    if |b| == 0 {
      assert a + b == a;
    } else {
      AppendInit(a, b);
      PercentSumAppend(a, b[..|b| - 1]);
    }
  }

  /** The total does not depend on the order of the ingredients. */
  lemma {:induction false} PercentSumPermutation(a: seq<Json>, b: seq<Json>)
    requires multiset(a) == multiset(b)
    ensures PercentSum(a) == PercentSum(b)
    decreases |a|
  {
    if |a| == 0 {
      assert |b| == |multiset(b)| == 0;
    } else {
      var x := a[|a| - 1];
      var rest := a[..|a| - 1];
      assert x in multiset(b) by {
        assert x in a;
      }
      var j :| 0 <= j < |b| && b[j] == x;
      var others := b[..j] + b[j + 1..];
      RemoveOne(b, j);
      PercentSumRemove(b, j);
      assert multiset(rest) == multiset(a) - multiset{x} by {
        SplitLast(a);
      }
      PercentSumPermutation(rest, others);
    }
  }

  /** Taking entry `j` out of a sequence takes one copy of it out of its
      multiset. */
  lemma RemoveOne<T>(b: seq<T>, j: nat)
    requires j < |b|
    ensures multiset(b[..j] + b[j + 1..]) == multiset(b) - multiset{b[j]}
  {
    SplitAt(b, j);
  }

  lemma PercentSumRemove(b: seq<Json>, j: nat)
    requires j < |b|
    ensures PercentSum(b) == PercentSum(b[..j] + b[j + 1..]) + NumberOrZero(Prop(b[j], "percent"))
  {
    var left, right := b[..j], b[j + 1..];
    SplitAt(b, j);
    PercentSumAppend(left + [b[j]], right);
    PercentSumAppend(left, [b[j]]);
    PercentSumAppend(left, right);
    assert [b[j]][..0] == [];
  }

  /** The masses shown on the rows, added in order. */
  function MassSum(lines: seq<IngredientLine>): real {
    if |lines| == 0 then 0.0
    else MassSum(lines[..|lines| - 1]) + (if lines[|lines| - 1].IngredientRow? then lines[|lines| - 1].mass else 0.0)
  }

  lemma {:induction false} MassSumAppend(a: seq<IngredientLine>, b: seq<IngredientLine>)
    ensures MassSum(a + b) == MassSum(a) + MassSum(b)
    decreases |b|
  {
    if |b| == 0 {
      assert a + b == a;
    } else {
      AppendInit(a, b);
      MassSumAppend(a, b[..|b| - 1]);
    }
  }

  /** The lines of one ingredient carry its mass once. */
  lemma MassOfLines(ing: Json, lastPhase: Option<string>, batchSize: real)
    ensures MassSum(LinesFor(ing, lastPhase, batchSize)) == Mass(batchSize, ing)
  {
    var lines := LinesFor(ing, lastPhase, batchSize);
    if |lines| == 2 {
      assert lines[..1][..0] == [];
      assert MassSum(lines[..1]) == 0.0;
    } else {
      assert lines[..0] == [];
    }
  }

  /** The masses of the ingredients, added in order. */
  function MassTotal(ings: seq<Json>, batchSize: real): real {
    if |ings| == 0 then 0.0 else MassTotal(ings[..|ings| - 1], batchSize) + Mass(batchSize, ings[|ings| - 1])
  }

  /** `total` is `b * sum / 100`: the masses of ingredients whose
      percentages add up to `sum`, for a batch of `b`. */
  predicate Scales(total: real, b: real, sum: real) {
    total == b * sum / 100.0
  }

  lemma {:induction false} MassTotalScales(ings: seq<Json>, batchSize: real)
    ensures Scales(MassTotal(ings, batchSize), batchSize, PercentSum(ings))
  {
    if |ings| > 0 {
      var init, p := ings[..|ings| - 1], NumberOrZero(Prop(ings[|ings| - 1], "percent"));
      MassTotalScales(init, batchSize);
      ScaleStep(MassTotal(ings, batchSize), MassTotal(init, batchSize), PercentSum(ings), PercentSum(init), p, batchSize);
    } else {
      ScaleZero(batchSize);
    }
  }

  lemma ScaleZero(b: real)
    ensures Scales(0.0, b, 0.0)
  { }

  /** One step of the induction above, on the numbers alone. */
  lemma ScaleStep(total: real, m: real, sum: real, prevSum: real, p: real, b: real)
    requires total == m + b * p / 100.0 && sum == prevSum + p && Scales(m, b, prevSum)
    ensures Scales(total, b, sum)
  { }

  lemma {:induction false} MassSumIsTotal(ings: seq<Json>, batchSize: real)
    requires IngredientLines(ings, batchSize).complete
    ensures MassSum(IngredientLines(ings, batchSize).rows) == MassTotal(ings, batchSize)
  {
    if |ings| > 0 {
      var init := ings[..|ings| - 1];
      var last := ings[|ings| - 1];
      MassSumIsTotal(init, batchSize);
      var prev := IngredientLines(init, batchSize).rows;
      var lines := LinesFor(last, LastPhase(init), batchSize);
      assert IngredientLines(ings, batchSize).rows == prev + lines;
      MassSumAppend(prev, lines);
      MassOfLines(last, LastPhase(init), batchSize);
    }
  }

  /** The masses shown add up to the batch size times the percentage total
      over 100. */
  lemma MassesAddUp(ings: seq<Json>, batchSize: real)
    requires IngredientLines(ings, batchSize).complete
    ensures Scales(MassSum(IngredientLines(ings, batchSize).rows), batchSize, PercentSum(ings))
  {
    MassSumIsTotal(ings, batchSize);
    MassTotalScales(ings, batchSize);
  }

  // ---------------------------------------------------------------- quality control

  /** A check row: the block's id (`data-id`), the check's id
      (`data-check-id`), and the parameter and standard shown. */
  datatype CheckRow = CheckRow(blockId: Option<Json>, checkId: Option<Json>, parameter: Json, standard: Json)

  /** A rendered block: its id, its name and its check rows. */
  datatype QcBlockView = QcBlockView(id: Option<Json>, name: Json, checks: seq<CheckRow>)

  function CheckRowOf(block: Json, check: Json): CheckRow {
    CheckRow(Prop(block, "id"), Prop(check, "id"), Shown(check, "parameter"), Shown(check, "standard"))
  }

  /** `(qcBlock.checks || [])` as iterated: None when it is a truthy value that
      is not an array, which has no `forEach`. */
  function ChecksOf(block: Json): (r: Option<seq<Json>>)
    ensures r.None? <==> TruthyOpt(Prop(block, "checks")) && !Prop(block, "checks").value.JArr?
  {
    match Prop(block, "checks")
    case Some(JArr(xs)) => Some(xs)
    case p => if TruthyOpt(p) then None else Some([])
  }

  /** The blocks, each appended once all its check rows are built: rendering
      stops at a null block, a block whose checks cannot be iterated, or a
      block with a null check. */
  function QcBlocks(blocks: seq<Json>): Rendered<QcBlockView> {
    if |blocks| == 0 then Rendered([], true)
    else
      var prev := QcBlocks(blocks[..|blocks| - 1]);
      var b := blocks[|blocks| - 1];
      if !prev.complete || b == JNull || ChecksOf(b).None? || JNull in ChecksOf(b).value then Rendered(prev.rows, false)
      else Rendered(prev.rows + [QcBlockView(Prop(b, "id"), Shown(b, "name"), CheckRowsOf(b, ChecksOf(b).value))], true)
  }

  function CheckRowsOf(block: Json, checks: seq<Json>): (r: seq<CheckRow>)
    ensures |r| == |checks| && forall i :: 0 <= i < |checks| ==> r[i] == CheckRowOf(block, checks[i])
  {
    seq(|checks|, i requires 0 <= i < |checks| => CheckRowOf(block, checks[i]))
  }

  /** A block is rendered in full. */
  predicate BlockRenders(b: Json) {
    b != JNull && ChecksOf(b).Some? && JNull !in ChecksOf(b).value
  }

  /** The outer `forEach` of `renderQc` with the inner one over the checks. */
  method RenderQcBlocks(blocks: seq<Json>) returns (r: Rendered<QcBlockView>)
    ensures r == QcBlocks(blocks)
  {
    var views: seq<QcBlockView> := [];
    var i := 0;
    while i < |blocks|
      invariant 0 <= i <= |blocks|
      invariant QcBlocks(blocks[..i]) == Rendered(views, true)
    {
      PrefixStep(blocks, i);
      var b := blocks[i];
      if b == JNull {
        QcBlocksStop(blocks, i + 1);
        return Rendered(views, false);
      }
      var checks := ChecksOf(b);
      if checks.None? {
        QcBlocksStop(blocks, i + 1);
        return Rendered(views, false);
      }
      var rows := RenderCheckRows(b, checks.value);
      if rows.None? {
        QcBlocksStop(blocks, i + 1);
        return Rendered(views, false);
      }
      views := views + [QcBlockView(Prop(b, "id"), Shown(b, "name"), rows.value)];
      i := i + 1;
    }
    assert blocks[..i] == blocks;
    return Rendered(views, true);
  }

  /** The inner `forEach` over a block's checks: None when a check is null. */
  method RenderCheckRows(block: Json, checks: seq<Json>) returns (rows: Option<seq<CheckRow>>)
    ensures rows == (if JNull in checks then None else Some(CheckRowsOf(block, checks)))
  {
    var acc: seq<CheckRow> := [];
    var j := 0;
    while j < |checks|
      invariant 0 <= j <= |checks|
      invariant acc == CheckRowsOf(block, checks[..j]) && JNull !in checks[..j]
    {
      if checks[j] == JNull {
        assert JNull in checks;
        return None;
      }
      PrefixStep(checks, j);
      acc := acc + [CheckRowOf(block, checks[j])];
      j := j + 1;
    }
    assert checks[..j] == checks;
    return Some(acc);
  }

  lemma {:induction false} QcBlocksStop(blocks: seq<Json>, k: nat)
    requires k <= |blocks| && !QcBlocks(blocks[..k]).complete
    ensures QcBlocks(blocks) == QcBlocks(blocks[..k])
    decreases |blocks| - k
  {
    if k < |blocks| {
      PrefixStep(blocks, k);
      QcBlocksStop(blocks, k + 1);
    } else {
      assert blocks[..k] == blocks;
    }
  }

  /** What the QC section shows: it is complete exactly when every block
      renders; the blocks appear in order, each with one row per check, in
      order, carrying the block's id and the check's id that the check
      handlers look up. */
  lemma {:induction false} QcBlocksSpec(blocks: seq<Json>)
    ensures var r := QcBlocks(blocks);
      && (r.complete <==> forall i :: 0 <= i < |blocks| ==> BlockRenders(blocks[i]))
      && |r.rows| <= |blocks| && (r.complete ==> |r.rows| == |blocks|)
      && (!r.complete ==> |r.rows| < |blocks| && !BlockRenders(blocks[|r.rows|]))
      && forall i :: 0 <= i < |r.rows| ==>
           && BlockRenders(blocks[i])
           && r.rows[i].id == Prop(blocks[i], "id")
           && |r.rows[i].checks| == |ChecksOf(blocks[i]).value|
           && forall j :: 0 <= j < |r.rows[i].checks| ==>
                r.rows[i].checks[j].blockId == Prop(blocks[i], "id") &&
                r.rows[i].checks[j].checkId == Prop(ChecksOf(blocks[i]).value[j], "id")
  {
    if |blocks| > 0 {
      var init := blocks[..|blocks| - 1];
      QcBlocksSpec(init);
      forall i | 0 <= i < |init| ensures init[i] == blocks[i] { }
    }
  }
}
