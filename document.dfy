/** The canonical technical-specification document (js/state.js, with copies in
    js/store.js and app.js): its defaults, the normaliser that turns any parsed
    JSON value into a document, the legacy `name` -> `tradeName` migration, and
    the draft kept in the browser's local storage. */
module Document {
  import opened JsonValues
  import opened Numbers

  /** The local-storage key of the saved draft. */
  const StorageKey: string := "routing_map_draft_v4.3"

  /** A normalised document: the meta record and the six ordered collections.
      Entities stay raw JSON values, as the normaliser keeps them. */
  datatype Doc = Doc(
    meta: map<string, Json>,
    ingredients: seq<Json>,
    performanceData: seq<Json>,
    stabilityData: seq<Json>,
    equipment: seq<Json>,
    processSteps: seq<Json>,
    qualityControl: seq<Json>)

  /** js/state.js's defaults carry a `regulations` key; those of js/store.js and
      app.js do not. */
  datatype Edition = WithRegulations | WithoutRegulations

  /** The default meta record; `today` is the ISO date of the clock. */
  function DefaultMeta(today: string, ed: Edition): map<string, Json> {
    var base := map[
      "productName" := JStr(""), "productCode" := JStr(""), "docVersion" := JStr("1.0"),
      "docDate" := JStr(today), "author" := JStr(""), "batchSize" := JNum(100.0),
      "description" := JStr("")];
    if ed == WithRegulations then base["regulations" := JStr("")] else base
  }

  /** `getInitialState()`. */
  function InitialState(today: string, ed: Edition): Doc {
    Doc(DefaultMeta(today, ed), [], [], [], [], [], [])
  }

  /** The keys of every default meta record. */
  const BaseKeys: set<string> := {"productName", "productCode", "docVersion", "docDate", "author", "batchSize", "description"}

  /** The initial document has six empty collections and the default meta:
      with `regulations` in js/state.js, without it in the other copies. */
  lemma InitialStateDefaults(today: string, ed: Edition)
    ensures forall c :: Items(InitialState(today, ed), c) == []
    ensures var m := InitialState(today, ed).meta;
      && m.Keys == (if ed == WithRegulations then BaseKeys + {"regulations"} else BaseKeys)
      && m["docVersion"] == JStr("1.0") && m["batchSize"] == JNum(100.0)
      && m["docDate"] == JStr(today) && m["productCode"] == JStr("")
      && (ed == WithRegulations ==> m["regulations"] == JStr(""))
  {
  }

  /** The six collections of a document. */
  datatype Collection = Ingredients | PerformanceData | StabilityData | Equipment | ProcessSteps | QualityControl

  /** The document field that holds a collection. */
  function Key(c: Collection): string {
    match c
    case Ingredients => "ingredients"
    case PerformanceData => "performanceData"
    case StabilityData => "stabilityData"
    case Equipment => "equipment"
    case ProcessSteps => "processSteps"
    case QualityControl => "qualityControl"
  }

  /** The collection a field name designates, if it designates one. Collection
      names are distinct, so this inverts `Key`. */
  function CollectionNamed(name: string): (r: Option<Collection>)
    ensures r.Some? ==> Key(r.value) == name
    ensures forall c :: Key(c) == name ==> r == Some(c)
  {
    if name == "ingredients" then Some(Ingredients)
    else if name == "performanceData" then Some(PerformanceData)
    else if name == "stabilityData" then Some(StabilityData)
    else if name == "equipment" then Some(Equipment)
    else if name == "processSteps" then Some(ProcessSteps)
    else if name == "qualityControl" then Some(QualityControl)
    else None
  }

  function Items(d: Doc, c: Collection): seq<Json> {
    match c
    case Ingredients => d.ingredients
    case PerformanceData => d.performanceData
    case StabilityData => d.stabilityData
    case Equipment => d.equipment
    case ProcessSteps => d.processSteps
    case QualityControl => d.qualityControl
  }

  /** The document with one collection replaced: the meta record and the other
      five collections are unchanged. */
  function WithItems(d: Doc, c: Collection, items: seq<Json>): (r: Doc)
    ensures Items(r, c) == items && r.meta == d.meta
    ensures forall c' :: c' != c ==> Items(r, c') == Items(d, c')
  {
    match c
    case Ingredients => d.(ingredients := items)
    case PerformanceData => d.(performanceData := items)
    case StabilityData => d.(stabilityData := items)
    case Equipment => d.(equipment := items)
    case ProcessSteps => d.(processSteps := items)
    case QualityControl => d.(qualityControl := items)
  }

  /** `data.meta || {}` as spread into the defaults: the own enumerable
      properties of the value. An object gives its fields, a string one index
      key per character, an array one index key per element; every other value
      gives none. */
  function MetaOverlay(data: Json): map<string, Json> {
    match Prop(data, "meta")
    case Some(JObj(m)) => m
    case Some(JStr(s)) => Indexed(Characters(s))
    case Some(JArr(xs)) => Indexed(xs)
    case _ => map[]
  }

  /** The characters of a string, each as a one-character string. */
  function Characters(s: string): (cs: seq<Json>)
    ensures |cs| == |s| && forall i :: 0 <= i < |s| ==> cs[i] == JStr([s[i]])
  {
    seq(|s|, i requires 0 <= i < |s| => JStr([s[i]]))
  }

  /** The index keys of an array-like value: "0", "1", ... each holding the
      element at that index, and no other key. */
  function Indexed(xs: seq<Json>): (m: map<string, Json>)
    ensures forall i :: 0 <= i < |xs| ==> NatString(i) in m && m[NatString(i)] == xs[i]
    ensures forall k :: k in m ==> IndexKey(k, |xs|)
  {
    if |xs| == 0 then map[]
    else
      var n := |xs| - 1;
      var m := Indexed(xs[..n]);
      IndexedExtend(xs, m);
      m[NatString(n) := xs[n]]
  }

  /** Adding the key of the last index to the index keys of all but the last
      element gives the index keys of the whole sequence. */
  lemma IndexedExtend(xs: seq<Json>, m: map<string, Json>)
    requires |xs| > 0
    requires forall i :: 0 <= i < |xs| - 1 ==> NatString(i) in m && m[NatString(i)] == xs[..|xs| - 1][i]
    requires forall k :: k in m ==> IndexKey(k, |xs| - 1)
    ensures var m' := m[NatString(|xs| - 1) := xs[|xs| - 1]];
      && (forall i :: 0 <= i < |xs| ==> NatString(i) in m' && m'[NatString(i)] == xs[i])
      && (forall k :: k in m' ==> IndexKey(k, |xs|))
  {
    IndexedValues(xs, m);
    IndexedKeys(|xs| - 1, m, xs[|xs| - 1]);
  }

  /** Each index of `xs` holds its element once the last one is added. */
  lemma IndexedValues(xs: seq<Json>, m: map<string, Json>)
    requires |xs| > 0
    requires forall i :: 0 <= i < |xs| - 1 ==> NatString(i) in m && m[NatString(i)] == xs[..|xs| - 1][i]
    ensures var m' := m[NatString(|xs| - 1) := xs[|xs| - 1]];
      forall i :: 0 <= i < |xs| ==> NatString(i) in m' && m'[NatString(i)] == xs[i]
  {
    var n := |xs| - 1;
    var m' := m[NatString(n) := xs[n]];
    forall i | 0 <= i < n + 1
      ensures NatString(i) in m' && m'[NatString(i)] == xs[i]
    {
      if i < n {
        NatStringInjective(i, n);
        assert xs[..n][i] == xs[i];
      }
    }
  }

  /** Every key stays an index key once the key of index `n` is added. */
  lemma IndexedKeys(n: nat, m: map<string, Json>, x: Json)
    requires forall k :: k in m ==> IndexKey(k, n)
    ensures var m' := m[NatString(n) := x]; forall k :: k in m' ==> IndexKey(k, n + 1)
  {
    var m' := m[NatString(n) := x];
    forall k | k in m'
      ensures IndexKey(k, n + 1)
    {
      if k == NatString(n) {
        LastIndexKey(n);
      } else {
        IndexKeyGrows(k, n);
      }
    }
  }

  /** The key of index `n` is an index key below `n + 1`. */
  lemma LastIndexKey(n: nat)
    ensures IndexKey(NatString(n), n + 1)
  {
  }

  /** An index key below `n` is one below `n + 1`. */
  lemma IndexKeyGrows(k: string, n: nat)
    requires IndexKey(k, n)
    ensures IndexKey(k, n + 1)
  {
  }

  /** `k` is the decimal string of an index below `n`. */
  predicate IndexKey(k: string, n: nat) {
    AllDigits(k) && DigitsValue(k) < n && k == NatString(DigitsValue(k))
  }

  /** The decimal string of `n` is not that of any smaller index. */
  lemma IndexKeysDiffer(n: nat)
    ensures forall i :: 0 <= i < n ==> NatString(i) != NatString(n)
  {
    forall i | 0 <= i < n ensures NatString(i) != NatString(n) {
      NatStringInjective(i, n);
    }
  }

  /** What the spread of `data.meta` contributes, case by case: an object
      its own fields; a string of length n the keys "0" .. "n-1", each
      holding the one-character string at that position; an array of length
      n the same keys, each holding its element; anything else nothing. */
  lemma MetaOverlaySpec(data: Json)
    ensures Prop(data, "meta").Some? && Prop(data, "meta").value.JObj? ==> MetaOverlay(data) == Prop(data, "meta").value.fields
    ensures Prop(data, "meta").Some? && Prop(data, "meta").value.JStr? ==>
      var s := Prop(data, "meta").value.s;
      && (forall k :: k in MetaOverlay(data) ==> IndexKey(k, |s|))
      && forall i :: 0 <= i < |s| ==> NatString(i) in MetaOverlay(data) && MetaOverlay(data)[NatString(i)] == JStr([s[i]])
    ensures Prop(data, "meta").Some? && Prop(data, "meta").value.JArr? ==>
      var xs := Prop(data, "meta").value.items;
      && (forall k :: k in MetaOverlay(data) ==> IndexKey(k, |xs|))
      && forall i :: 0 <= i < |xs| ==> NatString(i) in MetaOverlay(data) && MetaOverlay(data)[NatString(i)] == xs[i]
    ensures (|| Prop(data, "meta").None? || Prop(data, "meta").value.JNull? || Prop(data, "meta").value.JBool?
             || Prop(data, "meta").value.JNum?) ==> MetaOverlay(data) == map[]
  {
  }

  /** `Array.isArray(data[key]) ? data[key] : []`. */
  function ArrayOr(data: Json, key: string): seq<Json> {
    match Prop(data, key)
    case Some(JArr(xs)) => xs
    case _ => []
  }

  /** An ingredient the migration rewrites: truthy `name`, falsy `tradeName`. */
  predicate Migratable(ing: Json) {
    ing.JObj? && TruthyOpt(Prop(ing, "name")) && !TruthyOpt(Prop(ing, "tradeName"))
  }

  /** The migration of one ingredient: `ing.tradeName = ing.name; delete ing.name`
      when it applies, otherwise the ingredient as it is. */
  function Migrate(ing: Json): Json {
    if Migratable(ing) then JObj(ing.fields["tradeName" := ing.fields["name"]] - {"name"}) else ing
  }

  /** What the migration promises for one ingredient. */
  lemma MigrateSpec(ing: Json)
    ensures Migratable(ing) ==>
      && Prop(Migrate(ing), "tradeName") == Prop(ing, "name")
      && Prop(Migrate(ing), "name") == None
      && (forall k :: k != "name" && k != "tradeName" ==> Prop(Migrate(ing), k) == Prop(ing, k))
    ensures !Migratable(ing) ==> Migrate(ing) == ing
    ensures TruthyOpt(Prop(ing, "tradeName")) ==> Prop(Migrate(ing), "name") == Prop(ing, "name")
    ensures !Migratable(Migrate(ing))
  {
  }

  /** The migration `forEach` over the ingredient list: None when it reaches a
      null ingredient, whose `name` read throws. */
  function Migrated(ings: seq<Json>): (r: Option<seq<Json>>)
    ensures r.Some? <==> forall i :: 0 <= i < |ings| ==> Readable(ings[i])
    ensures r.Some? ==> |r.value| == |ings| && forall i :: 0 <= i < |ings| ==> r.value[i] == Migrate(ings[i])
  {
    if |ings| == 0 then Some([])
    else
      var last := ings[|ings| - 1];
      match Migrated(ings[..|ings| - 1])
      case None => None
      case Some(p) => if Readable(last) then Some(p + [Migrate(last)]) else None
  }

  /** The migration loop, rewriting the ingredients one by one in place. */
  method MigrateIngredients(ings: seq<Json>) returns (r: Option<seq<Json>>)
    ensures r == Migrated(ings)
  {
    var out := ings;
    var i := 0;
    while i < |ings|
      invariant 0 <= i <= |ings| && |out| == |ings|
      invariant forall j :: 0 <= j < i ==> Readable(ings[j]) && out[j] == Migrate(ings[j])
      invariant forall j :: i <= j < |ings| ==> out[j] == ings[j]
    {
      if !Readable(out[i]) {
        return None;
      }
      out := out[i := Migrate(out[i])];
      i := i + 1;
    }
    assert Migrated(ings).Some?;
    assert out == Migrated(ings).value;
    return Some(out);
  }

  /** `normalizeState(data)`: None when it throws, which happens when `data` is
      null (`data.meta` is read) or an ingredient is null. */
  function Normalize(data: Json, today: string, ed: Edition): Option<Doc> {
    if data == JNull then None
    else match Migrated(ArrayOr(data, "ingredients"))
      case None => None
      case Some(ings) =>
        Some(Doc(DefaultMeta(today, ed) + MetaOverlay(data), ings,
                 ArrayOr(data, "performanceData"), ArrayOr(data, "stabilityData"),
                 ArrayOr(data, "equipment"), ArrayOr(data, "processSteps"),
                 ArrayOr(data, "qualityControl")))
  }

  /** `normalizeState` as the source runs it: build the record, then migrate
      the ingredient list. */
  method NormalizeState(data: Json, today: string, ed: Edition) returns (r: Option<Doc>)
    ensures r == Normalize(data, today, ed)
  {
    if data == JNull {
      return None;
    }
    var meta := DefaultMeta(today, ed) + MetaOverlay(data);
    var ings := MigrateIngredients(ArrayOr(data, "ingredients"));
    if ings.None? {
      return None;
    }
    r := Some(Doc(meta, ings.value, ArrayOr(data, "performanceData"), ArrayOr(data, "stabilityData"),
                  ArrayOr(data, "equipment"), ArrayOr(data, "processSteps"), ArrayOr(data, "qualityControl")));
  }

  /** When the normaliser throws, and what it keeps: every array-valued
      collection exactly as given, every other value replaced by []; the meta
      record is the defaults overlaid with the input's meta keys, which override
      and survive; no other top-level field exists in the result. */
  lemma NormalizeSpec(data: Json, today: string, ed: Edition)
    ensures Normalize(data, today, ed).None? <==>
      data == JNull || exists i :: 0 <= i < |ArrayOr(data, "ingredients")| && ArrayOr(data, "ingredients")[i] == JNull
    ensures Normalize(data, today, ed).Some? ==>
      var d := Normalize(data, today, ed).value;
      && (forall c :: c != Ingredients ==> Items(d, c) == ArrayOr(data, Key(c)))
      && |d.ingredients| == |ArrayOr(data, "ingredients")|
      && (forall i :: 0 <= i < |d.ingredients| ==> d.ingredients[i] == Migrate(ArrayOr(data, "ingredients")[i]))
      && d.meta.Keys == DefaultMeta(today, ed).Keys + MetaOverlay(data).Keys
      && (forall k :: k in MetaOverlay(data) ==> d.meta[k] == MetaOverlay(data)[k])
      && (forall k :: k in DefaultMeta(today, ed) && k !in MetaOverlay(data) ==> d.meta[k] == DefaultMeta(today, ed)[k])
  {
    var xs := ArrayOr(data, "ingredients");
    if data != JNull && Migrated(xs).None? {
      var i :| 0 <= i < |xs| && !Readable(xs[i]);
      assert xs[i] == JNull;
    }
  }

  /** The document as the JSON object `JSON.stringify` serialises. */
  function ToJson(d: Doc): Json {
    JObj(map[
      "meta" := JObj(d.meta), "ingredients" := JArr(d.ingredients),
      "performanceData" := JArr(d.performanceData), "stabilityData" := JArr(d.stabilityData),
      "equipment" := JArr(d.equipment), "processSteps" := JArr(d.processSteps),
      "qualityControl" := JArr(d.qualityControl)])
  }

  /** A document the normaliser leaves as it is: every default meta key is
      present and every ingredient is non-null and already migrated. */
  predicate IsNormal(d: Doc, ed: Edition) {
    && (forall k :: k in DefaultMeta("", ed) ==> k in d.meta)
    && (forall i :: 0 <= i < |d.ingredients| ==> Readable(d.ingredients[i]) && !Migratable(d.ingredients[i]))
  }

  lemma DefaultKeysIgnoreDate(today: string, ed: Edition)
    ensures DefaultMeta(today, ed).Keys == DefaultMeta("", ed).Keys
  {
  }

  /** Normalising a document's own JSON gives the document back exactly when
      the document is normal. */
  lemma {:induction false} NormalFixpoint(d: Doc, today: string, ed: Edition)
    ensures Normalize(ToJson(d), today, ed) == Some(d) <==> IsNormal(d, ed)
  {
    if IsNormal(d, ed) {
      NormalizeOwnJson(d, today, ed);
    } else if Normalize(ToJson(d), today, ed) == Some(d) {
      NormalizeIsNormal(ToJson(d), today, ed);
    }
  }

  /** The document's JSON reads back as the document's meta and lists. */
  lemma ToJsonReadsBack(d: Doc)
    ensures ToJson(d) != JNull && MetaOverlay(ToJson(d)) == d.meta
    ensures ArrayOr(ToJson(d), "ingredients") == d.ingredients
    ensures ArrayOr(ToJson(d), "performanceData") == d.performanceData
    ensures ArrayOr(ToJson(d), "stabilityData") == d.stabilityData
    ensures ArrayOr(ToJson(d), "equipment") == d.equipment
    ensures ArrayOr(ToJson(d), "processSteps") == d.processSteps
    ensures ArrayOr(ToJson(d), "qualityControl") == d.qualityControl
  {
    var j := ToJson(d);
    assert Prop(j, "meta") == Some(JObj(d.meta));
    assert Prop(j, "ingredients") == Some(JArr(d.ingredients));
    assert Prop(j, "performanceData") == Some(JArr(d.performanceData));
    assert Prop(j, "stabilityData") == Some(JArr(d.stabilityData));
    assert Prop(j, "equipment") == Some(JArr(d.equipment));
    assert Prop(j, "processSteps") == Some(JArr(d.processSteps));
    assert Prop(j, "qualityControl") == Some(JArr(d.qualityControl));
  }

  lemma NormalizeOwnJson(d: Doc, today: string, ed: Edition)
    requires IsNormal(d, ed)
    ensures Normalize(ToJson(d), today, ed) == Some(d)
  {
    ToJsonReadsBack(d);
    DefaultKeysIgnoreDate(today, ed);
    assert (DefaultMeta(today, ed) + d.meta).Keys == d.meta.Keys;
    assert DefaultMeta(today, ed) + d.meta == d.meta;
    var m := Migrated(d.ingredients);
    assert m.Some?;
    assert m.value == d.ingredients;
  }

  /** Whatever the normaliser returns is normal. */
  lemma NormalizeIsNormal(data: Json, today: string, ed: Edition)
    requires Normalize(data, today, ed).Some?
    ensures IsNormal(Normalize(data, today, ed).value, ed)
  {
    var d := Normalize(data, today, ed).value;
    DefaultKeysIgnoreDate(today, ed);
    forall i | 0 <= i < |d.ingredients| ensures Readable(d.ingredients[i]) && !Migratable(d.ingredients[i]) {
      MigrateSpec(ArrayOr(data, "ingredients")[i]);
    }
  }

  /** The normaliser is idempotent: normalising a normalised document again,
      even on another day, changes nothing. */
  lemma NormalizeIdempotent(data: Json, today: string, later: string, ed: Edition)
    requires Normalize(data, today, ed).Some?
    ensures Normalize(ToJson(Normalize(data, today, ed).value), later, ed) == Normalize(data, today, ed)
  {
    NormalizeIsNormal(data, today, ed);
    NormalFixpoint(Normalize(data, today, ed).value, later, ed);
  }

  /** `JSON.parse` reads back what `JSON.stringify` (or the pretty-printing
      `JSON.stringify(state, null, 2)`) writes for this value, and the text is
      not empty. */
  predicate RoundTrips(parse: string -> Option<Json>, stringify: Json -> string, j: Json) {
    stringify(j) != "" && parse(stringify(j)) == Some(j)
  }

  /** `normalizeState(JSON.parse(text))`: None when the text does not parse or
      the normaliser throws. */
  function Imported(parse: string -> Option<Json>, text: string, today: string, ed: Edition): Option<Doc> {
    match parse(text)
    case None => None
    case Some(j) => Normalize(j, today, ed)
  }

  /** `loadFromLocalStorage()`: None (null) when the key is absent or empty,
      when the text does not parse, or when normalising throws. */
  function LoadDraft(storage: map<string, string>, parse: string -> Option<Json>, today: string, ed: Edition): Option<Doc> {
    if StorageKey !in storage || storage[StorageKey] == "" then None
    else Imported(parse, storage[StorageKey], today, ed)
  }

  /** `saveToLocalStorage(state)`. */
  function SaveDraft(storage: map<string, string>, stringify: Json -> string, d: Doc): map<string, string> {
    storage[StorageKey := stringify(ToJson(d))]
  }

  /** A saved normal document loads back as itself; any saved document loads
      back as its normalisation. */
  lemma SaveLoadRoundTrip(storage: map<string, string>, parse: string -> Option<Json>, stringify: Json -> string,
                          d: Doc, today: string, ed: Edition)
    requires RoundTrips(parse, stringify, ToJson(d))
    ensures LoadDraft(SaveDraft(storage, stringify, d), parse, today, ed) == Normalize(ToJson(d), today, ed)
    ensures IsNormal(d, ed) ==> LoadDraft(SaveDraft(storage, stringify, d), parse, today, ed) == Some(d)
  {
    NormalFixpoint(d, today, ed);
  }

  /** Importing the exported text of a normal document gives the document
      back, on any day; a document that is not normal comes back as its
      normalisation, which differs from it. */
  lemma ExportImportRoundTrip(parse: string -> Option<Json>, pretty: Json -> string, d: Doc, today: string, ed: Edition)
    requires parse(pretty(ToJson(d))) == Some(ToJson(d))
    ensures Imported(parse, pretty(ToJson(d)), today, ed) == Some(d) <==> IsNormal(d, ed)
  {
    NormalFixpoint(d, today, ed);
  }

  /** The initial document is normal, so it survives a save and a load, even
      one on a later day. */
  lemma InitialIsNormal(today: string, later: string, ed: Edition)
    ensures IsNormal(InitialState(today, ed), ed)
    ensures Normalize(ToJson(InitialState(today, ed)), later, ed) == Some(InitialState(today, ed))
  {
    DefaultKeysIgnoreDate(today, ed);
    NormalFixpoint(InitialState(today, ed), later, ed);
  }
}
