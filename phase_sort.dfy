/** Ordering ingredients by phase: `ings.sort((a, b) => (a.phase || '').localeCompare(b.phase || ''))`.
    `localeCompare` is an abstract comparison `leq` on strings, assumed to be a
    total preorder; the engine's sort is stable, which an insertion sort models. */
module PhaseSort {
  import opened JsonValues
  import opened Text

  /** `(ing.phase || '')` as a string receiver: the phase text, "" when the phase
      is falsy, and None when reading it throws (a null ingredient) or the value
      has no string methods (a truthy phase that is not a string). */
  function PhaseText(ing: Json): (r: Option<string>)
    ensures r.Some? <==> Readable(ing) && (TruthyOpt(Prop(ing, "phase")) ==> Prop(ing, "phase").value.JStr?)
    ensures r == Some("") <==> Readable(ing) && (!TruthyOpt(Prop(ing, "phase")) || Prop(ing, "phase") == Some(JStr("")))
  {
    if !Readable(ing) then None
    else match Prop(ing, "phase")
      case Some(JStr(s)) => Some(s)
      case p => if TruthyOpt(p) then None else Some("")
  }

  /** The sort key; "" for an ingredient on which the comparator throws (such an
      ingredient never reaches a completed sort of two or more elements). */
  function Key(ing: Json): string {
    match PhaseText(ing)
    case Some(s) => s
    case None => ""
  }

  /** Every ingredient's phase can be compared. */
  predicate AllComparable(ings: seq<Json>) {
    forall i :: 0 <= i < |ings| ==> PhaseText(ings[i]).Some?
  }

  lemma AllComparableSnoc(ings: seq<Json>)
    requires |ings| > 0
    ensures AllComparable(ings) <==> AllComparable(ings[..|ings| - 1]) && PhaseText(ings[|ings| - 1]).Some?
  {
    var init := ings[..|ings| - 1];
    assert forall i :: 0 <= i < |init| ==> init[i] == ings[i];
  }

  /** `localeCompare(a, b) <= 0` read as a relation: total and transitive. */
  ghost predicate TotalPreorder(leq: (string, string) -> bool) {
    && (forall a, b :: leq(a, b) || leq(b, a))
    && (forall a, b, c :: leq(a, b) && leq(b, c) ==> leq(a, c))
  }

  /** Ordered by phase: no ingredient's phase compares after a later one's. */
  predicate Sorted(s: seq<Json>, leq: (string, string) -> bool) {
    forall i, j :: 0 <= i < j < |s| ==> leq(Key(s[i]), Key(s[j]))
  }

  /** Same phase under the comparison: each compares at or before the other. */
  predicate SamePhase(a: string, b: string, leq: (string, string) -> bool) {
    leq(a, b) && leq(b, a)
  }

  /** The ingredients whose phase compares equal to `k`, in their order in `s`. */
  function Group(s: seq<Json>, k: string, leq: (string, string) -> bool): seq<Json> {
    if |s| == 0 then []
    else Group(s[..|s| - 1], k, leq) + (if SamePhase(Key(s[|s| - 1]), k, leq) then [s[|s| - 1]] else [])
  }

  lemma {:induction false} GroupAppend(a: seq<Json>, b: seq<Json>, k: string, leq: (string, string) -> bool)
    ensures Group(a + b, k, leq) == Group(a, k, leq) + Group(b, k, leq)
    decreases |b|
  {
    if |b| > 0 {
      AppendInit(a, b);
      GroupAppend(a, b[..|b| - 1], k, leq);
    } else {
      assert a + b == a;
    }
  }

  /** Inserts `x` after every element whose phase does not compare after its own. */
  function Insert(x: Json, s: seq<Json>, leq: (string, string) -> bool): (r: seq<Json>)
    ensures |r| == |s| + 1
  {
    if |s| == 0 || leq(Key(s[|s| - 1]), Key(x)) then s + [x]
    else Insert(x, s[..|s| - 1], leq) + [s[|s| - 1]]
  }

  /** The stable sort: each ingredient in turn is inserted into the sorted prefix. */
  function InsertionSort(s: seq<Json>, leq: (string, string) -> bool): (r: seq<Json>)
    ensures |r| == |s|
  {
    if |s| == 0 then [] else Insert(s[|s| - 1], InsertionSort(s[..|s| - 1], leq), leq)
  }

  lemma {:induction false} InsertPermutes(x: Json, s: seq<Json>, leq: (string, string) -> bool)
    ensures multiset(Insert(x, s, leq)) == multiset(s) + multiset{x}
  {
    if |s| > 0 && !leq(Key(s[|s| - 1]), Key(x)) {
      var init, last := s[..|s| - 1], s[|s| - 1];
      calc {
        multiset(Insert(x, s, leq));
        multiset(Insert(x, init, leq) + [last]);
        multiset(Insert(x, init, leq)) + multiset{last};
        { InsertPermutes(x, init, leq); }
        multiset(init) + multiset{x} + multiset{last};
        multiset(init + [last]) + multiset{x};
        { SplitLast(s); }
        multiset(s) + multiset{x};
      }
    }
  }

  lemma {:induction false} InsertSorted(x: Json, s: seq<Json>, leq: (string, string) -> bool)
    requires TotalPreorder(leq) && Sorted(s, leq)
    ensures Sorted(Insert(x, s, leq), leq)
  {
    if |s| > 0 && !leq(Key(s[|s| - 1]), Key(x)) {
      var init, last := s[..|s| - 1], s[|s| - 1];
      InsertSorted(x, init, leq);
      InsertBelow(x, init, Key(last), leq);
      SortedSnoc(Insert(x, init, leq), last, leq);
    }
  }

  /** Inserting into elements that compare at or before `k` an element that
      does too keeps them all at or before `k`. */
  lemma InsertBelow(x: Json, s: seq<Json>, k: string, leq: (string, string) -> bool)
    requires leq(Key(x), k) && forall i :: 0 <= i < |s| ==> leq(Key(s[i]), k)
    ensures forall i :: 0 <= i < |Insert(x, s, leq)| ==> leq(Key(Insert(x, s, leq)[i]), k)
  {
    var r := Insert(x, s, leq);
    InsertPermutes(x, s, leq);
    forall i | 0 <= i < |r| ensures leq(Key(r[i]), k) {
      assert r[i] in multiset(s) + multiset{x};
      if r[i] != x {
        var j :| 0 <= j < |s| && s[j] == r[i];
      }
    }
  }

  lemma SortedSnoc(r: seq<Json>, last: Json, leq: (string, string) -> bool)
    requires Sorted(r, leq) && forall i :: 0 <= i < |r| ==> leq(Key(r[i]), Key(last))
    ensures Sorted(r + [last], leq)
  {
  }

  lemma SameGroupOrdered(a: string, b: string, k: string, leq: (string, string) -> bool)
    requires TotalPreorder(leq) && SamePhase(a, k, leq) && SamePhase(b, k, leq)
    ensures leq(a, b)
  {
  }

  lemma GroupOfOne(x: Json, k: string, leq: (string, string) -> bool)
    ensures Group([x], k, leq) == (if SamePhase(Key(x), k, leq) then [x] else [])
  {
    assert [x][..0] == [];
  }

  /** An element inserted before `last` never shares its group with `last`:
      `last` compares strictly after it. */
  lemma ApartGroups(x: Json, last: Json, k: string, leq: (string, string) -> bool)
    requires TotalPreorder(leq) && !leq(Key(last), Key(x))
    ensures Group([x], k, leq) == [] || Group([last], k, leq) == []
  {
    GroupOfOne(x, k, leq);
    GroupOfOne(last, k, leq);
    if SamePhase(Key(x), k, leq) && SamePhase(Key(last), k, leq) {
      SameGroupOrdered(Key(last), Key(x), k, leq);
    }
  }

  lemma {:induction false} InsertStable(x: Json, s: seq<Json>, k: string, leq: (string, string) -> bool)
    requires TotalPreorder(leq)
    ensures Group(Insert(x, s, leq), k, leq) == Group(s, k, leq) + Group([x], k, leq)
  {
    if |s| == 0 || leq(Key(s[|s| - 1]), Key(x)) {
      GroupAppend(s, [x], k, leq);
    } else {
      var init := s[..|s| - 1];
      var last := s[|s| - 1];
      var gx, gl := Group([x], k, leq), Group([last], k, leq);
      calc {
        Group(Insert(x, s, leq), k, leq);
        Group(Insert(x, init, leq) + [last], k, leq);
        { GroupAppend(Insert(x, init, leq), [last], k, leq); }
        Group(Insert(x, init, leq), k, leq) + gl;
        { InsertStable(x, init, k, leq); }
        Group(init, k, leq) + gx + gl;
        { ApartGroups(x, last, k, leq); }
        Group(init, k, leq) + gl + gx;
        { GroupAppend(init, [last], k, leq); }
        Group(init + [last], k, leq) + gx;
        { SplitLast(s); }
        Group(s, k, leq) + gx;
      }
    }
  }

  /** The sort is a permutation. */
  lemma {:induction false} InsertionSortPermutes(s: seq<Json>, leq: (string, string) -> bool)
    ensures multiset(InsertionSort(s, leq)) == multiset(s)
  {
    if |s| > 0 {
      InsertionSortPermutes(s[..|s| - 1], leq);
      InsertPermutes(s[|s| - 1], InsertionSort(s[..|s| - 1], leq), leq);
      SplitLast(s);
    }
  }

  /** The sort orders by phase. */
  lemma {:induction false} InsertionSortSorted(s: seq<Json>, leq: (string, string) -> bool)
    requires TotalPreorder(leq)
    ensures Sorted(InsertionSort(s, leq), leq)
  {
    if |s| > 0 {
      InsertionSortSorted(s[..|s| - 1], leq);
      InsertSorted(s[|s| - 1], InsertionSort(s[..|s| - 1], leq), leq);
    }
  }

  /** The sort is stable: ingredients of the same phase keep their relative order. */
  lemma {:induction false} InsertionSortStable(s: seq<Json>, k: string, leq: (string, string) -> bool)
    requires TotalPreorder(leq)
    ensures Group(InsertionSort(s, leq), k, leq) == Group(s, k, leq)
  {
    if |s| > 0 {
      var init, last := s[..|s| - 1], s[|s| - 1];
      calc {
        Group(InsertionSort(s, leq), k, leq);
        Group(Insert(last, InsertionSort(init, leq), leq), k, leq);
        { InsertStable(last, InsertionSort(init, leq), k, leq); }
        Group(InsertionSort(init, leq), k, leq) + Group([last], k, leq);
        { InsertionSortStable(init, k, leq); }
        Group(init, k, leq) + Group([last], k, leq);
        { GroupAppend(init, [last], k, leq); }
        Group(init + [last], k, leq);
        { SplitLast(s); }
        Group(s, k, leq);
      }
    }
  }

  /** The phase sort as the engine runs it: arrays of fewer than two elements are
      returned untouched without a comparison; otherwise every element takes part
      in a comparison, and the sort throws (None) when some phase cannot be
      compared. */
  function SortByPhase(ings: seq<Json>, leq: (string, string) -> bool): Option<seq<Json>> {
    if |ings| < 2 then Some(ings)
    else if !AllComparable(ings) then None
    else Some(InsertionSort(ings, leq))
  }

  /** What the phase sort promises: it throws exactly when two or more
      ingredients include one whose phase cannot be compared; otherwise its
      result is a permutation of the input, ordered by phase, and stable. */
  lemma SortByPhaseSpec(ings: seq<Json>, leq: (string, string) -> bool)
    requires TotalPreorder(leq)
    ensures SortByPhase(ings, leq).None? <==> |ings| >= 2 && exists i :: 0 <= i < |ings| && PhaseText(ings[i]).None?
    ensures SortByPhase(ings, leq).Some? ==>
      var r := SortByPhase(ings, leq).value;
      && multiset(r) == multiset(ings)
      && Sorted(r, leq)
      && forall k :: Group(r, k, leq) == Group(ings, k, leq)
  {
    if SortByPhase(ings, leq).Some? {
      InsertionSortPermutes(ings, leq);
      InsertionSortSorted(ings, leq);
      forall k ensures Group(SortByPhase(ings, leq).value, k, leq) == Group(ings, k, leq) {
        InsertionSortStable(ings, k, leq);
      }
    }
  }
}
